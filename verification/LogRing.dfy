// The ring buffer behind LastLog, against the unbounded log of everything recorded.

module LogRing {

  const ESCAPE: char := '\U{001B}'

  predicate IsLetter(c: char) { 'A' <= c <= 'Z' || 'a' <= c <= 'z' }

  // The first letter at or after i, or the end.
  function LetterFrom(m: string, i: nat): (j: nat)
    requires i <= |m|
    ensures i <= j <= |m| && (j < |m| ==> IsLetter(m[j]))
    ensures forall k :: i <= k < j ==> !IsLetter(m[k])
    decreases |m| - i
  {
    if i == |m| || IsLetter(m[i]) then i else LetterFrom(m, i + 1)
  }

  // What one message adds to the log: its text from i on without colour sequences, then a newline
  // unless the message ends inside a sequence.
  function Recorded(m: string, i: nat): string
    requires i <= |m|
    decreases |m| - i
  {
    if i == |m| then "\n"
    else if m[i] == ESCAPE then
      var j := LetterFrom(m, i);
      if j == |m| then "" else Recorded(m, j + 1)
    else [m[i]] + Recorded(m, i + 1)
  }

  function Rest(m: string, i: nat): string
    requires i <= |m| + 1
  {
    if i <= |m| then Recorded(m, i) else ""
  }

  lemma RecordedNext(m: string, i: nat)
    requires i <= |m|
    ensures i < |m| && m[i] == ESCAPE ==> Recorded(m, i) == Rest(m, LetterFrom(m, i) + 1)
    ensures !(i < |m| && m[i] == ESCAPE) ==>
              var c := if i == |m| then '\n' else m[i];
              forall log: string {:trigger log + Recorded(m, i)} :: log + Recorded(m, i) == log + [c] + Rest(m, i + 1)
  {}

  function Truncated(m: string, capacity: nat): string {
    if |m| > capacity / 4 then m[..capacity / 4] else m
  }

  function Max(a: int, b: int): int { if a < b then b else a }

  // Where a read starts: after the previous read, inside the buffer, and no longer than asked.
  function ReadStart(readOff: nat, written: nat, capacity: nat, maxBytes: nat): int {
    Max(readOff, Max(written - capacity, written - maxBytes))
  }

  method SkipSequence(text: string, i: nat) returns (j: nat)
    requires i <= |text|
    ensures j == LetterFrom(text, i)
  {
    j := i;
    while j < |text| && !IsLetter(text[j])
      invariant i <= j <= |text|
      invariant LetterFrom(text, i) == LetterFrom(text, j)
    {
      j := j + 1;
    }
  }

  class LogRingBuffer {
    var buffer: array?<char>
    var capacity: nat
    var writeOff: nat
    var readOff: nat
    var levelGate: nat
    ghost var log: string  // everything ever recorded

    ghost predicate Valid()
      reads this, buffer
    {
      && writeOff == |log| && readOff <= writeOff
      && (buffer == null ==> log == "")
      && (buffer != null ==>
            && buffer.Length == capacity > 0
            && forall i :: 0 <= i < |log| && |log| - capacity <= i ==> buffer[i % capacity] == log[i])
    }

    // What a read of at most maxBytes would return now.
    ghost function Unread(maxBytes: nat): string
      requires Valid()
      reads this, buffer
    {
      if buffer == null then "" else log[ReadStart(readOff, |log|, capacity, maxBytes)..]
    }

    constructor ()
      ensures Valid() && log == "" && buffer == null && readOff == 0
    {
      buffer := null;
      capacity, writeOff, readOff, levelGate := 0, 0, 0, 255;
      log := "";
    }

    // `available` says whether the allocator found the memory.
    method Init(size: nat, available: bool) returns (ok: bool)
      requires Valid() && buffer == null && size > 0
      modifies this
      ensures Valid() && log == old(log) && readOff == old(readOff)
      ensures ok == available && (ok ==> buffer != null && fresh(buffer) && capacity == size)
    {
      if !available {
        return false;
      }
      buffer := new char[size];
      capacity := size;
      ok := true;
    }

    method Put(c: char)
      requires Valid() && buffer != null
      modifies this`writeOff, this`log, buffer
      ensures Valid() && log == old(log) + [c]
    {
      buffer[writeOff % capacity] := c;
      forall i | 0 <= i < writeOff && writeOff + 1 - capacity <= i
        ensures i % capacity != writeOff % capacity
      {
        SlotsDiffer(i, writeOff, capacity);
      }
      log := log + [c];
      writeOff := writeOff + 1;
    }

    method Record(text: string)
      requires Valid() && buffer != null
      modifies this`writeOff, this`log, buffer
      ensures Valid() && log == old(log) + Recorded(text, 0)
    {
      hide Valid, Recorded, LetterFrom;
      var i := 0;
      while i <= |text|
        invariant 0 <= i <= |text| + 1
        invariant Valid()
        invariant old(log) + Recorded(text, 0) == log + Rest(text, i)
      {
        RecordedNext(text, i);
        if i < |text| && text[i] == ESCAPE {
          i := SkipSequence(text, i);
        } else {
          var c := if i == |text| then '\n' else text[i];
          Put(c);
        }
        i := i + 1;
      }
    }

    method Append(level: nat, message: string)
      requires Valid()
      modifies this`writeOff, this`log, buffer
      ensures Valid()
      ensures log == old(log) +
                     if buffer == null || level > levelGate || |message| == 0 then ""
                     else Recorded(Truncated(message, capacity), 0)
      ensures var fits := |message| <= capacity / 4;
              var kept := if fits then message else message[..capacity / 4];
              buffer != null && level <= levelGate && |message| > 0 && '\U{001B}' !in kept ==>
                log == old(log) + kept + "\n"
    {
      PlainTruncated(message, capacity);
      if buffer == null || level > levelGate || |message| == 0 {
        return;
      }
      var text := message;
      if |text| > capacity / 4 {
        text := text[..capacity / 4];
      }
      Record(text);
    }

    // The loop that copies `count` bytes from `start` on out of the ring.
    method CopyOut(start: nat, count: nat) returns (out: string)
      requires Valid() && buffer != null && |log| - capacity <= start && start + count == |log|
      ensures out == log[start..]
    {
      out := "";
      for i := 0 to count
        invariant out == log[start..start + i]
      {
        out := out + [buffer[(start + i) % capacity]];
      }
    }

    method ReadIncremental(maxBytes: nat) returns (out: string)
      requires Valid()
      modifies this`readOff
      ensures Valid() && readOff == |log|
      ensures out == old(Unread(maxBytes))
      ensures out == log[|log| - |out|..]
      ensures var unread := |log| - old(readOff);
              if buffer == null then out == ""
              else && |out| <= unread && |out| <= capacity && |out| <= maxBytes
                   && (|out| == unread || |out| == capacity || |out| == maxBytes)
    {
      if buffer == null {
        return "";
      }
      var start := readOff;
      var oldest := if writeOff > capacity then writeOff - capacity else 0;
      if start < oldest {
        start := oldest;
      }
      var count := writeOff - start;
      if count > maxBytes {
        start := writeOff - maxBytes;
        count := maxBytes;
      }
      assert start == ReadStart(readOff, |log|, capacity, maxBytes);
      out := CopyOut(start, count);
      assert out == Unread(maxBytes);
      readOff := writeOff;
    }
  }

  // A read returns the newest part of what is unread: all of it, or as much as the buffer still holds
  // or as was asked for, whichever is least.
  lemma ReadsNewest(readOff: nat, written: nat, capacity: nat, maxBytes: nat)
    requires readOff <= written
    ensures var count := written - ReadStart(readOff, written, capacity, maxBytes);
            && 0 <= count <= written - readOff && count <= capacity && count <= maxBytes
            && (count == written - readOff || count == capacity || count == maxBytes)
  {}

  lemma PlainTruncated(m: string, capacity: nat)
    ensures var kept := if |m| <= capacity / 4 then m else m[..capacity / 4];
            '\U{001B}' !in kept ==> Recorded(Truncated(m, capacity), 0) == kept + "\n"
  {
    hide Recorded;
    if '\U{001B}' !in Truncated(m, capacity) {
      PlainMessage(Truncated(m, capacity));
    }
  }

  lemma SlotsDiffer(i: nat, j: nat, n: nat)
    requires i < j < i + n
    ensures i % n != j % n
  {
    var d := j / n - i / n;
    assert j - i == d * n + (j % n - i % n);
    if d <= 0 {
      assert d * n <= 0;
    } else {
      assert d * n >= n;
    }
  }

  // ----- What is recorded -----

  lemma {:induction false} NothingEscaped(m: string, i: nat)
    requires i <= |m|
    ensures ESCAPE !in Recorded(m, i)
    ensures |Recorded(m, i)| <= |m| - i + 1
    decreases |m| - i
  {
    if i < |m| {
      if m[i] == ESCAPE {
        var j := LetterFrom(m, i);
        if j < |m| {
          NothingEscaped(m, j + 1);
        }
      } else {
        NothingEscaped(m, i + 1);
      }
    }
  }

  lemma {:induction false} PlainKept(m: string, i: nat, k: nat)
    requires i <= k <= |m| && ESCAPE !in m[i..k]
    ensures Recorded(m, i) == m[i..k] + Recorded(m, k)
    decreases k - i
  {
    hide LetterFrom;
    if i < k {
      assert m[i] == m[i..k][0];
      assert m[i + 1..k] == m[i..k][1..];
      PlainKept(m, i + 1, k);
      assert m[i..k] == [m[i]] + m[i + 1..k];
      assert [m[i]] + (m[i + 1..k] + Recorded(m, k)) == m[i..k] + Recorded(m, k);
    }
  }

  // A message without escapes is recorded as it is, with its newline.
  lemma PlainMessage(m: string)
    requires '\U{001B}' !in m
    ensures Recorded(m, 0) == m + "\n"
  {
    assert m[0..|m|] == m;
    PlainKept(m, 0, |m|);
  }

  lemma {:induction false} LetterIs(m: string, i: nat, j: nat)
    requires i <= j < |m| && IsLetter(m[j])
    requires forall k :: i <= k < j ==> !IsLetter(m[k])
    ensures LetterFrom(m, i) == j
    decreases j - i
  {
    if i < j {
      LetterIs(m, i + 1, j);
    }
  }

  lemma LetterShift(m: string, pre: string, i: nat)
    requires i <= |m|
    ensures LetterFrom(pre + m, |pre| + i) == |pre| + LetterFrom(m, i)
    decreases |m| - i
  {
    if i < |m| {
      assert (pre + m)[|pre| + i] == m[i];
      if !IsLetter(m[i]) {
        LetterShift(m, pre, i + 1);
      }
    }
  }

  lemma {:induction false} RecordedShift(m: string, pre: string, i: nat)
    requires i <= |m|
    ensures Recorded(pre + m, |pre| + i) == Recorded(m, i)
    decreases |m| - i
  {
    hide LetterFrom, Recorded;
    var w := pre + m;
    RecordedCase(m, i);
    RecordedCase(w, |pre| + i);
    if i < |m| {
      assert w[|pre| + i] == m[i];
      if m[i] == ESCAPE {
        LetterShift(m, pre, i);
        if LetterFrom(m, i) < |m| {
          RecordedShift(m, pre, LetterFrom(m, i) + 1);
        }
      } else {
        RecordedShift(m, pre, i + 1);
      }
    }
  }

  lemma RecordedCase(m: string, i: nat)
    requires i <= |m|
    ensures i == |m| ==> Recorded(m, i) == "\n"
    ensures i < |m| && m[i] == ESCAPE ==>
              Recorded(m, i) == if LetterFrom(m, i) == |m| then "" else Recorded(m, LetterFrom(m, i) + 1)
    ensures i < |m| && m[i] != ESCAPE ==> Recorded(m, i) == [m[i]] + Recorded(m, i + 1)
  {}

  lemma LeadingSequence(mid: string, letter: char, b: string)
    requires IsLetter(letter) && forall c :: c in mid ==> !IsLetter(c)
    ensures Recorded([ESCAPE] + mid + [letter] + b, 0) == Recorded(b, 0)
  {
    var pre := [ESCAPE] + mid + [letter];
    var m := pre + b;
    var j := 1 + |mid|;
    assert !IsLetter(ESCAPE);
    forall k | 0 <= k < j ensures !IsLetter(m[k]) {
      if k > 0 {
        assert m[k] == mid[k - 1];
      }
    }
    LetterIs(m, 0, j);
    RecordedShift(b, pre, 0);
  }

  // A sequence that is never closed takes the rest of the message and the newline with it.
  lemma UnterminatedLosesNewline(a: string, mid: string)
    requires '\U{001B}' !in a && forall c :: c in mid ==> !('A' <= c <= 'Z' || 'a' <= c <= 'z')
    ensures Recorded(a + ['\U{001B}'] + mid, 0) == a
  {
    var m := a + [ESCAPE] + mid;
    assert m[0..|a|] == a;
    PlainKept(m, 0, |a|);
    forall k | |a| <= k < |m| ensures !IsLetter(m[k]) {
      if k > |a| {
        assert m[k] == mid[k - |a| - 1] && m[k] in mid;
      }
    }
  }

  // ----- The same, position by position -----

  // An escape at or before position i with no letter in between: position i belongs to a colour
  // sequence, its final letter included.
  predicate Inside(m: string, i: nat)
    requires i <= |m|
  {
    exists k: nat :: k <= i && k < |m| && m[k] == ESCAPE && forall x :: k < x < i ==> !IsLetter(m[x])
  }

  // The positions from i on that lie outside every sequence; the newline stands at position |m|.
  function Outside(m: string, i: nat): string
    requires i <= |m| + 1
    decreases |m| + 1 - i
  {
    if i > |m| then ""
    else (if Inside(m, i) then "" else if i < |m| then [m[i]] else "\n") + Outside(m, i + 1)
  }

  // A sequence that starts before i is still open at i.
  predicate Open(m: string, i: nat)
    requires i <= |m| + 1
  {
    exists k: nat :: k < i && k < |m| && m[k] == ESCAPE && forall x :: k < x < i && x < |m| ==> !IsLetter(m[x])
  }

  lemma {:induction false} SkipInside(m: string, i: nat, j: nat)
    requires i <= j <= |m| + 1 && forall x :: i <= x < j ==> Inside(m, x)
    ensures Outside(m, i) == Outside(m, j)
    decreases j - i
  {
    hide Inside;
    if i < j {
      SkipInside(m, i + 1, j);
    }
  }

  lemma SequenceInside(m: string, i: nat, x: nat)
    requires i <= x <= |m| && i < |m| && m[i] == ESCAPE && x <= LetterFrom(m, i)
    ensures Inside(m, x)
  {
    assert i <= x && forall y :: i < y < x ==> !IsLetter(m[y]);
  }

  lemma SequenceCloses(m: string, i: nat)
    requires i < |m| && m[i] == ESCAPE && LetterFrom(m, i) < |m|
    ensures !Open(m, LetterFrom(m, i) + 1)
  {
    var j := LetterFrom(m, i);
    assert IsLetter(m[j]);
    forall k: nat | k < j + 1 && m[k] == ESCAPE ensures exists x :: k < x < j + 1 && IsLetter(m[x]) {
      assert k < j;
    }
  }

  lemma PlainStep(m: string, i: nat)
    requires i <= |m| && !Open(m, i) && (i < |m| ==> m[i] != ESCAPE)
    ensures !Inside(m, i) && !Open(m, i + 1)
  {}

  // What is recorded is exactly what lies outside the sequences; in particular the newline is
  // missing exactly when the message ends inside one.
  lemma {:induction false} RecordedIsOutside(m: string, i: nat)
    requires i <= |m| && !Open(m, i)
    ensures Recorded(m, i) == Outside(m, i)
    decreases |m| - i
  {
    hide Inside, Open, LetterFrom, IsLetter;
    if i < |m| && m[i] == ESCAPE {
      var j := LetterFrom(m, i);
      forall x: nat | i <= x <= j ensures Inside(m, x) {
        SequenceInside(m, i, x);
      }
      SkipInside(m, i, j + 1);
      if j < |m| {
        SequenceCloses(m, i);
        RecordedIsOutside(m, j + 1);
      }
    } else {
      PlainStep(m, i);
      if i < |m| {
        RecordedIsOutside(m, i + 1);
      }
    }
  }

  lemma OpenUntilLetter(a: string, i: nat)
    requires i < |a| && a[i] == ESCAPE && !Open(a, |a|)
    ensures LetterFrom(a, i) < |a|
  {
    assert exists x :: i < x < |a| && IsLetter(a[x]);
  }

  lemma LetterPrefix(a: string, x: string, i: nat)
    requires i <= |a| && LetterFrom(a, i) < |a|
    ensures LetterFrom(a + x, i) == LetterFrom(a, i)
  {
    var j := LetterFrom(a, i);
    assert (a + x)[j] == a[j];
    forall k | i <= k < j ensures !IsLetter((a + x)[k]) {
      assert (a + x)[k] == a[k];
    }
    LetterIs(a + x, i, j);
  }

  // What follows a text that closes its sequences is recorded on its own.
  lemma {:induction false} SameTail(a: string, x: string, y: string, i: nat)
    requires i <= |a| && !Open(a, |a|) && Recorded(x, 0) == Recorded(y, 0)
    ensures Recorded(a + x, i) == Recorded(a + y, i)
    decreases |a| - i
  {
    hide Open, LetterFrom;
    if i == |a| {
      RecordedShift(x, a, 0);
      RecordedShift(y, a, 0);
    } else {
      assert (a + x)[i] == a[i] == (a + y)[i];
      if a[i] == ESCAPE {
        OpenUntilLetter(a, i);
        LetterPrefix(a, x, i);
        LetterPrefix(a, y, i);
        SameTail(a, x, y, LetterFrom(a, i) + 1);
      } else {
        SameTail(a, x, y, i + 1);
      }
    }
  }

  // A colour sequence - an escape, no letters, then a letter - leaves no trace wherever it stands
  // outside another one.
  lemma SequenceStripped(a: string, mid: string, letter: char, b: string)
    requires !Open(a, |a|) && ('A' <= letter <= 'Z' || 'a' <= letter <= 'z')
    requires forall c :: c in mid ==> !('A' <= c <= 'Z' || 'a' <= c <= 'z')
    ensures Recorded(a + ['\U{001B}'] + mid + [letter] + b, 0) == Recorded(a + b, 0)
  {
    hide Open;
    LeadingSequence(mid, letter, b);
    assert a + [ESCAPE] + mid + [letter] + b == a + ([ESCAPE] + mid + [letter] + b);
    SameTail(a, [ESCAPE] + mid + [letter] + b, b, 0);
  }

  // ----- Whole runs of appends and reads -----

  datatype LogOp = Wrote(text: string) | Read(maxBytes: nat)

  datatype Slice = Slice(from: nat, to: nat)

  // After `ops`: the log, the read cursor, and the slice [from, to) of each read in order.
  datatype LogRun = LogRun(log: string, readOff: nat, slices: seq<Slice>)

  function RunLog(ops: seq<LogOp>, capacity: nat): (r: LogRun)
    ensures r.readOff <= |r.log|
    ensures forall k :: 0 <= k < |r.slices| ==> r.slices[k].from <= r.slices[k].to <= r.readOff
  {
    if |ops| == 0 then LogRun("", 0, [])
    else
      var r := RunLog(ops[..|ops| - 1], capacity);
      match ops[|ops| - 1]
      case Wrote(text) => r.(log := r.log + text)
      case Read(maxBytes) =>
        var start := ReadStart(r.readOff, |r.log|, capacity, maxBytes);
        LogRun(r.log, |r.log|, r.slices + [Slice(start, |r.log|)])
  }

  predicate InOrder(slices: seq<Slice>) {
    forall j, k :: 0 <= j < k < |slices| ==> slices[j].to <= slices[k].from
  }

  // No byte is served twice, and later reads serve later bytes.
  lemma {:induction false} ReadsInOrder(ops: seq<LogOp>, capacity: nat)
    ensures InOrder(RunLog(ops, capacity).slices)
  {
    if |ops| > 0 {
      var before := RunLog(ops[..|ops| - 1], capacity);
      ReadsInOrder(ops[..|ops| - 1], capacity);
      if ops[|ops| - 1].Read? {
        var slices := RunLog(ops, capacity).slices;
        var n := |before.slices|;
        assert slices == before.slices + [slices[n]] && before.readOff <= slices[n].from;
        forall j, k | 0 <= j < k < |slices| ensures slices[j].to <= slices[k].from {
          assert slices[j] == before.slices[j];
          if k < n {
            assert slices[k] == before.slices[k] && before.slices[j].to <= before.slices[k].from;
          } else {
            assert before.slices[j].to <= before.readOff;
          }
        }
      }
    }
  }

  // At each read the unread part still fits the buffer and the request.
  predicate NeverBehind(ops: seq<LogOp>, capacity: nat) {
    |ops| > 0 ==>
      var r := RunLog(ops[..|ops| - 1], capacity);
      && NeverBehind(ops[..|ops| - 1], capacity)
      && (ops[|ops| - 1].Read? ==>
            |r.log| - r.readOff <= capacity && |r.log| - r.readOff <= ops[|ops| - 1].maxBytes)
  }

  function Served(log: string, slices: seq<Slice>): string
    requires forall k :: 0 <= k < |slices| ==> slices[k].from <= slices[k].to <= |log|
  {
    if |slices| == 0 then ""
    else Served(log, slices[..|slices| - 1]) + log[slices[|slices| - 1].from..slices[|slices| - 1].to]
  }

  lemma {:induction false} ServedSame(log: string, more: string, slices: seq<Slice>)
    requires forall k :: 0 <= k < |slices| ==> slices[k].from <= slices[k].to <= |log|
    ensures Served(log + more, slices) == Served(log, slices)
  {
    if |slices| > 0 {
      ServedSame(log, more, slices[..|slices| - 1]);
      var last := slices[|slices| - 1];
      assert (log + more)[last.from..last.to] == log[last.from..last.to];
    }
  }

  lemma ReadStep(ops: seq<LogOp>, capacity: nat)
    requires |ops| > 0 && ops[|ops| - 1].Read?
    ensures var before, r := RunLog(ops[..|ops| - 1], capacity), RunLog(ops, capacity);
            var start := ReadStart(before.readOff, |before.log|, capacity, ops[|ops| - 1].maxBytes);
            Served(r.log, r.slices) == Served(before.log, before.slices) + before.log[start..]
  {
    var before, r := RunLog(ops[..|ops| - 1], capacity), RunLog(ops, capacity);
    assert r.slices[..|r.slices| - 1] == before.slices;
    assert before.log[r.slices[|r.slices| - 1].from..|before.log|] == before.log[r.slices[|r.slices| - 1].from..];
  }

  // What the reads served is the log up to the last read exactly when none of them came too late.
  lemma {:induction false} ReadsAreTheLog(ops: seq<LogOp>, capacity: nat)
    ensures var r := RunLog(ops, capacity);
            Served(r.log, r.slices) == r.log[..r.readOff] <==> NeverBehind(ops, capacity)
  {
    ReadsCover(ops, capacity);
  }

  lemma SliceCovers(log: string, readOff: nat, capacity: nat, maxBytes: nat)
    requires readOff <= |log|
    ensures var start := ReadStart(readOff, |log|, capacity, maxBytes);
            if |log| - readOff <= capacity && |log| - readOff <= maxBytes
            then log[..readOff] + log[start..] == log
            else readOff + |log[start..]| < |log|
  {}

  lemma {:induction false} ReadsCover(ops: seq<LogOp>, capacity: nat)
    ensures var r := RunLog(ops, capacity);
            && |Served(r.log, r.slices)| <= r.readOff
            && (NeverBehind(ops, capacity) ==> Served(r.log, r.slices) == r.log[..r.readOff])
            && (!NeverBehind(ops, capacity) ==> |Served(r.log, r.slices)| < r.readOff)
  {
    if |ops| > 0 {
      var init := ops[..|ops| - 1];
      var before := RunLog(init, capacity);
      ReadsCover(init, capacity);
      match ops[|ops| - 1] {
        case Wrote(text) =>
          ServedSame(before.log, text, before.slices);
        case Read(maxBytes) =>
          ReadStep(ops, capacity);
          hide Served, ReadStart;
          SliceCovers(before.log, before.readOff, capacity, maxBytes);
      }
    }
  }

  // ----- The ring does what these runs say -----

  datatype RingOp = Message(level: nat, text: string) | Fetch(maxBytes: nat)

  // What a call of the ring means for the unbounded log.
  function LogOpOf(op: RingOp, gate: nat, capacity: nat): LogOp {
    match op
    case Message(level, text) =>
      Wrote(if level > gate || |text| == 0 then "" else Recorded(Truncated(text, capacity), 0))
    case Fetch(maxBytes) => Read(maxBytes)
  }

  function LogOpsOf(ops: seq<RingOp>, gate: nat, capacity: nat): (r: seq<LogOp>)
    ensures |r| == |ops|
  {
    seq(|ops|, i requires 0 <= i < |ops| => LogOpOf(ops[i], gate, capacity))
  }

  predicate Slices(outs: seq<string>, r: LogRun) {
    |outs| == |r.slices| && forall k :: 0 <= k < |outs| ==>
      0 <= r.slices[k].from <= r.slices[k].to <= |r.log| && outs[k] == r.log[r.slices[k].from..r.slices[k].to]
  }

  lemma WroteRun(ops: seq<LogOp>, text: string, capacity: nat, outs: seq<string>)
    requires Slices(outs, RunLog(ops, capacity))
    ensures var r := RunLog(ops + [Wrote(text)], capacity);
            r == RunLog(ops, capacity).(log := RunLog(ops, capacity).log + text) && Slices(outs, r)
  {
    assert (ops + [Wrote(text)])[..|ops|] == ops;
    var before := RunLog(ops, capacity);
    forall k | 0 <= k < |outs|
      ensures outs[k] == (before.log + text)[before.slices[k].from..before.slices[k].to]
    {
      var slice := before.slices[k];
      assert (before.log + text)[slice.from..slice.to] == before.log[slice.from..slice.to];
    }
  }

  lemma ReadRun(ops: seq<LogOp>, maxBytes: nat, capacity: nat, outs: seq<string>)
    requires Slices(outs, RunLog(ops, capacity))
    ensures var before, r := RunLog(ops, capacity), RunLog(ops + [Read(maxBytes)], capacity);
            var start := ReadStart(before.readOff, |before.log|, capacity, maxBytes);
            && r.log == before.log && r.readOff == |before.log| && 0 <= start <= |before.log|
            && Slices(outs + [before.log[start..]], r)
  {
    hide ReadStart;
    assert (ops + [Read(maxBytes)])[..|ops|] == ops;
    var before := RunLog(ops, capacity);
    var start := ReadStart(before.readOff, |before.log|, capacity, maxBytes);
    StartInLog(before.readOff, |before.log|, capacity, maxBytes);
    SlicesExtend(outs, before, start);
  }

  lemma StartInLog(readOff: nat, written: nat, capacity: nat, maxBytes: nat)
    requires readOff <= written
    ensures 0 <= ReadStart(readOff, written, capacity, maxBytes) <= written
  {}

  lemma SlicesExtend(outs: seq<string>, r: LogRun, start: nat)
    requires Slices(outs, r) && start <= |r.log|
    ensures Slices(outs + [r.log[start..]], LogRun(r.log, |r.log|, r.slices + [Slice(start, |r.log|)]))
  {
    assert r.log[start..] == r.log[start..|r.log|];
  }

  lemma NextOp(ops: seq<RingOp>, i: nat, gate: nat, capacity: nat)
    requires i < |ops|
    ensures LogOpsOf(ops[..i + 1], gate, capacity) ==
            LogOpsOf(ops[..i], gate, capacity) + [LogOpOf(ops[i], gate, capacity)]
  {
    hide LogOpOf;
  }

  // Any calls on a ring that starts empty: its log, its cursor and what it serves are those of the
  // run over the unbounded log.
  method Replay(ring: LogRingBuffer, ops: seq<RingOp>) returns (outs: seq<string>)
    requires ring.Valid() && ring.buffer != null && ring.log == "" && ring.readOff == 0
    modifies ring`writeOff, ring`readOff, ring`log, ring.buffer
    ensures ring.Valid()
    ensures var r := RunLog(LogOpsOf(ops, ring.levelGate, ring.capacity), ring.capacity);
            ring.log == r.log && ring.readOff == r.readOff && Slices(outs, r)
  {
    hide Recorded, ReadStart, Slices, RunLog;
    outs := [];
    EmptyRun(ring.capacity);
    assert LogOpsOf(ops[..0], ring.levelGate, ring.capacity) == [];
    var i := 0;
    while i < |ops|
      invariant i <= |ops| && ring.Valid()
      invariant var r := RunLog(LogOpsOf(ops[..i], ring.levelGate, ring.capacity), ring.capacity);
                ring.log == r.log && ring.readOff == r.readOff && Slices(outs, r)
    {
      ghost var before := LogOpsOf(ops[..i], ring.levelGate, ring.capacity);
      NextOp(ops, i, ring.levelGate, ring.capacity);
      match ops[i] {
        case Message(level, text) =>
          WroteRun(before, LogOpOf(ops[i], ring.levelGate, ring.capacity).text, ring.capacity, outs);
          ring.Append(level, text);
        case Fetch(maxBytes) =>
          ReadRun(before, maxBytes, ring.capacity, outs);
          var out := ring.ReadIncremental(maxBytes);
          outs := outs + [out];
      }
      i := i + 1;
    }
    assert ops[..i] == ops;
  }

  lemma EmptyRun(capacity: nat)
    ensures RunLog([], capacity) == LogRun("", 0, []) && Slices([], RunLog([], capacity))
  {}
}
