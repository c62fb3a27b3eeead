// The order of std::map<std::string, ...>: smallest key, next key, and the keys in order.

module Keys {

  import opened Options

  predicate Less(a: string, b: string) {
    if |b| == 0 then false
    else if |a| == 0 then true
    else if a[0] == b[0] then Less(a[1..], b[1..])
    else a[0] < b[0]
  }

  lemma {:induction false} LessIrreflexive(a: string)
    ensures !Less(a, a)
  {
    if |a| > 0 { LessIrreflexive(a[1..]); }
  }

  lemma {:induction false} LessTransitive(a: string, b: string, c: string)
    requires Less(a, b) && Less(b, c)
    ensures Less(a, c)
  {
    if |a| > 0 && a[0] == b[0] == c[0] {
      LessTransitive(a[1..], b[1..], c[1..]);
    }
  }

  lemma {:induction false} LessTotal(a: string, b: string)
    ensures a == b || Less(a, b) || Less(b, a)
  {
    if |a| > 0 && |b| > 0 && a[0] == b[0] {
      LessTotal(a[1..], b[1..]);
      assert a == [a[0]] + a[1..] && b == [b[0]] + b[1..];
    }
  }

  // Byte order: the first place where two keys differ decides, and a prefix comes before what extends
  // it; so the empty key comes before all others.
  lemma {:induction false} LessExactly(a: string, b: string)
    ensures Less(a, b) <==>
            exists n: nat :: n <= |a| && n < |b| && a[..n] == b[..n] && (n == |a| || a[n] < b[n])
  {
    if |a| > 0 && |b| > 0 && a[0] == b[0] {
      LessExactly(a[1..], b[1..]);
      if n: nat :| n <= |a| && n < |b| && a[..n] == b[..n] && (n == |a| || a[n] < b[n]) {
        assert n > 0;
        assert a[1..][..n - 1] == a[..n][1..] && b[1..][..n - 1] == b[..n][1..];
      }
      if m: nat :| m < |a| && m < |b| - 1 && a[1..][..m] == b[1..][..m] && (m == |a| - 1 || a[1..][m] < b[1..][m]) {
        assert a[..m + 1] == [a[0]] + a[1..][..m] && b[..m + 1] == [b[0]] + b[1..][..m];
        assert m + 1 == |a| || a[m + 1] < b[m + 1];
      }
    } else if Less(a, b) {
      assert a[..0] == b[..0];
    }
  }

  ghost predicate IsFirst(k: string, keys: set<string>) {
    k in keys && forall other :: other in keys && other != k ==> Less(k, other)
  }

  lemma {:induction false} FirstExists(keys: set<string>)
    requires keys != {}
    ensures exists k :: IsFirst(k, keys)
    decreases |keys|
  {
    var x :| x in keys;
    var rest := keys - {x};
    if rest == {} {
      assert keys == {x};
      assert IsFirst(x, keys);
    } else {
      FirstExists(rest);
      var k :| IsFirst(k, rest);
      LessTotal(x, k);
      if Less(k, x) {
        assert IsFirst(k, keys);
      } else {
        forall other | other in keys && other != x ensures Less(x, other) {
          if other != k { LessTransitive(x, k, other); }
        }
        assert IsFirst(x, keys);
      }
    }
  }

  lemma FirstUnique(k: string, l: string, keys: set<string>)
    requires IsFirst(k, keys) && IsFirst(l, keys)
    ensures k == l
  {
    if k != l {
      LessTransitive(k, l, k);
      LessIrreflexive(k);
    }
  }

  // begin(): the smallest key, or end().
  ghost function First(keys: set<string>): (r: Option<string>)
    ensures r.None? <==> keys == {}
    ensures r.Some? ==> IsFirst(r.value, keys)
  {
    if keys == {} then None
    else
      FirstExists(keys);
      var k :| IsFirst(k, keys);
      Some(k)
  }

  function Above(keys: set<string>, key: string): set<string> {
    set k | k in keys && Less(key, k)
  }

  // Where a walk goes next: begin() at its start, upper_bound(key) afterwards.
  ghost function Next(keys: set<string>, fromStart: bool, key: string): (r: Option<string>)
    ensures r.Some? ==> r.value in keys && (fromStart || Less(key, r.value))
  {
    First(if fromStart then keys else Above(keys, key))
  }

  ghost predicate FirstSoFar(r: Option<string>, seen: set<string>) {
    if r.None? then seen == {} else IsFirst(r.value, seen)
  }

  lemma AllSeen(r: Option<string>, keys: set<string>)
    requires FirstSoFar(r, keys)
    ensures r == First(keys)
  {
    if r.Some? {
      FirstUnique(r.value, First(keys).value, keys);
    }
  }

  method FindFirst(keys: set<string>) returns (r: Option<string>)
    ensures r == First(keys)
  {
    hide Less, IsFirst, First;
    r := None;
    var left := keys;
    ghost var seen: set<string> := {};
    while left != {}
      invariant left !! seen && left + seen == keys
      invariant FirstSoFar(r, seen)
      decreases |left|
    {
      var k :| k in left;
      SmallerOf(r, k, seen);
      if r.None? || Less(k, r.value) {
        r := Some(k);
      }
      left, seen := left - {k}, seen + {k};
    }
    AllSeen(r, seen);
    assert seen == keys;
  }

  lemma SmallerOf(r: Option<string>, k: string, seen: set<string>)
    requires FirstSoFar(r, seen) && k !in seen
    ensures FirstSoFar(if r.None? || Less(k, r.value) then Some(k) else r, seen + {k})
  {
    if r.Some? {
      Smaller(k, r.value, seen);
    }
  }

  lemma Smaller(k: string, first: string, seen: set<string>)
    requires IsFirst(first, seen) && k !in seen
    ensures IsFirst(if Less(k, first) then k else first, seen + {k})
  {
    LessTotal(k, first);
    forall other | other in seen && other != first && Less(k, first) ensures Less(k, other) {
      LessTransitive(k, first, other);
    }
  }

  method FindNext(keys: set<string>, fromStart: bool, key: string) returns (r: Option<string>)
    ensures r == Next(keys, fromStart, key)
  {
    if fromStart {
      r := FindFirst(keys);
    } else {
      r := FindFirst(set k | k in keys && Less(key, k));
    }
  }

  // ----- All keys in map order -----

  ghost function Sorted(keys: set<string>): (s: seq<string>)
    ensures |s| == |keys|
    decreases |keys|
  {
    if keys == {} then []
    else
      var k := First(keys).value;
      [k] + Sorted(keys - {k})
  }

  lemma {:induction false} SortedHasAll(keys: set<string>)
    ensures forall k :: k in Sorted(keys) <==> k in keys
    decreases |keys|
  {
    if keys != {} {
      var k := First(keys).value;
      SortedHasAll(keys - {k});
    }
  }

  predicate Ascending(s: seq<string>) {
    forall i, j :: 0 <= i < j < |s| ==> Less(s[i], s[j])
  }

  lemma PrependAscends(k: string, s: seq<string>)
    requires Ascending(s) && forall x :: x in s ==> Less(k, x)
    ensures Ascending([k] + s)
  {
    hide Less;
    var t := [k] + s;
    forall i, j | 0 <= i < j < |t| ensures Less(t[i], t[j]) {
      assert t[j] == s[j - 1] && s[j - 1] in s;
      assert i > 0 ==> t[i] == s[i - 1];
    }
  }

  lemma {:induction false} SortedAscends(keys: set<string>)
    ensures Ascending(Sorted(keys))
    decreases |keys|
  {
    hide Less;
    if keys != {} {
      var k := First(keys).value;
      SortedAscends(keys - {k});
      SortedHasAll(keys - {k});
      PrependAscends(k, Sorted(keys - {k}));
    }
  }

  lemma AscendingExtends(s: seq<string>, k: string)
    requires Ascending(s) && (|s| > 0 ==> Less(s[|s| - 1], k))
    ensures Ascending(s + [k])
  {
    hide Less;
    forall i, j | 0 <= i < j < |s + [k]| ensures Less((s + [k])[i], (s + [k])[j]) {
      if j == |s| && i < |s| - 1 {
        LessTransitive(s[i], s[|s| - 1], k);
      }
    }
  }

  lemma AscendingDistinct(s: seq<string>)
    requires Ascending(s)
    ensures forall i, j :: 0 <= i < j < |s| ==> s[i] != s[j]
  {
    forall i, j | 0 <= i < j < |s| ensures s[i] != s[j] {
      LessIrreflexive(s[i]);
    }
  }
}
