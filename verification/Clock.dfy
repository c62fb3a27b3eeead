// The 32-bit millisecond counter: unbounded uptime, what millis() shows of it, and the two
// comparisons the firmware makes on it.

module Clock {

  const TWO31: int := 0x8000_0000
  const TWO32: int := 0x1_0000_0000

  type u32 = x: int | 0 <= x < 0x1_0000_0000

  // What a 32-bit counter shows of an unbounded value.
  function Wrap(t: int): u32 { t % TWO32 }

  function Add(a: u32, b: u32): u32 { Wrap(a + b) }

  function Sub(a: u32, b: u32): u32 { Wrap(a - b) }

  // The cast (int32_t) on a two's complement machine.
  function Signed(x: u32): int { if x < TWO31 then x else x - TWO32 }

  // (int32_t) (now - deadline) >= 0
  predicate Reached(now: u32, deadline: u32) { Signed(Sub(now, deadline)) >= 0 }

  // now - since >= length
  predicate Elapsed(now: u32, since: u32, length: u32) { Sub(now, since) >= length }

  lemma WrapSub(t: int, s: int)
    ensures Sub(Wrap(t), Wrap(s)) == Wrap(t - s)
    ensures 0 <= t - s < TWO32 ==> Sub(Wrap(t), Wrap(s)) == t - s
  {
    WrapDiff(t, s);
  }

  lemma WrapDiff(t: int, s: int)
    ensures (t % TWO32 - s % TWO32) % TWO32 == (t - s) % TWO32
  {
    var q, p := t / TWO32, s / TWO32;
    assert t % TWO32 - s % TWO32 == (t - s) + TWO32 * (p - q);
    WrapMultiple(t - s, p - q);
  }

  lemma WrapMultiple(t: int, k: int)
    ensures (t + TWO32 * k) % TWO32 == t % TWO32
  {
    assert t == TWO32 * (t / TWO32) + t % TWO32;
    assert t + TWO32 * k == TWO32 * (t / TWO32 + k) + t % TWO32;
  }

  lemma WrapAdd(t: int, d: u32)
    ensures Add(Wrap(t), d) == Wrap(t + d)
  {
    assert t == TWO32 * (t / TWO32) + t % TWO32;
    WrapMultiple(t % TWO32 + d, t / TWO32);
  }

  // The signed test sees only the low 31 bits of the distance and one sign bit above them.
  lemma ReachedExactly(t: int, deadline: int)
    ensures Reached(Wrap(t), Wrap(deadline)) <==> (t - deadline) % TWO32 < TWO31
  {
    WrapSub(t, deadline);
  }

  // Within 2^31 ms of the deadline, on either side, the test is the comparison it stands for.
  lemma ReachedNear(t: int, deadline: int)
    requires -TWO31 <= t - deadline < TWO31
    ensures Reached(Wrap(t), Wrap(deadline)) <==> deadline <= t
  {
    ReachedExactly(t, deadline);
  }
}
