/** 16-bit wrapping sequence numbers, as Go's uint16 and int16 compute them. */
module Wrap16 {
  const SPAN := 65536

  type U16 = x: int | 0 <= x < 65536

  /** uint16(x) */
  function Wrap(x: int): U16 {
    x % SPAN
  }

  /** int16(a - b): how far `a` lies ahead of `b`, negative when it lies behind. */
  function Distance(a: U16, b: U16): (d: int)
    ensures -32768 <= d < 32768
    ensures Wrap(b + d) == a
  {
    var u := Wrap(a - b);
    if u < 32768 then u else u - SPAN
  }

  /** Distance is the only signed 16-bit step from `b` to `a`. */
  lemma DistanceUnique(a: U16, b: int, d: int)
    requires -32768 <= d < 32768
    requires Wrap(b + d) == a
    ensures Distance(a, Wrap(b)) == d
  {
    WrapShift(b, d);
    assert Wrap(b + d) == Wrap(Wrap(b) + d);
    var e := Distance(a, Wrap(b));
    assert (Wrap(b) + d) % SPAN == (Wrap(b) + e) % SPAN;
    SameResidue(Wrap(b) + d, Wrap(b) + e);
  }

  lemma WrapShift(b: int, d: int)
    ensures Wrap(Wrap(b) + d) == Wrap(b + d)
  {
    assert b == SPAN * (b / SPAN) + b % SPAN;
    assert b + d == SPAN * (b / SPAN) + (b % SPAN + d);
  }

  /** Two integers less than 65536 apart with the same residue are equal. */
  lemma SameResidue(a: int, b: int)
    requires Wrap(a) == Wrap(b)
    requires -SPAN < a - b < SPAN
    ensures a == b
  {
  }
}
