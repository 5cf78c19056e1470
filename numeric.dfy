/** Python's numeric built-ins as the controller uses them, over exact reals. */
module Numeric {

  function Min(a: real, b: real): real { if b < a then b else a }

  function Max(a: real, b: real): real { if b > a then b else a }

  /** `max(lo, min(hi, v))`: the clamp idiom used for angles and zoom. */
  function Clamp(lo: real, hi: real, v: real): (r: real)
    ensures lo <= hi ==> lo <= r <= hi
    ensures lo <= v <= hi ==> r == v
    ensures hi < v && lo <= hi ==> r == hi
    ensures v < lo ==> r == lo
  {
    Max(lo, Min(hi, v))
  }

  /** Python's `int(r)` on a float: truncation toward zero. */
  function Trunc(r: real): (n: int)
    ensures 0.0 <= r ==> 0 <= n && n as real <= r < n as real + 1.0
    ensures r < 0.0 ==> n <= 0 && n as real - 1.0 < r <= n as real
  {
    if r >= 0.0 then r.Floor else -((-r).Floor)
  }

  /** Truncation leaves integral values alone. */
  lemma TruncOfInt(n: int)
    ensures Trunc(n as real) == n
  {
  }

  /** Truncation toward zero never reverses the order of two values. */
  lemma TruncMonotone(a: real, b: real)
    requires a <= b
    ensures Trunc(a) <= Trunc(b)
  {
  }

  /** A value between two integers truncates to a value between them. */
  lemma TruncBetween(lo: int, hi: int, r: real)
    requires lo as real <= r <= hi as real
    ensures lo <= Trunc(r) <= hi
  {
    TruncMonotone(lo as real, r);
    TruncMonotone(r, hi as real);
    TruncOfInt(lo);
    TruncOfInt(hi);
  }

  /** With integer bounds, clamping and then truncating gives the same value as
      truncating and then clamping. */
  lemma TruncClampCommute(lo: int, hi: int, v: real)
    requires lo <= hi
    ensures Trunc(Clamp(lo as real, hi as real, v)) as real
         == Clamp(lo as real, hi as real, Trunc(v) as real)
  {
    if v < lo as real {
      TruncMonotone(v, lo as real);
      TruncOfInt(lo);
    } else if hi as real < v {
      TruncMonotone(hi as real, v);
      TruncOfInt(hi);
    } else {
      TruncBetween(lo, hi, v);
    }
  }
}
