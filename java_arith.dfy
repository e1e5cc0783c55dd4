/** The Java integer semantics that cell resolution depends on:
    the narrowing cast from double to int (JLS 5.1.3), int division that
    truncates toward zero (JLS 15.17.2) and 32-bit two's-complement
    wrap-around of int addition (JLS 15.18.2). Doubles are modelled as reals. */
module JavaArith {

  const Int32Min: int := -0x8000_0000
  const Int32Max: int := 0x7FFF_FFFF
  const Int32Modulus: int := 0x1_0000_0000

  predicate InInt32(i: int) {
    Int32Min <= i <= Int32Max
  }

  /** Rounds toward zero. */
  function Trunc(v: real): (t: int)
    ensures 0.0 <= v ==> t as real <= v < t as real + 1.0
    ensures v <= 0.0 ==> t as real - 1.0 < v <= t as real
  {
    if v >= 0.0 then v.Floor else -((-v).Floor)
  }

  /** The cast `(int) v`: round toward zero, then saturate at the int bounds. */
  function CastToInt(v: real): (i: int)
    ensures InInt32(i)
    ensures InInt32(Trunc(v)) ==> i == Trunc(v)
    ensures Trunc(v) > Int32Max ==> i == Int32Max
    ensures Trunc(v) < Int32Min ==> i == Int32Min
  {
    var t := Trunc(v);
    if t < Int32Min then Int32Min else if t > Int32Max then Int32Max else t
  }

  function Abs(i: int): nat {
    if i < 0 then -i else i
  }

  /** Integer division `a / b`: the quotient rounded toward zero. */
  function Div(a: int, b: int): (q: int)
    requires b != 0
    ensures Abs(b * q) <= Abs(a) < Abs(b * q) + Abs(b)
    ensures q != 0 ==> ((q > 0) <==> ((a > 0) == (b > 0)))
  {
    var m := Abs(a) / Abs(b);
    var q := if (a < 0) == (b < 0) then m else -m;
    QuotientMagnitude(a, b, q);
    q
  }

  /** The quotient of the magnitudes bounds |a| between |b|*m and |b|*(m+1),
      whichever signs a and b have. */
  lemma QuotientMagnitude(a: int, b: int, q: int)
    requires b != 0
    requires q == Abs(a) / Abs(b) || q == -(Abs(a) / Abs(b))
    ensures Abs(b * q) == Abs(b) * (Abs(a) / Abs(b))
  {
    var m := Abs(a) / Abs(b);
    assert 0 <= m;
    if b > 0 {
      if q == m { assert b * q == Abs(b) * m; } else { assert b * q == -(Abs(b) * m); }
    } else {
      if q == m { assert b * q == -(Abs(b) * m); } else { assert b * q == Abs(b) * m; }
    }
  }

  /** The int that a mathematical sum denotes after 32-bit wrap-around. */
  function Wrap32(x: int): (w: int)
    ensures InInt32(w)
    ensures (x - w) % Int32Modulus == 0
    ensures InInt32(x) ==> w == x
  {
    (x - Int32Min) % Int32Modulus + Int32Min
  }
}
