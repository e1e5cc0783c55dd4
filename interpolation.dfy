/** One-dimensional quadratic interpolation: the parabola through three samples
    taken at the positions 0, 1 and 2, evaluated at an arbitrary real position
    (positions outside [0, 2] extrapolate). */
module Interpolation {

  /** The polynomial a*x^2 + b*x + c. */
  datatype Quadratic = Quadratic(a: real, b: real, c: real) {
    function Eval(x: real): real {
      a * x * x + b * x + c
    }
  }

  /** The scalar `interpolate(f0, f1, f2, x)`: f(x) for the parabola f with
      f(0) = f0, f(1) = f1 and f(2) = f2. */
  function Interpolate(f0: real, f1: real, f2: real, x: real): (r: real)
    ensures x == 0.0 ==> r == f0
    ensures x == 1.0 ==> r == f1
    ensures x == 2.0 ==> r == f2
  {
    var a := (f2 + f0) / 2.0 - f1;
    a * x * x + (f1 - f0 - a) * x + f0
  }

  /** The parabola through (0, f0), (1, f1), (2, f2), found by solving the
      three equations for its coefficients (Newton's forward differences). */
  function Fit(f0: real, f1: real, f2: real): (q: Quadratic)
    ensures q.Eval(0.0) == f0 && q.Eval(1.0) == f1 && q.Eval(2.0) == f2
  {
    var d1 := f1 - f0;
    var d2 := f2 - 2.0 * f1 + f0;
    Quadratic(d2 / 2.0, d1 - d2 / 2.0, f0)
  }

  /** A parabola is determined by its values at 0, 1 and 2. */
  lemma FitUnique(q: Quadratic)
    ensures Fit(q.Eval(0.0), q.Eval(1.0), q.Eval(2.0)) == q
  {
  }

  /** `interpolate` evaluates exactly the fitted parabola, at every x. */
  lemma InterpolateIsFit(f0: real, f1: real, f2: real, x: real)
    ensures Interpolate(f0, f1, f2, x) == Fit(f0, f1, f2).Eval(x)
  {
  }

  /** Samples of a parabola are interpolated back to that parabola everywhere. */
  lemma ReproducesQuadratic(q: Quadratic, x: real)
    ensures Interpolate(q.Eval(0.0), q.Eval(1.0), q.Eval(2.0), x) == q.Eval(x)
  {
    InterpolateIsFit(q.Eval(0.0), q.Eval(1.0), q.Eval(2.0), x);
    FitUnique(q);
  }

  /** Linear samples 1, 2, 3 give the line 1 + x. */
  lemma LinearSamples(x: real)
    ensures Interpolate(1.0, 2.0, 3.0, x) == 1.0 + x
  {
    ReproducesQuadratic(Quadratic(0.0, 1.0, 1.0), x);
  }

  /** The polynomial sum over i, j <= 2 of c_ij * u^i * v^j, written as a
      quadratic in u whose three coefficients are quadratics in v. */
  datatype Biquadratic = Biquadratic(a: Quadratic, b: Quadratic, c: Quadratic) {
    function Eval(u: real, v: real): real {
      a.Eval(v) * u * u + b.Eval(v) * u + c.Eval(v)
    }

    /** The quadratic in u obtained by fixing v. */
    function AtV(v: real): (q: Quadratic)
      ensures forall u :: q.Eval(u) == Eval(u, v)
    {
      Quadratic(a.Eval(v), b.Eval(v), c.Eval(v))
    }

    /** The quadratic in v obtained by fixing u. */
    function AtU(u: real): (q: Quadratic)
      ensures forall v :: q.Eval(v) == Eval(u, v)
    {
      Quadratic(a.a * u * u + b.a * u + c.a, a.b * u * u + b.b * u + c.b, a.c * u * u + b.c * u + c.c)
    }
  }

  /** Quadratic interpolation along u in each of the rows v = 0, 1, 2, followed
      by quadratic interpolation along v across the three row results,
      reproduces every biquadratic exactly, at every (x, y). */
  lemma {:induction false} ReproducesBiquadratic(p: Biquadratic, x: real, y: real)
    ensures Interpolate(
              Interpolate(p.Eval(0.0, 0.0), p.Eval(1.0, 0.0), p.Eval(2.0, 0.0), x),
              Interpolate(p.Eval(0.0, 1.0), p.Eval(1.0, 1.0), p.Eval(2.0, 1.0), x),
              Interpolate(p.Eval(0.0, 2.0), p.Eval(1.0, 2.0), p.Eval(2.0, 2.0), x),
              y)
            == p.Eval(x, y)
  {
    ReproducesQuadratic(p.AtV(0.0), x);
    ReproducesQuadratic(p.AtV(1.0), x);
    ReproducesQuadratic(p.AtV(2.0), x);
    ReproducesQuadratic(p.AtU(x), y);
  }

  /** The biquadratic through nine samples, f[3 * n + e] being the sample at
      (e, n): each row is fitted along u, then each coefficient along v. */
  function FitGrid(f: seq<real>): (p: Biquadratic)
    requires |f| == 9
    ensures forall i :: 0 <= i < 9 ==> p.Eval((i % 3) as real, (i / 3) as real) == f[i]
  {
    var r0, r1, r2 := Fit(f[0], f[1], f[2]), Fit(f[3], f[4], f[5]), Fit(f[6], f[7], f[8]);
    var p := Biquadratic(Fit(r0.a, r1.a, r2.a), Fit(r0.b, r1.b, r2.b), Fit(r0.c, r1.c, r2.c));
    assert p.AtV(0.0) == r0 && p.AtV(1.0) == r1 && p.AtV(2.0) == r2;
    p
  }
}
