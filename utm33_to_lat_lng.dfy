/** Conversion of Kartverket "UTM33" coordinates (easting, northing) to
    (latitude, longitude) by piecewise quadratic interpolation over a table of
    known conversions spaced GRANULARITY metres apart. */
module UTM33ToLatLng {
  import opened Optional
  import opened JavaArith
  import opened Interpolation

  /** Spacing in metres of the grid of known conversions. */
  const GRANULARITY: int := 50000

  /** A converted value, in degrees. */
  datatype LatLng = LatLng(latitude: real, longitude: real)

  /** A grid key (easting, northing); the source formats it as "easting,northing". */
  type GridKey = (int, int)

  /** The table of known conversions. */
  type Grid = map<GridKey, LatLng>

  /** Every key of the table lies on the GRANULARITY lattice. */
  predicate LatticeKeyed(grid: Grid) {
    forall k :: k in grid ==> k.0 % GRANULARITY == 0 && k.1 % GRANULARITY == 0
  }

  /** `interpolate` on LatLng values: latitude and longitude are interpolated
      independently, at the offset x measured in metres and scaled to cells. */
  function InterpolateLatLng(f0: LatLng, f1: LatLng, f2: LatLng, x: real): (r: LatLng)
    ensures x == 0.0 ==> r == f0
    ensures x == GRANULARITY as real ==> r == f1
    ensures x == 2.0 * GRANULARITY as real ==> r == f2
  {
    var u := x / GRANULARITY as real;
    LatLng(Interpolate(f0.latitude, f1.latitude, f2.latitude, u),
           Interpolate(f0.longitude, f1.longitude, f2.longitude, u))
  }

  /** Latitude and longitude are each the fitted parabola through their own
      three samples, evaluated at the same scaled offset. */
  lemma InterpolateLatLngComponentwise(f0: LatLng, f1: LatLng, f2: LatLng, x: real)
    ensures InterpolateLatLng(f0, f1, f2, x).latitude
            == Fit(f0.latitude, f1.latitude, f2.latitude).Eval(x / GRANULARITY as real)
    ensures InterpolateLatLng(f0, f1, f2, x).longitude
            == Fit(f0.longitude, f1.longitude, f2.longitude).Eval(x / GRANULARITY as real)
  {
    InterpolateIsFit(f0.latitude, f1.latitude, f2.latitude, x / GRANULARITY as real);
    InterpolateIsFit(f0.longitude, f1.longitude, f2.longitude, x / GRANULARITY as real);
  }

  /** The cell anchor of one coordinate, `(int) v / GRANULARITY * GRANULARITY`:
      a cast that truncates toward zero, an int division that truncates toward
      zero, and a multiplication back. */
  function CellAnchor(v: real): (anchor: int)
    ensures anchor % GRANULARITY == 0
    ensures InInt32(anchor)
    ensures InInt32(Trunc(v)) && 0.0 <= v ==> 0.0 <= v - anchor as real < GRANULARITY as real
    ensures InInt32(Trunc(v)) && v <= 0.0 ==> -(GRANULARITY as real) < v - anchor as real <= 0.0
  {
    var q := Div(CastToInt(v), GRANULARITY);
    q * GRANULARITY
  }

  /** The anchor cell of a query, and access to the cells next to it. */
  datatype GridLookup = GridLookup(easting: int, northing: int) {

    /** The key of the cell e cells east and n cells north of the anchor,
        computed in 32-bit int arithmetic. */
    function Key(e: int, n: int): (k: GridKey)
      requires 0 <= e <= 2 && 0 <= n <= 2
      requires InInt32(easting) && InInt32(northing)
      ensures InInt32(k.0) && InInt32(k.1)
      ensures k.0 == easting + e * GRANULARITY || k.0 == easting + e * GRANULARITY - Int32Modulus
      ensures k.1 == northing + n * GRANULARITY || k.1 == northing + n * GRANULARITY - Int32Modulus
      ensures InInt32(easting + e * GRANULARITY) ==> k.0 == easting + e * GRANULARITY
      ensures InInt32(northing + n * GRANULARITY) ==> k.1 == northing + n * GRANULARITY
    {
      (Wrap32(easting + e * GRANULARITY), Wrap32(northing + n * GRANULARITY))
    }

    /** `get(e, n)`: the known conversion of that cell, or None where the
        source gets null. */
    function Get(grid: Grid, e: int, n: int): (r: Option<LatLng>)
      requires 0 <= e <= 2 && 0 <= n <= 2
      requires InInt32(easting) && InInt32(northing)
      ensures r.Some? <==> Key(e, n) in grid
      ensures r.Some? ==> r.value == grid[Key(e, n)]
    {
      if Key(e, n) in grid then Some(grid[Key(e, n)]) else None
    }

    /** All nine cells (e, n) with e, n in {0, 1, 2} are in the table. */
    predicate NeighbourhoodPresent(grid: Grid)
      requires InInt32(easting) && InInt32(northing)
    {
      forall e, n :: 0 <= e <= 2 && 0 <= n <= 2 ==> Key(e, n) in grid
    }

    /** The cells of row n are in the table. */
    predicate RowPresent(grid: Grid, n: int)
      requires 0 <= n <= 2
      requires InInt32(easting) && InInt32(northing)
    {
      Key(0, n) in grid && Key(1, n) in grid && Key(2, n) in grid
    }
  }

  /** The GridLookup constructor: the anchors of both coordinates. */
  function NewGridLookup(easting: real, northing: real): (g: GridLookup)
    ensures g.easting == CellAnchor(easting) && g.northing == CellAnchor(northing)
    ensures g.easting % GRANULARITY == 0 && g.northing % GRANULARITY == 0
    ensures InInt32(g.easting) && InInt32(g.northing)
  {
    GridLookup(CellAnchor(easting), CellAnchor(northing))
  }

  /** Row n of `convert`: cells (0, n), (1, n), (2, n) interpolated along
      easting at the offset dx. */
  function Row(grid: Grid, g: GridLookup, n: int, dx: real): (r: Option<LatLng>)
    requires 0 <= n <= 2
    requires InInt32(g.easting) && InInt32(g.northing)
    ensures r.Some? <==> g.RowPresent(grid, n)
    ensures r.Some? ==>
      r.value == InterpolateLatLng(grid[g.Key(0, n)], grid[g.Key(1, n)], grid[g.Key(2, n)], dx)
  {
    var f0 :- g.Get(grid, 0, n);
    var f1 :- g.Get(grid, 1, n);
    var f2 :- g.Get(grid, 2, n);
    Some(InterpolateLatLng(f0, f1, f2, dx))
  }

  /** `convert(easting, northing)`: interpolate each of the three rows along
      easting, then the three row results along northing. None stands for
      the NullPointerException the source throws when a cell is missing. */
  function Convert(grid: Grid, easting: real, northing: real): (r: Option<LatLng>)
    ensures r.Some? <==> NewGridLookup(easting, northing).NeighbourhoodPresent(grid)
  {
    var g := NewGridLookup(easting, northing);
    var dx := easting - g.easting as real;
    var dy := northing - g.northing as real;
    var r0 :- Row(grid, g, 0, dx);
    var r1 :- Row(grid, g, 1, dx);
    var r2 :- Row(grid, g, 2, dx);
    Some(InterpolateLatLng(r0, r1, r2, dy))
  }
}
