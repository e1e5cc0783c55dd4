/** Properties of cell resolution, lookup and `convert`. */
module UTM33Properties {
  import opened Optional
  import opened JavaArith
  import opened Interpolation
  import opened UTM33ToLatLng

  /** Truncation, not flooring: every coordinate strictly between -GRANULARITY
      and GRANULARITY resolves to the anchor 0, negative ones included. */
  lemma SmallCoordinatesAnchorAtZero(v: real)
    requires -(GRANULARITY as real) < v < GRANULARITY as real
    ensures CellAnchor(v) == 0
  {
  }

  /** A coordinate on the lattice is its own anchor. */
  lemma LatticeCoordinateIsAnchor(i: int)
    requires InInt32(i * GRANULARITY)
    ensures CellAnchor((i * GRANULARITY) as real) == i * GRANULARITY
  {
  }

  /** A key computed by `get` that is in a lattice-keyed table was computed
      without wrap-around: it is exactly the anchor plus e and n cells. */
  lemma FoundKeysDoNotWrap(grid: Grid, g: GridLookup, e: int, n: int)
    requires LatticeKeyed(grid)
    requires g.easting % GRANULARITY == 0 && g.northing % GRANULARITY == 0
    requires InInt32(g.easting) && InInt32(g.northing)
    requires 0 <= e <= 2 && 0 <= n <= 2
    requires g.Key(e, n) in grid
    ensures g.Key(e, n) == (g.easting + e * GRANULARITY, g.northing + n * GRANULARITY)
  {
  }

  /** `convert` reads the table only at the nine neighbourhood cells: two tables
      that agree there give the same result. */
  lemma OnlyNeighbourhoodIsRead(grid1: Grid, grid2: Grid, easting: real, northing: real)
    requires forall e, n :: 0 <= e <= 2 && 0 <= n <= 2 ==>
      var k := NewGridLookup(easting, northing).Key(e, n);
      (k in grid1 <==> k in grid2) && (k in grid1 ==> grid1[k] == grid2[k])
    ensures Convert(grid1, easting, northing) == Convert(grid2, easting, northing)
  {
  }

  /** If the nine cells around the anchor hold samples of biquadratics in the
      cell indices (e, n), `convert` returns those biquadratics evaluated at the
      offsets (easting - anchor) / GRANULARITY and (northing - anchor) /
      GRANULARITY: easting is the first axis, northing the second. */
  lemma {:induction false} ConvertReproducesBiquadratic(grid: Grid, easting: real, northing: real, lat: Biquadratic, lng: Biquadratic)
    requires forall e, n :: 0 <= e <= 2 && 0 <= n <= 2 ==>
      var k := NewGridLookup(easting, northing).Key(e, n);
      k in grid && grid[k] == LatLng(lat.Eval(e as real, n as real), lng.Eval(e as real, n as real))
    ensures
      var g := NewGridLookup(easting, northing);
      var x := (easting - g.easting as real) / GRANULARITY as real;
      var y := (northing - g.northing as real) / GRANULARITY as real;
      Convert(grid, easting, northing) == Some(LatLng(lat.Eval(x, y), lng.Eval(x, y)))
  {
    var g := NewGridLookup(easting, northing);
    var dx := easting - g.easting as real;
    var dy := northing - g.northing as real;
    var x := dx / GRANULARITY as real;
    var y := dy / GRANULARITY as real;
    ReproducesBiquadratic(lat, x, y);
    ReproducesBiquadratic(lng, x, y);
    var rows := [Row(grid, g, 0, dx), Row(grid, g, 1, dx), Row(grid, g, 2, dx)];
    assert forall n :: 0 <= n <= 2 ==> rows[n] == Some(LatLng(
      Interpolate(lat.Eval(0.0, n as real), lat.Eval(1.0, n as real), lat.Eval(2.0, n as real), x),
      Interpolate(lng.Eval(0.0, n as real), lng.Eval(1.0, n as real), lng.Eval(2.0, n as real), x)));
  }

  /** The nine latitudes around the anchor, the one at cell (e, n) at index 3 * n + e. */
  function Latitudes(grid: Grid, g: GridLookup): (f: seq<real>)
    requires InInt32(g.easting) && InInt32(g.northing)
    requires g.NeighbourhoodPresent(grid)
    ensures |f| == 9
    ensures forall i :: 0 <= i < 9 ==> f[i] == grid[g.Key(i % 3, i / 3)].latitude
  {
    seq(9, i requires 0 <= i < 9 => grid[g.Key(i % 3, i / 3)].latitude)
  }

  /** The nine longitudes around the anchor, indexed as in Latitudes. */
  function Longitudes(grid: Grid, g: GridLookup): (f: seq<real>)
    requires InInt32(g.easting) && InInt32(g.northing)
    requires g.NeighbourhoodPresent(grid)
    ensures |f| == 9
    ensures forall i :: 0 <= i < 9 ==> f[i] == grid[g.Key(i % 3, i / 3)].longitude
  {
    seq(9, i requires 0 <= i < 9 => grid[g.Key(i % 3, i / 3)].longitude)
  }

  /** Within one cell `convert` is a single fixed polynomial of the offsets:
      the biquadratic through the nine neighbourhood samples. Queries that
      share an anchor therefore get results that vary continuously. */
  lemma {:induction false} ConvertIsCellPolynomial(grid: Grid, easting: real, northing: real)
    requires NewGridLookup(easting, northing).NeighbourhoodPresent(grid)
    ensures
      var g := NewGridLookup(easting, northing);
      var x := (easting - g.easting as real) / GRANULARITY as real;
      var y := (northing - g.northing as real) / GRANULARITY as real;
      Convert(grid, easting, northing)
        == Some(LatLng(FitGrid(Latitudes(grid, g)).Eval(x, y), FitGrid(Longitudes(grid, g)).Eval(x, y)))
  {
    var g := NewGridLookup(easting, northing);
    var lat, lng := FitGrid(Latitudes(grid, g)), FitGrid(Longitudes(grid, g));
    forall e, n | 0 <= e <= 2 && 0 <= n <= 2
      ensures grid[g.Key(e, n)] == LatLng(lat.Eval(e as real, n as real), lng.Eval(e as real, n as real))
    {
      var i := 3 * n + e;
      assert i % 3 == e && i / 3 == n;
    }
    ConvertReproducesBiquadratic(grid, easting, northing, lat, lng);
  }

  /** Exactness at grid points: a query on a lattice point whose neighbourhood
      is complete returns that point's table entry unchanged. */
  lemma {:induction false} ExactAtLatticePoints(grid: Grid, i: int, j: int)
    requires InInt32(i * GRANULARITY) && InInt32(j * GRANULARITY)
    requires GridLookup(i * GRANULARITY, j * GRANULARITY).NeighbourhoodPresent(grid)
    ensures (i * GRANULARITY, j * GRANULARITY) in grid
    ensures Convert(grid, (i * GRANULARITY) as real, (j * GRANULARITY) as real)
            == Some(grid[(i * GRANULARITY, j * GRANULARITY)])
  {
    var easting, northing := (i * GRANULARITY) as real, (j * GRANULARITY) as real;
    LatticeCoordinateIsAnchor(i);
    LatticeCoordinateIsAnchor(j);
    var g := NewGridLookup(easting, northing);
    assert g == GridLookup(i * GRANULARITY, j * GRANULARITY);
    assert g.Key(0, 0) == (i * GRANULARITY, j * GRANULARITY);
  }

  /** A missing neighbourhood cell makes `convert` fail rather than fabricate
      a value. */
  lemma MissingCellFails(grid: Grid, easting: real, northing: real, e: int, n: int)
    requires 0 <= e <= 2 && 0 <= n <= 2
    requires NewGridLookup(easting, northing).Key(e, n) !in grid
    ensures Convert(grid, easting, northing) == None
  {
  }
}
