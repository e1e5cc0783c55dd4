# UTM33ToLatLng in Dafny

This project models the conversion of Kartverket "UTM33" coordinates
(easting, northing, in metres) to (latitude, longitude, in degrees) done by
`UTM33ToLatLng.convert`. Kartverket's own formula is closed. The converter
therefore interpolates over a table of known conversions spaced
`GRANULARITY` = 50000 m apart. `convert` works in three steps:

1. **Cell resolution.** Each coordinate `v` gets the anchor
   `(int) v / GRANULARITY * GRANULARITY`. The cast truncates toward zero
   and saturates at the int bounds (JLS 5.1.3). The int division also
   truncates toward zero (JLS 15.17.2). Both are written out in `JavaArith`,
   because Dafny's `/` on `int` is Euclidean.
2. **Lookup.** The anchor plus 0, 1 or 2 cells in each axis is looked up in
   the table: nine cells east and north of the anchor. The key sums are
   32-bit int arithmetic, and the model wraps them explicitly. A missing
   key is `null` in the source, and the next dereference throws. Here it is
   `None`.
3. **Interpolation.** A parabola is fitted through the values at cell
   positions 0, 1 and 2. It is evaluated at the offset from the anchor,
   scaled to cells. This is done along easting in each of the three rows,
   then along northing across the three row results.

The table is a value `map<(int, int), LatLng>` passed to `Convert`. The
pair key replaces the source's `"easting,northing"` string. `GridTable`
transcribes one 3×4 block of the source's entries, for concrete
conversions.

Modules: `Optional` (the `None`/`Some` result), `JavaArith` (Java's cast,
int division and wrap-around), `Interpolation` (the scalar `interpolate`
and its reference parabola fit), `UTM33ToLatLng` (grid lookup and
`convert`), `UTM33Properties` (lemmas about `convert`) and `GridTable`
(sample entries and a worked conversion).

Points worth knowing about the code:
- The neighbourhood is the anchor plus 0, 1, 2 cells in each axis, so the
  anchor is the south-west corner of the 3×3 block.
- The samples of the scalar interpolation sit at positions 0, 1, 2, so
  linear samples 1, 2, 3 give `1 + x` (`LinearSamples`).
- The doc comment of `GridLookup` says "floored". The code truncates
  toward zero, so every coordinate in (-50000, 50000) has the anchor 0
  (`SmallCoordinatesAnchorAtZero`). The model follows the truncation.

## Model

| member | source | states |
|---|---|---|
| `JavaArith.Trunc` | src/org/pvv/larschri/geo/UTM33ToLatLng.java:70-71 | the cast rounds toward zero: the result is within 1 of `v`, and on the side of `v` nearer to zero |
| `JavaArith.CastToInt` | src/org/pvv/larschri/geo/UTM33ToLatLng.java:70-71 | `(int) v` is always an int; it is the truncation when that fits, and `Integer.MAX_VALUE` or `MIN_VALUE` past either end |
| `JavaArith.Div` | src/org/pvv/larschri/geo/UTM33ToLatLng.java:70-71 | int division: `|b·q| <= |a| < |b·q| + |b|`, and a non-zero quotient is positive exactly when the operands have the same sign |
| `JavaArith.Wrap32` | src/org/pvv/larschri/geo/UTM33ToLatLng.java:75 | int addition wraps: the result is an int congruent to the true sum modulo 2^32, and equals the sum when the sum fits |
| `Interpolation.Interpolate` | src/org/pvv/larschri/geo/UTM33ToLatLng.java:46-52 | the parabola passes through its samples: `f0` at x = 0, `f1` at x = 1, `f2` at x = 2 |
| `Interpolation.Fit` | src/org/pvv/larschri/geo/UTM33ToLatLng.java:47 | an independent reference: the coefficients of a parabola that takes the values f0, f1, f2 at 0, 1, 2 |
| `Interpolation.FitUnique` | src/org/pvv/larschri/geo/UTM33ToLatLng.java:47 | a parabola is recovered from its values at 0, 1, 2, so the fitted parabola is the only one through them |
| `Interpolation.InterpolateIsFit` | src/org/pvv/larschri/geo/UTM33ToLatLng.java:49-52 | `interpolate` evaluates the reference parabola at every real x, extrapolation included |
| `Interpolation.ReproducesQuadratic` | src/org/pvv/larschri/geo/UTM33ToLatLng.java:47-52 | samples of any parabola αx²+βx+γ at 0, 1, 2 are interpolated back to that parabola at every x |
| `Interpolation.LinearSamples` | src/org/pvv/larschri/geo/UTM33ToLatLng.java:49-52 | the linear samples 1, 2, 3 give exactly `1 + x` |
| `Interpolation.ReproducesBiquadratic` | src/org/pvv/larschri/geo/UTM33ToLatLng.java:32-39 | row-wise then column-wise interpolation reproduces every polynomial of degree at most 2 in each variable, at every (x, y) |
| `Interpolation.FitGrid` | src/org/pvv/larschri/geo/UTM33ToLatLng.java:32-39 | the biquadratic it builds from nine samples takes the sample value at each of the nine cells (e, n) |
| `UTM33ToLatLng.InterpolateLatLng` | src/org/pvv/larschri/geo/UTM33ToLatLng.java:54-61 | the LatLng `interpolate` returns `f0`, `f1` or `f2` when the offset is 0, one or two GRANULARITY |
| `UTM33ToLatLng.InterpolateLatLngComponentwise` | src/org/pvv/larschri/geo/UTM33ToLatLng.java:57-61 | latitude and longitude are each the fitted parabola through their own samples, at the same offset divided by GRANULARITY |
| `UTM33ToLatLng.CellAnchor` | src/org/pvv/larschri/geo/UTM33ToLatLng.java:63-71 | the anchor is an int multiple of 50000; when the truncation fits in an int, `0 <= v − anchor < 50000` for `v >= 0` and `−50000 < v − anchor <= 0` for `v <= 0` |
| `UTM33ToLatLng.NewGridLookup` | src/org/pvv/larschri/geo/UTM33ToLatLng.java:69-72 | each anchor is `CellAnchor` of its own coordinate: an int multiple of GRANULARITY within one cell of it |
| `UTM33ToLatLng.GridLookup.Key` | src/org/pvv/larschri/geo/UTM33ToLatLng.java:74-76 | the key for cell (e, n) is `(anchorE + e·50000, anchorN + n·50000)` when that fits in an int, and otherwise that sum less 2^32 |
| `UTM33ToLatLng.GridLookup.Get` | src/org/pvv/larschri/geo/UTM33ToLatLng.java:74-76 | `get(e, n)` finds a value exactly when its key is in the table, and the value is the table's entry for that key |
| `UTM33ToLatLng.Row` | src/org/pvv/larschri/geo/UTM33ToLatLng.java:35-37 | row n succeeds exactly when cells (0, n), (1, n) and (2, n) are present, and interpolates them along easting |
| `UTM33ToLatLng.Convert` | src/org/pvv/larschri/geo/UTM33ToLatLng.java:32-39 | `convert` gives a result exactly when all nine cells (e, n), e, n ∈ {0, 1, 2}, are in the table |
| `UTM33Properties.SmallCoordinatesAnchorAtZero` | src/org/pvv/larschri/geo/UTM33ToLatLng.java:63-71 | every coordinate in (−50000, 50000), negative ones included, has the anchor 0: truncation, not flooring |
| `UTM33Properties.LatticeCoordinateIsAnchor` | src/org/pvv/larschri/geo/UTM33ToLatLng.java:70-71 | a coordinate that is an int multiple of 50000 is its own anchor, for either sign |
| `UTM33Properties.FoundKeysDoNotWrap` | src/org/pvv/larschri/geo/UTM33ToLatLng.java:74-76 | in a table keyed by multiples of 50000, a key that is found was computed without int overflow |
| `UTM33Properties.OnlyNeighbourhoodIsRead` | src/org/pvv/larschri/geo/UTM33ToLatLng.java:32-39 | two tables that agree on the nine neighbourhood cells give the same result |
| `UTM33Properties.ConvertReproducesBiquadratic` | src/org/pvv/larschri/geo/UTM33ToLatLng.java:32-39 | if the nine cells hold samples of biquadratics in the cell indices, `convert` returns them at the offsets `(easting − anchorE)/50000` and `(northing − anchorN)/50000`; easting is the first axis and northing the second |
| `UTM33Properties.ConvertIsCellPolynomial` | src/org/pvv/larschri/geo/UTM33ToLatLng.java:32-39 | within a cell, `convert` is the one biquadratic through the nine samples, evaluated at the offsets, so it varies continuously with the query |
| `UTM33Properties.ExactAtLatticePoints` | src/org/pvv/larschri/geo/UTM33ToLatLng.java:32-39 | at a lattice point with a complete neighbourhood, `convert` returns that point's table entry exactly |
| `UTM33Properties.MissingCellFails` | src/org/pvv/larschri/geo/UTM33ToLatLng.java:57-61 | if any one of the nine cells is missing, `convert` gives no result instead of a made-up one |
| `GridTable.SampleGridLatticeKeyed` | src/org/pvv/larschri/geo/UTM33ToLatLng.java:132-168 | every transcribed table key is a pair of multiples of GRANULARITY |
| `GridTable.ScenarioNeighbourhood` | src/org/pvv/larschri/geo/UTM33ToLatLng.java:32-39 | the query (146001.89, 6851888.74) has the anchor (100000, 6850000) and uses the nine cells east and north of it |
| `GridTable.ScenarioConversion` | src/org/pvv/larschri/geo/UTM33ToLatLng.java:32-39 | that query converts to latitude 61.636432 and longitude 8.312486, each within 0.00001 |
| `GridTable.EdgeConversionFails` | src/org/pvv/larschri/geo/UTM33ToLatLng.java:32-39 | a query whose neighbourhood runs past the eastern edge of the 12-entry excerpt fails (the source's table continues east) |

## Left out

- IEEE-754 double rounding. Coordinates and interpolated values are reals, so the exactness and reproduction lemmas hold over the reals. The double computation only approximates them.
- NaN and the infinities in the `(int)` cast: reals have none. Saturation of finite out-of-range values is modelled.
- `JavaArith.Div`: the one overflowing case, `Integer.MIN_VALUE / -1`, is not modelled. The only divisor used is GRANULARITY.
- The `"%s,%s"` string key and the `HashMap`. The key is an int pair, which carries the same information.
- The full table of the static initializer (lines 84-431). Only the 12 entries at lines 132-135, 148-151 and 165-168 are transcribed. `LatticeKeyed` is therefore proved for those entries only. Every other lemma takes the table as a parameter.
- The `NullPointerException` itself. A missing cell gives `None`, and which of the nine lookups fails first is not distinguished.
- Accuracy against Kartverket's closed Skt2lan1.dll: the code does not state it.
- Continuity is not given as a numeric bound. `ConvertIsCellPolynomial` shows that the result within a cell is one polynomial of the offsets.
