/** A block of the table of known conversions (eastings 100000 to 200000,
    northings 6800000 to 6950000), enough for concrete conversions in the
    middle of southern Norway. */
module GridTable {
  import opened Optional
  import opened JavaArith
  import opened Interpolation
  import opened UTM33ToLatLng

  const SampleGrid: Grid := map[
    (100000, 6800000) := LatLng(61.129566370, 7.562901290),
    (100000, 6850000) := LatLng(61.574606553, 7.455952783),
    (100000, 6900000) := LatLng(62.019505737, 7.345431735),
    (100000, 6950000) := LatLng(62.464258799, 7.231167148),
    (150000, 6800000) := LatLng(61.177321991, 8.484967843),
    (150000, 6850000) := LatLng(61.623249120, 8.391027636),
    (150000, 6900000) := LatLng(62.069060871, 8.293938121),
    (150000, 6950000) := LatLng(62.514753355, 8.193547766),
    (200000, 6800000) := LatLng(61.218798005, 9.410039921),
    (200000, 6850000) := LatLng(61.665497697, 9.329250271),
    (200000, 6900000) := LatLng(62.112104458, 9.245743699),
    (200000, 6950000) := LatLng(62.558615487, 9.159388878)
  ]

  /** The table is keyed by pairs of multiples of GRANULARITY. */
  lemma SampleGridLatticeKeyed()
    ensures LatticeKeyed(SampleGrid)
  {
  }

  /** The query (146001.89, 6851888.74) resolves to the anchor (100000, 6850000)
      and interpolates the nine cells east and north of it. */
  lemma ScenarioNeighbourhood()
    ensures Convert(SampleGrid, 146001.89, 6851888.74) == Some(InterpolateLatLng(
      InterpolateLatLng(SampleGrid[(100000, 6850000)], SampleGrid[(150000, 6850000)], SampleGrid[(200000, 6850000)], 46001.89),
      InterpolateLatLng(SampleGrid[(100000, 6900000)], SampleGrid[(150000, 6900000)], SampleGrid[(200000, 6900000)], 46001.89),
      InterpolateLatLng(SampleGrid[(100000, 6950000)], SampleGrid[(150000, 6950000)], SampleGrid[(200000, 6950000)], 46001.89),
      1888.74))
  {
    assert Trunc(146001.89) == 146001;
    assert Trunc(6851888.74) == 6851888;
    var g := GridLookup(100000, 6850000);
    assert NewGridLookup(146001.89, 6851888.74) == g;
    assert forall e, n :: 0 <= e <= 2 && 0 <= n <= 2 ==> g.Key(e, n) == (100000 + e * GRANULARITY, 6850000 + n * GRANULARITY);
  }

  /** Converting (146001.89, 6851888.74) gives latitude 61.636432 and
      longitude 8.312486 to within 0.00001 degrees. */
  lemma ScenarioConversion()
    ensures Convert(SampleGrid, 146001.89, 6851888.74).Some?
    ensures var r := Convert(SampleGrid, 146001.89, 6851888.74).value;
            -0.00001 < r.latitude - 61.636432 < 0.00001 &&
            -0.00001 < r.longitude - 8.312486 < 0.00001
  {
    ScenarioNeighbourhood();
    var u := 46001.89 / 50000.0;
    var lat0 := Interpolate(61.574606553, 61.623249120, 61.665497697, u);
    var lat1 := Interpolate(62.019505737, 62.069060871, 62.112104458, u);
    var lat2 := Interpolate(62.464258799, 62.514753355, 62.558615487, u);
    var lng0 := Interpolate(7.455952783, 8.391027636, 9.329250271, u);
    var lng1 := Interpolate(7.345431735, 8.293938121, 9.245743699, u);
    var lng2 := Interpolate(7.231167148, 8.193547766, 9.159388878, u);
    var lat := Interpolate(lat0, lat1, lat2, 1888.74 / 50000.0);
    var lng := Interpolate(lng0, lng1, lng2, 1888.74 / 50000.0);
    assert -0.00001 < lat - 61.636432 < 0.00001;
    assert -0.00001 < lng - 8.312486 < 0.00001;
  }

  /** At the eastern edge of this 12-entry excerpt (the source's table
      continues east) the neighbourhood is incomplete, and the conversion fails. */
  lemma EdgeConversionFails()
    ensures Convert(SampleGrid, 160000.0, 6851888.74) == None
  {
  }
}
