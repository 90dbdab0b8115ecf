/** The random coordinate generator of `server/src/utils/location.ts`.
    `Math.random()` is not modelled as a source of randomness: each of the two
    draws it makes is a parameter, a real in [0, 1). */
module Location {
  import opened Rounding

  datatype Coordinate = Coordinate(lat: real, lon: real)

  /** A value `Math.random()` can return. */
  predicate IsDraw(r: real) {
    0.0 <= r < 1.0
  }

  /** The inhabited latitude band [-60, 70] and the full longitude range. */
  predicate InSamplingRange(c: Coordinate) {
    -60.0 <= c.lat <= 70.0 && -180.0 <= c.lon <= 180.0
  }

  /** Latitude from the first draw, longitude from the second; each affine
      image is rounded to four decimals. */
  function GetRandomLocation(latDraw: real, lonDraw: real): (c: Coordinate)
    ensures OnGrid(c.lat) && OnGrid(c.lon)
    ensures latDraw * 130.0 - 60.0 - 0.00005 < c.lat <= latDraw * 130.0 - 60.0 + 0.00005
    ensures lonDraw * 360.0 - 180.0 - 0.00005 < c.lon <= lonDraw * 360.0 - 180.0 + 0.00005
  {
    Coordinate(Round4(latDraw * 130.0 - 60.0), Round4(lonDraw * 360.0 - 180.0))
  }

  /** Every coordinate produced from genuine draws lies in the sampling range,
      including the rounded-up upper ends 70 and 180. */
  lemma RandomLocationInRange(latDraw: real, lonDraw: real)
    requires IsDraw(latDraw) && IsDraw(lonDraw)
    ensures InSamplingRange(GetRandomLocation(latDraw, lonDraw))
  {
    Round4Within(latDraw * 130.0 - 60.0, -60.0, 70.0);
    Round4Within(lonDraw * 360.0 - 180.0, -180.0, 180.0);
  }

  /** The latitude depends on the first draw only, the longitude on the second only. */
  lemma DrawsAreIndependent(a: real, b: real, a': real, b': real)
    ensures GetRandomLocation(a, b).lat == GetRandomLocation(a, b').lat
    ensures GetRandomLocation(a, b).lon == GetRandomLocation(a', b).lon
  {
  }

  /** The largest draw used below: close enough to 1 that both affine images
      round up to their upper ends. */
  const NearlyOne := 0.9999999

  /** A draw whose image under `x := draw * span + lo` rounds to the grid point
      `x` of [lo, lo + span]: the exact preimage below the upper end, and
      `NearlyOne` at the upper end itself. */
  function DrawFor(lo: real, span: real, x: real): real
    requires span > 0.0
  {
    if x < lo + span then (x - lo) / span else NearlyOne
  }

  /** Every grid latitude in [-60, 70] and every grid longitude in [-180, 180],
      the upper ends included, is produced by some pair of draws; with
      `RandomLocationInRange` the outputs are exactly the grid points of the
      sampling range. */
  lemma EveryGridPointReachable(lat: real, lon: real)
    requires OnGrid(lat) && -60.0 <= lat <= 70.0
    requires OnGrid(lon) && -180.0 <= lon <= 180.0
    ensures IsDraw(DrawFor(-60.0, 130.0, lat)) && IsDraw(DrawFor(-180.0, 360.0, lon))
    ensures GetRandomLocation(DrawFor(-60.0, 130.0, lat), DrawFor(-180.0, 360.0, lon)) == Coordinate(lat, lon)
  {
    var a := DrawFor(-60.0, 130.0, lat);
    var b := DrawFor(-180.0, 360.0, lon);
    if lat < 70.0 {
      assert a * 130.0 - 60.0 == lat;
      Round4OfGridPoint(lat);
    } else {
      assert (a * 130.0 - 60.0) * 10000.0 == 699999.87;
      JsRoundUnique(699999.87, 700000);
    }
    if lon < 180.0 {
      assert b * 360.0 - 180.0 == lon;
      Round4OfGridPoint(lon);
    } else {
      assert (b * 360.0 - 180.0) * 10000.0 == 1799999.64;
      JsRoundUnique(1799999.64, 1800000);
    }
  }
}
