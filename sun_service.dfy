/**
 * The server's sun-exposure classifier (`src/services/sunService.js`).
 * A bar is sunlit when the sun is not below the horizon and the sun's
 * compass bearing is within 60 degrees of the bearing its facade faces.
 * SunCalc itself is a parameter: it supplies altitude and azimuth in degrees.
 */
module SunService {
  import opened Common
  import opened Records

  /** The `DIRECTIONS` table: the compass bearing each orientation faces. */
  const Directions: map<string, real> :=
    map["nord" := 0.0, "øst" := 90.0, "syd" := 180.0, "vest" := 270.0]

  /** Half-width of the arc, around the facade's bearing, in which the sun reaches it. */
  const Tolerance: real := 60.0

  /** `DIRECTIONS[retning]`; `None` is JavaScript's `undefined` for an unknown key. */
  function Bearing(retning: string): (r: Option<real>)
    ensures r.Some? <==> retning in Orientations
    ensures r.Some? ==> 0.0 <= r.value < 360.0 && r.value == Directions[retning]
  {
    if retning in Directions then Some(Directions[retning]) else None
  }

  /** The four table entries, one quarter turn apart. */
  lemma DirectionTable()
    ensures Directions.Keys == Orientations
    ensures Bearing("nord") == Some(0.0) && Bearing("øst") == Some(90.0)
    ensures Bearing("syd") == Some(180.0) && Bearing("vest") == Some(270.0)
  {
  }

  /**
   * `(azimuth + 180) % 360`: SunCalc measures from south, so adding 180
   * turns it into a compass bearing; `%` is JavaScript's truncating remainder.
   */
  function NormalizeAzimuth(azimuth: real): (r: real)
    ensures -180.0 <= azimuth ==> 0.0 <= r < 360.0
    ensures -180.0 <= azimuth <= 180.0 ==> r == if azimuth == 180.0 then 0.0 else azimuth + 180.0
  {
    var x := azimuth + 180.0;
    assert 0.0 <= x < 360.0 ==> Trunc(x / 360.0) == 0;
    assert x == 360.0 ==> Trunc(x / 360.0) == 1;
    JsRem360(x)
  }

  /** `Math.min(d, 360 - d)` with `d = Math.abs(a - b)`. */
  function ShortestArc(a: real, b: real): (r: real)
    ensures 0.0 <= a < 360.0 && 0.0 <= b < 360.0 ==> 0.0 <= r <= 180.0
    ensures r <= Abs(a - b)
  {
    var d := Abs(a - b);
    Min(d, 360.0 - d)
  }

  /**
   * `hasBarSunlight` on a given sun position. An unknown orientation makes
   * `DIRECTIONS[retning]` undefined, the difference NaN, and `NaN <= 60` false.
   */
  function HasSunlight(pos: SunPosition, retning: string): (r: bool)
    ensures pos.altitude < 0.0 ==> !r
    ensures retning !in Orientations ==> !r
    ensures r ==> ShortestArc(NormalizeAzimuth(pos.azimuth), Directions[retning]) <= Tolerance
  {
    if pos.altitude < 0.0 then false
    else match Bearing(retning)
      case None => false
      case Some(b) => ShortestArc(NormalizeAzimuth(pos.azimuth), b) <= Tolerance
  }

  /**
   * Reference definition of "the facade faces the sun": some representative
   * of the sun's compass bearing, modulo whole turns, lies within the
   * tolerance of the facade's bearing.
   */
  ghost predicate FacesSun(compass: real, facade: real)
  {
    exists k: int :: Abs(compass - facade + Turns(k)) <= Tolerance
  }

  /**
   * For every SunCalc azimuth (at least -180 degrees), the classifier is
   * exactly: the sun is on or above the horizon, the orientation is one of
   * the four keys, and the sun's compass bearing `azimuth + 180` faces the
   * facade's bearing within 60 degrees, modulo whole turns.
   */
  lemma {:induction false} SunlitIffFacing(pos: SunPosition, retning: string)
    requires pos.azimuth >= -180.0
    ensures HasSunlight(pos, retning) <==>
              pos.altitude >= 0.0 && retning in Orientations &&
              FacesSun(pos.azimuth + 180.0, Directions[retning])
  {
    if pos.altitude >= 0.0 && retning in Orientations {
      var x := pos.azimuth + 180.0;
      var b := Directions[retning];
      var n := NormalizeAzimuth(pos.azimuth);
      var q: int :| n == x - Turns(q);
      assert x == n + Turns(q);
      FacesSunShift(n, b, q);
      ArcWithinIffFaces(n, b);
    }
  }

  /** Adding whole turns to the sun's bearing does not change whether it faces a facade. */
  lemma {:induction false} FacesSunShift(compass: real, facade: real, m: int)
    ensures FacesSun(compass + Turns(m), facade) <==> FacesSun(compass, facade)
  {
    if FacesSun(compass + Turns(m), facade) {
      var k :| Abs(compass + Turns(m) - facade + Turns(k)) <= Tolerance;
      assert Turns(m) + Turns(k) == Turns(k + m);
      assert Abs(compass - facade + Turns(k + m)) <= Tolerance;
    }
    if FacesSun(compass, facade) {
      var k :| Abs(compass - facade + Turns(k)) <= Tolerance;
      assert Turns(k - m) + Turns(m) == Turns(k);
      assert Abs(compass + Turns(m) - facade + Turns(k - m)) <= Tolerance;
    }
  }

  /**
   * On normalised bearings the source's shortest-arc test agrees with the
   * reference definition (facade bearings lie in [0, 270]).
   */
  lemma {:induction false} ArcWithinIffFaces(n: real, b: real)
    requires 0.0 <= n < 360.0 && 0.0 <= b <= 270.0
    ensures ShortestArc(n, b) <= Tolerance <==> FacesSun(n, b)
  {
    if ShortestArc(n, b) <= Tolerance {
      if Abs(n - b) <= Tolerance {
        assert Abs(n - b + Turns(0)) <= Tolerance;
      } else {
        // the long way round: n - b >= 300, since no facade bearing exceeds 270
        assert Abs(n - b + Turns(-1)) <= Tolerance;
      }
    }
    if FacesSun(n, b) {
      var k :| Abs(n - b + Turns(k)) <= Tolerance;
      assert -1 <= k <= 1;
    }
  }

  /** Example of `SunlitIffFacing`: the two ends of SunCalc's azimuth range are the same compass bearing. */
  lemma {:induction false} AzimuthEndsAgree(altitude: real, retning: string)
    ensures HasSunlight(SunPosition(altitude, -180.0), retning) ==
            HasSunlight(SunPosition(altitude, 180.0), retning)
  {
    assert NormalizeAzimuth(-180.0) == 0.0;
    assert NormalizeAzimuth(180.0) == 0.0;
  }

  /** Examples at the two boundaries: altitude exactly 0 passes (the test is strict `< 0`), and so does an arc of exactly 60. */
  lemma BoundaryCases()
    ensures HasSunlight(SunPosition(0.0, -180.0), "nord")
    ensures HasSunlight(SunPosition(10.0, -120.0), "nord")
  {
    assert NormalizeAzimuth(-180.0) == 0.0;
    assert NormalizeAzimuth(-120.0) == 60.0;
  }

  /** Examples: near and far facades, the sun below the horizon, an orientation outside the table. */
  lemma WorkedCases()
    // west facade, sun at compass bearing 250: 20 degrees away
    ensures HasSunlight(SunPosition(30.0, 70.0), "vest")
    // north facade, sun at compass bearing 200: 160 degrees away
    ensures !HasSunlight(SunPosition(30.0, 20.0), "nord")
    ensures !HasSunlight(SunPosition(-5.0, 0.0), "syd")
    ensures !HasSunlight(SunPosition(30.0, 0.0), "north")
  {
    assert NormalizeAzimuth(70.0) == 250.0;
    assert NormalizeAzimuth(20.0) == 200.0;
  }

  /** `hasBarSunlight(bar, timestamp)`: SunCalc evaluated at the bar's coordinates. */
  function HasBarSunlight(bar: Bar, t: Instant, sunCalc: SunCalcFn): (r: bool)
    ensures sunCalc(bar.lat, bar.lng, t).altitude < 0.0 ==> !r
    ensures bar.retning !in Orientations ==> !r
  {
    HasSunlight(sunCalc(bar.lat, bar.lng, t), bar.retning)
  }

  /** The result of `calculateBarSunInfo`. */
  datatype SunInfo = SunInfo(hasLight: bool, sunPosition: SunPosition)

  /**
   * `calculateBarSunInfo`: the sunlit flag together with the position it
   * was computed from, so that the flag can be recomputed from `sunPosition`.
   */
  function CalculateBarSunInfo(bar: Bar, t: Instant, sunCalc: SunCalcFn): (r: SunInfo)
    ensures r.sunPosition == sunCalc(bar.lat, bar.lng, t)
    ensures r.hasLight == HasSunlight(r.sunPosition, bar.retning)
  {
    SunInfo(HasBarSunlight(bar, t, sunCalc), sunCalc(bar.lat, bar.lng, t))
  }

  /** The sun info depends on a bar only through its coordinates and orientation. */
  lemma SunInfoIgnoresIdentity(a: Bar, b: Bar, t: Instant, sunCalc: SunCalcFn)
    requires a.lat == b.lat && a.lng == b.lng && a.retning == b.retning
    ensures CalculateBarSunInfo(a, t, sunCalc) == CalculateBarSunInfo(b, t, sunCalc)
  {
  }
}
