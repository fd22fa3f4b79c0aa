/**
 * The bar controller (`src/controllers/barController.js`): the cached bars
 * with their sun status added, and the sun times of one bar. SunCalc's
 * `getTimes` is a parameter, like its `getPosition`.
 */
module BarController {
  import opened Common
  import opened Records
  import opened SunService
  import opened BarData

  /** Sunrise, sunset and solar noon of one day, as instants. */
  datatype SunTimes = SunTimes(sunrise: Instant, sunset: Instant, solarNoon: Instant)

  /** SunCalc's `getTimes`, at (latitude, longitude) on the day of the given instant. */
  type SunTimesFn = (real, real, Instant) -> SunTimes

  /** The response of `getBarSunTimes`: the bar and its `solopgang`, `solnedgang` and `solensHøjdepunkt`. */
  datatype BarSunTimes = BarSunTimes(bar: Bar, solopgang: Instant, solnedgang: Instant, solensHoejdepunkt: Instant)

  /** `{ ...bar, harSol, solInfo }` for one bar. */
  function WithSunStatus(bar: Bar, t: Instant, sunCalc: SunCalcFn): Bar
  {
    var info := CalculateBarSunInfo(bar, t, sunCalc);
    bar.(sun := Some(SunStatus(info.hasLight, info.sunPosition)))
  }

  /**
   * The `bars.map(...)` of `getBarsWithSunlight`: one record per bar, in the
   * same order, keeping every original field and setting `harSol` to the
   * classifier's verdict and `solInfo` to the position it used.
   */
  function WithSunlight(bars: seq<Bar>, t: Instant, sunCalc: SunCalcFn): (r: seq<Bar>)
    ensures |r| == |bars|
    ensures forall i :: 0 <= i < |r| ==> r[i].(sun := bars[i].sun) == bars[i]
    ensures forall i :: 0 <= i < |r| ==>
              r[i].sun == Some(SunStatus(HasBarSunlight(bars[i], t, sunCalc), sunCalc(bars[i].lat, bars[i].lng, t)))
    ensures forall i :: 0 <= i < |r| ==> (HarSol(r[i]) <==> HasBarSunlight(bars[i], t, sunCalc))
  {
    seq(|bars|, i requires 0 <= i < |bars| => WithSunStatus(bars[i], t, sunCalc))
  }

  /**
   * Adding the sun status again at the same instant changes nothing: the
   * status depends only on fields the map leaves alone.
   */
  lemma {:induction false} WithSunlightIdempotent(bars: seq<Bar>, t: Instant, sunCalc: SunCalcFn)
    ensures WithSunlight(WithSunlight(bars, t, sunCalc), t, sunCalc) == WithSunlight(bars, t, sunCalc)
  {
    var once := WithSunlight(bars, t, sunCalc);
    var twice := WithSunlight(once, t, sunCalc);
    forall i | 0 <= i < |bars|
      ensures twice[i] == once[i]
    {
      SunInfoIgnoresIdentity(once[i], bars[i], t, sunCalc);
    }
  }

  /** The map commutes with concatenation, so each bar is classified on its own. */
  lemma {:induction false} WithSunlightAppend(a: seq<Bar>, b: seq<Bar>, t: Instant, sunCalc: SunCalcFn)
    ensures WithSunlight(a + b, t, sunCalc) == WithSunlight(a, t, sunCalc) + WithSunlight(b, t, sunCalc)
  {
    var l := WithSunlight(a + b, t, sunCalc);
    var r := WithSunlight(a, t, sunCalc) + WithSunlight(b, t, sunCalc);
    forall i | 0 <= i < |l|
      ensures l[i] == r[i]
    {
      if i < |a| {
        assert (a + b)[i] == a[i];
      } else {
        assert (a + b)[i] == b[i - |a|];
      }
    }
  }

  /**
   * The conditional return of `getBarSunTimes` on the bars of `getAllBars`:
   * null when no bar has the id, otherwise that bar with the sun times at
   * its coordinates on the given day.
   */
  function SunTimesFor(bars: seq<Bar>, id: Option<int>, today: Instant, sunTimes: SunTimesFn): (r: Option<BarSunTimes>)
    ensures r.None? <==> forall i :: 0 <= i < |bars| ==> Some(bars[i].id) != id
    ensures r.Some? ==> exists i :: FirstWithId(bars, id, i) && r.value.bar == bars[i]
    ensures r.Some? ==>
              var times := sunTimes(r.value.bar.lat, r.value.bar.lng, today);
              r.value.solopgang == times.sunrise && r.value.solnedgang == times.sunset &&
              r.value.solensHoejdepunkt == times.solarNoon
  {
    match FindById(bars, id)
    case None => None
    case Some(bar) =>
      var times := sunTimes(bar.lat, bar.lng, today);
      Some(BarSunTimes(bar, times.sunrise, times.sunset, times.solarNoon))
  }

  /**
   * `getBarsWithSunlight(timestamp)`: read the bars through the cache, then
   * add the sun status to each.
   */
  method GetBarsWithSunlight(cache: BarCache, t: Instant, sunCalc: SunCalcFn, now: int, outcome: FetchOutcome)
    returns (bars: seq<Bar>)
    modifies cache
    ensures cache.cachedBars.Some? && bars == WithSunlight(cache.cachedBars.value, t, sunCalc)
    ensures cache.fetchAttempted <==> !CacheHit(false, old(cache.cachedBars), old(cache.lastFetchTime), now)
    ensures CacheStep(false, now, outcome, old(cache.cachedBars), old(cache.lastFetchTime),
                      cache.cachedBars, cache.lastFetchTime)
  {
    var all := cache.GetAllBars(false, now, outcome);
    bars := WithSunlight(all, t, sunCalc);
  }

  /** `getBarSunTimes(barId)`, where `id` is `parseInt(barId)` (`None` for NaN). */
  method GetBarSunTimes(cache: BarCache, id: Option<int>, today: Instant, sunTimes: SunTimesFn,
                        now: int, outcome: FetchOutcome)
    returns (result: Option<BarSunTimes>)
    modifies cache
    ensures cache.cachedBars.Some? && result == SunTimesFor(cache.cachedBars.value, id, today, sunTimes)
    ensures cache.fetchAttempted <==> !CacheHit(false, old(cache.cachedBars), old(cache.lastFetchTime), now)
    ensures CacheStep(false, now, outcome, old(cache.cachedBars), old(cache.lastFetchTime),
                      cache.cachedBars, cache.lastFetchTime)
  {
    var bar := cache.GetBarById(id, now, outcome);
    if bar.None? {
      return None;
    }
    var times := sunTimes(bar.value.lat, bar.value.lng, today);
    result := Some(BarSunTimes(bar.value, times.sunrise, times.sunset, times.solarNoon));
  }
}
