/**
 * The bar model (`src/models/bars.js`): a one-hour cache in front of the
 * OpenStreetMap fetch, a hard-coded fallback list, and the two queries
 * built on top of it. The clock (`Date.now()`) and the outcome of the fetch
 * are parameters of each call.
 */
module BarData {
  import opened Common
  import opened Records

  /** One hour, in milliseconds. */
  const CacheDuration: int := 3600000

  /** What `fetchBarsFromOSM` did: resolved with bars, or threw. */
  datatype FetchOutcome = Fetched(bars: seq<Bar>) | FetchFailed

  /**
   * The early-return test of `getAllBars`: no forced refresh, a cached array
   * (any array, even an empty one, is truthy), a truthy fetch time (0 is
   * falsy) and less than one hour elapsed.
   */
  predicate CacheHit(forceRefresh: bool, cached: Option<seq<Bar>>, last: Option<int>, now: int): (hit: bool)
    ensures hit ==> cached.Some? && last.Some? && now < last.value + CacheDuration
    ensures forceRefresh || cached.None? || last.None? || last == Some(0) ==> !hit
  {
    !forceRefresh && cached.Some? && last.Some? && last.value != 0 && now - last.value < CacheDuration
  }

  /** The expiry boundary: fresh one millisecond before the hour, stale at the hour. */
  lemma {:induction false} ExpiresAtOneHour(bars: seq<Bar>, last: int, now: int)
    requires last != 0
    ensures CacheHit(false, Some(bars), Some(last), now) <==> now < last + CacheDuration
    ensures CacheHit(false, Some(bars), Some(last), last + CacheDuration - 1)
    ensures !CacheHit(false, Some(bars), Some(last), last + CacheDuration)
  {
  }

  /** A forced refresh, or an empty cache, always goes to the network. */
  lemma {:induction false} MissWhenForcedOrCleared(cached: Option<seq<Bar>>, last: Option<int>, now: int)
    ensures !CacheHit(true, cached, last, now)
    ensures !CacheHit(false, None, None, now)
  {
  }

  function FallbackBar(id: int, navn: string, lat: real, lng: real, retning: string): Bar
  {
    Bar(id, navn, "Aarhus", lat, lng, retning, NoDetails, None)
  }

  /** `getFallbackBars`: ten Aarhus bars, numbered 1 to 10, each with a known orientation. */
  function FallbackBars(): (r: seq<Bar>)
    ensures |r| == 10
    ensures forall i :: 0 <= i < |r| ==> r[i].id == i + 1
    ensures forall i :: 0 <= i < |r| ==> r[i].city == "Aarhus" && r[i].retning in Orientations
    ensures forall i :: 0 <= i < |r| ==> r[i].sun.None?
  {
    [ FallbackBar(1, "Café Casablanca", 56.1572, 10.2085, "vest"),
      FallbackBar(2, "Sherlock Holmes", 56.1569, 10.2079, "vest"),
      FallbackBar(3, "Gyngen", 56.1566, 10.2073, "vest"),
      FallbackBar(4, "Café Paradis", 56.1563, 10.2067, "vest"),
      FallbackBar(5, "Carlton", 56.1560, 10.2061, "vest"),
      FallbackBar(6, "Mikkeller Aarhus", 56.1570, 10.2103, "syd"),
      FallbackBar(7, "Løve's Kaffebar", 56.1583, 10.2087, "øst"),
      FallbackBar(8, "Great Coffee", 56.1577, 10.2095, "syd"),
      FallbackBar(9, "Café Møllen", 56.1590, 10.2075, "vest"),
      FallbackBar(10, "La Cabra", 56.1595, 10.2068, "nord") ]
  }

  /** `bars[i]` is the first bar whose id equals `id`. */
  predicate FirstWithId(bars: seq<Bar>, id: Option<int>, i: int)
  {
    0 <= i < |bars| && Some(bars[i].id) == id &&
    forall j :: 0 <= j < i ==> Some(bars[j].id) != id
  }

  /**
   * `bars.find(bar => bar.id === parseInt(id))`. A `None` id is a NaN from
   * `parseInt`, which equals no id.
   */
  function FindById(bars: seq<Bar>, id: Option<int>): (r: Option<Bar>)
    ensures r.None? <==> forall i :: 0 <= i < |bars| ==> Some(bars[i].id) != id
    ensures r.Some? ==> exists i :: FirstWithId(bars, id, i) && bars[i] == r.value
  {
    if bars == [] then None
    else if Some(bars[0].id) == id then
      assert FirstWithId(bars, id, 0);
      Some(bars[0])
    else
      var r := FindById(bars[1..], id);
      if r.None? then None
      else
        var k :| FirstWithId(bars[1..], id, k) && bars[1..][k] == r.value;
        assert FirstWithId(bars, id, k + 1);
        r
  }

  /** Example of `FindById`: each id of the fallback list finds the bar carrying it. */
  lemma {:induction false} FindFallbackBar(id: int)
    requires 1 <= id <= 10
    ensures FindById(FallbackBars(), Some(id)) == Some(FallbackBars()[id - 1])
  {
    var bars := FallbackBars();
    var r := FindById(bars, Some(id));
    assert FirstWithId(bars, Some(id), id - 1);
    var k :| FirstWithId(bars, Some(id), k) && bars[k] == r.value;
    assert k == id - 1;
  }

  /** `bar.by.toLowerCase() === city.toLowerCase()`, with `toLowerCase` given. */
  predicate SameCity(b: Bar, city: string, lower: string -> string)
  {
    lower(b.city) == lower(city)
  }

  /** `bars.filter(...)` for `getBarsByCity`: exactly the bars of that city, in order. */
  function BarsInCity(bars: seq<Bar>, city: string, lower: string -> string): (r: seq<Bar>)
    ensures Subseq(r, bars)
    ensures forall b :: b in r <==> b in bars && SameCity(b, city, lower)
    ensures forall b :: multiset(r)[b] == if SameCity(b, city, lower) then multiset(bars)[b] else 0
  {
    FilterIsSubseq(bars, b => SameCity(b, city, lower));
    FilterMultiset(bars, b => SameCity(b, city, lower));
    Filter(bars, b => SameCity(b, city, lower))
  }

  /**
   * The new cache of one `getAllBars(forceRefresh)` call at time `now`: a hit
   * keeps both fields; a successful fetch stores its bars and `now`; a failed
   * one keeps the time and the cache, or installs the fallback list when
   * there is no cache.
   */
  predicate CacheStep(forceRefresh: bool, now: int, outcome: FetchOutcome,
                      oldCached: Option<seq<Bar>>, oldLast: Option<int>,
                      cached: Option<seq<Bar>>, last: Option<int>)
  {
    if CacheHit(forceRefresh, oldCached, oldLast, now) then
      cached == oldCached && last == oldLast
    else if outcome.Fetched? then
      cached == Some(outcome.bars) && last == Some(now)
    else
      last == oldLast && cached == (if oldCached.Some? then oldCached else Some(FallbackBars()))
  }

  /**
   * The module-level cache of `bars.js`: `cachedBars` and `lastFetchTime`
   * (`None` is `null`). The ghost flag records whether the last call of
   * `GetAllBars` went to the network.
   */
  class BarCache {
    var cachedBars: Option<seq<Bar>>
    var lastFetchTime: Option<int>
    ghost var fetchAttempted: bool

    /** Both fields start as `null`. */
    constructor ()
      ensures cachedBars == None && lastFetchTime == None && !fetchAttempted
    {
      cachedBars := None;
      lastFetchTime := None;
      fetchAttempted := false;
    }

    /**
     * `getAllBars(forceRefresh)` at time `now`, where the fetch, if it is
     * made, ends with `outcome`. The returned array is always the new cache.
     */
    method GetAllBars(forceRefresh: bool, now: int, outcome: FetchOutcome) returns (bars: seq<Bar>)
      modifies this
      ensures fetchAttempted <==> !CacheHit(forceRefresh, old(cachedBars), old(lastFetchTime), now)
      ensures !fetchAttempted ==>
                cachedBars == old(cachedBars) && lastFetchTime == old(lastFetchTime)
      ensures fetchAttempted && outcome.Fetched? ==>
                cachedBars == Some(outcome.bars) && lastFetchTime == Some(now)
      ensures fetchAttempted && outcome.FetchFailed? ==>
                lastFetchTime == old(lastFetchTime) &&
                cachedBars == (if old(cachedBars).Some? then old(cachedBars) else Some(FallbackBars()))
      ensures cachedBars.Some? && bars == cachedBars.value
      ensures CacheStep(forceRefresh, now, outcome, old(cachedBars), old(lastFetchTime), cachedBars, lastFetchTime)
    {
      if CacheHit(forceRefresh, cachedBars, lastFetchTime, now) {
        fetchAttempted := false;
        return cachedBars.value;
      }
      fetchAttempted := true;
      match outcome {
        case Fetched(fetched) =>
          cachedBars := Some(fetched);
          lastFetchTime := Some(now);
        case FetchFailed =>
          if cachedBars.None? {
            cachedBars := Some(FallbackBars());
          }
      }
      bars := cachedBars.value;
    }

    /** `clearCache`: both fields back to `null`, so the next call fetches. */
    method ClearCache()
      modifies this
      ensures cachedBars == None && lastFetchTime == None
      ensures forall force: bool, now: int :: !CacheHit(force, cachedBars, lastFetchTime, now)
      ensures fetchAttempted == old(fetchAttempted)
    {
      cachedBars := None;
      lastFetchTime := None;
    }

    /** `getBarById(id)`: the first bar of `getAllBars()` with that id, or `undefined`. */
    method GetBarById(id: Option<int>, now: int, outcome: FetchOutcome) returns (bar: Option<Bar>)
      modifies this
      ensures CacheStep(false, now, outcome, old(cachedBars), old(lastFetchTime), cachedBars, lastFetchTime)
      ensures cachedBars.Some? && bar == FindById(cachedBars.value, id)
      ensures fetchAttempted <==> !CacheHit(false, old(cachedBars), old(lastFetchTime), now)
    {
      var bars := GetAllBars(false, now, outcome);
      bar := FindById(bars, id);
    }

    /** `getBarsByCity(city)`: the bars of `getAllBars()` in that city, compared case-insensitively. */
    method GetBarsByCity(city: string, lower: string -> string, now: int, outcome: FetchOutcome)
      returns (bars: seq<Bar>)
      modifies this
      ensures CacheStep(false, now, outcome, old(cachedBars), old(lastFetchTime), cachedBars, lastFetchTime)
      ensures cachedBars.Some? && bars == BarsInCity(cachedBars.value, city, lower)
      ensures fetchAttempted <==> !CacheHit(false, old(cachedBars), old(lastFetchTime), now)
    {
      var all := GetAllBars(false, now, outcome);
      bars := BarsInCity(all, city, lower);
    }
  }

  /** A cleared cache fetches on the next call, whatever the clock says. */
  method RefreshAfterClear(cache: BarCache, now: int, outcome: FetchOutcome) returns (bars: seq<Bar>)
    modifies cache
    ensures cache.fetchAttempted
    ensures outcome.Fetched? ==> bars == outcome.bars && cache.lastFetchTime == Some(now)
    ensures outcome.FetchFailed? ==> bars == FallbackBars() && cache.lastFetchTime == None
  {
    cache.ClearCache();
    bars := cache.GetAllBars(false, now, outcome);
  }
}
