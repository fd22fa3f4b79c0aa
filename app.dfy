/**
 * The legacy client (`public/js/app.js`): the same page as the modular
 * client written as one script over module-level variables. Its list
 * filtering, slider arithmetic, light rule, building conversion and
 * opening-hours rewriting are the modular client's, and are modelled by the
 * same functions; what differs is the state it keeps and the narrower
 * properties of its map features.
 */
module LegacyClient {
  import opened Common
  import opened Records
  import opened Maps
  import opened SunCalculator
  import opened BarList
  import opened Ui

  /** `bar.harSol` as a feature property: absent until the server has added it. */
  function HarSolValue(b: Bar): (r: Option<bool>)
    ensures r == Some(true) <==> HarSol(b)
  {
    if b.sun.Some? then Some(b.sun.value.harSol) else None
  }

  /** The properties `visBarer` copies into a feature: id, navn, by, retning and harSol. */
  function LegacyFeature(bar: Bar): PointFeature
  {
    PointFeature(bar.lng, bar.lat, Summary(bar.id, bar.navn, bar.city, bar.retning, HarSolValue(bar)))
  }

  /** `barerData.map(...)` of `visBarer`: one feature per bar, sunlit or not, in order. */
  function LegacyFeatures(bars: seq<Bar>): (r: seq<PointFeature>)
    ensures |r| == |bars|
    ensures forall i :: 0 <= i < |r| ==>
              r[i].lng == bars[i].lng && r[i].lat == bars[i].lat && r[i].properties.Summary? &&
              r[i].properties.id == bars[i].id && r[i].properties.navn == bars[i].navn &&
              r[i].properties.city == bars[i].city && r[i].properties.retning == bars[i].retning &&
              (r[i].properties.harSol == Some(true) <==> HarSol(bars[i]))
  {
    seq(|bars|, i requires 0 <= i < |bars| => LegacyFeature(bars[i]))
  }

  /** A modular feature narrowed to the five properties the legacy client copies. */
  function Summarise(f: PointFeature): PointFeature
  {
    match f.properties
    case AllFields(b) =>
      f.(properties := Summary(b.id, b.navn, b.city, b.retning, HarSolValue(b)))
    case Summary(_, _, _, _, _) => f
  }

  /**
   * The two clients put the same points on the map: each legacy feature is
   * the modular feature of the same bar with its properties narrowed.
   */
  lemma {:induction false} LegacyFeaturesSummarise(bars: seq<Bar>)
    ensures |LegacyFeatures(bars)| == |PointFeatures(bars)|
    ensures forall i :: 0 <= i < |bars| ==> LegacyFeatures(bars)[i] == Summarise(PointFeatures(bars)[i])
  {
    forall i | 0 <= i < |bars|
      ensures LegacyFeatures(bars)[i] == Summarise(PointFeatures(bars)[i])
    {
      assert PointFeatures(bars)[i] == PointFeatureOf(bars[i]);
    }
  }

  /**
   * The opening-hours line of the popup and of a list item: shown only for a
   * truthy `opening_hours`, rewritten by the same replacements.
   */
  function LegacyHoursLine(d: Details): (r: Option<string>)
    ensures r.Some? <==> d.openingHours.Some? && d.openingHours.value != ""
    ensures r.Some? ==> r.value == OnePass(d.openingHours.value) && ';' !in r.value
  {
    if d.openingHours.Some? && d.openingHours.value != "" then
      FormatOpeningHoursIsOnePass(d.openingHours.value);
      Some(FormatOpeningHours(d.openingHours.value))
    else None
  }

  /** The legacy page: its module-level variables, the page elements it writes, and the map (`map`). */
  class LegacyApp {
    const mapView: MapManager
    var barerData: seq<Bar>
    var currentDate: LocalTime
    var searchQuery: string
    /** The text in the search box. */
    var searchBox: string
    /** The `#tidsVisning` text. */
    var timeText: string
    /** The slider's position: the program sets it at start-up, the user moves it. */
    var sliderValue: int
    /** The `#antalMedSol` count. */
    var antalMedSol: int
    /** The `#barListe` content. */
    var barListe: ListView

    predicate Valid()
      reads this
    {
      ValidTime(currentDate)
    }

    /**
     * The script's start: no bars, the local time `now`, an empty search.
     * The page elements get placeholder values (an empty list, a count of 0,
     * position 0) that the source never writes; `init` and `hentBarer`
     * overwrite them.
     */
    constructor (mapView: MapManager, now: LocalTime)
      requires ValidTime(now)
      ensures Valid()
      ensures this.mapView == mapView && barerData == [] && currentDate == now
      ensures searchQuery == "" && searchBox == "" && barListe == NoneFound && antalMedSol == 0
    {
      this.mapView := mapView;
      barerData := [];
      currentDate := now;
      searchQuery := "";
      searchBox := "";
      timeText := "";
      sliderValue := 0;
      antalMedSol := 0;
      barListe := NoneFound;
    }

    /**
     * `visBarer()`: the list of sunlit bars matching the search, the count
     * of every sunlit bar, and one feature per bar in the `barer` source.
     */
    method VisBarer(lower: string -> string)
      modifies this, mapView
      ensures barListe == ListOf(SearchResults(barerData, searchQuery, lower))
      ensures antalMedSol == |SunlitBars(barerData)|
      ensures mapView.barSource == Some(LegacyFeatures(barerData)) && mapView.light == old(mapView.light)
      ensures barerData == old(barerData) && currentDate == old(currentDate) && searchQuery == old(searchQuery)
      ensures searchBox == old(searchBox) && timeText == old(timeText) && sliderValue == old(sliderValue)
    {
      var barerMedSol := SunlitBars(barerData);
      var filteredBarer := barerMedSol;
      var query := searchQuery;
      SearchResultsFilter(barerData, query, lower);
      if query != "" {
        filteredBarer := Filter(barerMedSol, b => MatchesQuery(b, query, lower));
      }
      mapView.SetBarSource(LegacyFeatures(barerData));
      barListe := ListOf(filteredBarer);
      antalMedSol := |barerMedSol|;
    }

    /**
     * `updateSunLight()`: SunCalc at the Aarhus centre and the current
     * instant, the colour from the current hour.
     */
    method UpdateSunLight(instantOf: InstantOf, sunCalc: SunCalcFn)
      modifies mapView
      ensures mapView.light == Some(SunLight(sunCalc(Aarhus.lat, Aarhus.lng, instantOf(currentDate)), currentDate.hour))
      ensures mapView.barSource == old(mapView.barSource)
    {
      var sunPos := sunCalc(Aarhus.lat, Aarhus.lng, instantOf(currentDate));
      mapView.SetLight(SunLight(sunPos, currentDate.hour));
    }

    /**
     * `hentBarer(tidspunkt)`, where `response` is the parsed body or `None`
     * when the request or the parsing threw: on success the bars replace
     * `barerData`, the list is redrawn and the map relit; on failure nothing
     * changes.
     */
    method HentBarer(response: Option<seq<Bar>>, lower: string -> string, instantOf: InstantOf, sunCalc: SunCalcFn)
      modifies this, mapView
      ensures response.None? ==>
                barerData == old(barerData) && barListe == old(barListe) && antalMedSol == old(antalMedSol) &&
                mapView.light == old(mapView.light) && mapView.barSource == old(mapView.barSource)
      ensures response.Some? ==>
                barerData == response.value &&
                barListe == ListOf(SearchResults(barerData, searchQuery, lower)) &&
                antalMedSol == |SunlitBars(barerData)| &&
                mapView.barSource == Some(LegacyFeatures(barerData)) &&
                mapView.light == Some(SunLight(sunCalc(Aarhus.lat, Aarhus.lng, instantOf(currentDate)), currentDate.hour))
      ensures currentDate == old(currentDate) && searchQuery == old(searchQuery) && searchBox == old(searchBox)
      ensures timeText == old(timeText) && sliderValue == old(sliderValue)
    {
      if response.None? {
        return;
      }
      barerData := response.value;
      VisBarer(lower);
      UpdateSunLight(instantOf, sunCalc);
    }

    /** `updateTimeDisplay()`: the time text of the current time. */
    method UpdateTimeDisplay()
      requires Valid()
      modifies this
      ensures Valid()
      ensures timeText == TimeText(currentDate.hour, currentDate.minute)
      ensures barerData == old(barerData) && currentDate == old(currentDate) && searchQuery == old(searchQuery)
      ensures searchBox == old(searchBox) && sliderValue == old(sliderValue)
      ensures antalMedSol == old(antalMedSol) && barListe == old(barListe)
    {
      timeText := TimeText(currentDate.hour, currentDate.minute);
    }

    /** `init()` up to the map's load: the time text, then the slider placed at the current time. */
    method Init()
      requires Valid()
      modifies this
      ensures Valid()
      ensures timeText == TimeText(currentDate.hour, currentDate.minute)
      ensures sliderValue == SliderIndex(currentDate.hour, currentDate.minute) && 0 <= sliderValue < 96
      ensures barerData == old(barerData) && currentDate == old(currentDate) && searchQuery == old(searchQuery)
      ensures searchBox == old(searchBox) && antalMedSol == old(antalMedSol) && barListe == old(barListe)
    {
      UpdateTimeDisplay();
      sliderValue := SliderIndex(currentDate.hour, currentDate.minute);
    }

    /** The map's `load` handler, apart from the buildings: light the map, then fetch the bars. */
    method OnMapLoad(response: Option<seq<Bar>>, lower: string -> string, instantOf: InstantOf, sunCalc: SunCalcFn)
      modifies this, mapView
      ensures response.None? ==>
                barerData == old(barerData) && barListe == old(barListe) && antalMedSol == old(antalMedSol) &&
                mapView.barSource == old(mapView.barSource)
      ensures response.Some? ==>
                barerData == response.value &&
                barListe == ListOf(SearchResults(barerData, searchQuery, lower)) &&
                antalMedSol == |SunlitBars(barerData)| &&
                mapView.barSource == Some(LegacyFeatures(barerData))
      ensures mapView.light == Some(SunLight(sunCalc(Aarhus.lat, Aarhus.lng, instantOf(currentDate)), currentDate.hour))
      ensures currentDate == old(currentDate) && searchQuery == old(searchQuery) && searchBox == old(searchBox)
      ensures timeText == old(timeText) && sliderValue == old(sliderValue)
    {
      UpdateSunLight(instantOf, sunCalc);
      HentBarer(response, lower, instantOf, sunCalc);
    }

    /**
     * The slider's `input` handler for position `value`: the same day at the
     * selected quarter hour, the time text, then the bars for that time.
     */
    method OnSliderInput(value: int, response: Option<seq<Bar>>, lower: string -> string,
                         instantOf: InstantOf, sunCalc: SunCalcFn)
      requires 0 <= value < 96
      modifies this, mapView
      ensures Valid()
      ensures currentDate == old(currentDate).(hour := SliderHours(value), minute := SliderMinutes(value))
      ensures SliderIndex(currentDate.hour, currentDate.minute) == value
      ensures timeText == TimeText(currentDate.hour, currentDate.minute)
      ensures response.None? ==>
                barerData == old(barerData) && barListe == old(barListe) && antalMedSol == old(antalMedSol) &&
                mapView.light == old(mapView.light) && mapView.barSource == old(mapView.barSource)
      ensures response.Some? ==>
                barerData == response.value &&
                barListe == ListOf(SearchResults(barerData, searchQuery, lower)) &&
                antalMedSol == |SunlitBars(barerData)| &&
                mapView.barSource == Some(LegacyFeatures(barerData)) &&
                mapView.light == Some(SunLight(sunCalc(Aarhus.lat, Aarhus.lng, instantOf(currentDate)), currentDate.hour))
      ensures searchQuery == old(searchQuery) && searchBox == old(searchBox) && sliderValue == value
    {
      sliderValue := value;
      currentDate := currentDate.(hour := SliderHours(value), minute := SliderMinutes(value));
      SliderRoundTrip(value);
      UpdateTimeDisplay();
      HentBarer(response, lower, instantOf, sunCalc);
    }

    /** The `prevDay` (`delta` = -1) and `nextDay` (`delta` = 1) buttons: move a day, keep the time. */
    method OnDayChange(delta: int, response: Option<seq<Bar>>, lower: string -> string,
                       instantOf: InstantOf, sunCalc: SunCalcFn)
      requires Valid()
      requires delta == -1 || delta == 1
      modifies this, mapView
      ensures Valid()
      ensures currentDate == old(currentDate).(day := old(currentDate).day + delta)
      ensures timeText == TimeText(currentDate.hour, currentDate.minute)
      ensures response.None? ==>
                barerData == old(barerData) && barListe == old(barListe) && antalMedSol == old(antalMedSol) &&
                mapView.light == old(mapView.light) && mapView.barSource == old(mapView.barSource)
      ensures response.Some? ==>
                barerData == response.value &&
                barListe == ListOf(SearchResults(barerData, searchQuery, lower)) &&
                antalMedSol == |SunlitBars(barerData)| &&
                mapView.barSource == Some(LegacyFeatures(barerData)) &&
                mapView.light == Some(SunLight(sunCalc(Aarhus.lat, Aarhus.lng, instantOf(currentDate)), currentDate.hour))
      ensures searchQuery == old(searchQuery) && searchBox == old(searchBox) && sliderValue == old(sliderValue)
    {
      currentDate := currentDate.(day := currentDate.day + delta);
      UpdateTimeDisplay();
      HentBarer(response, lower, instantOf, sunCalc);
    }

    /** The search box's `input` handler: the typed text becomes the query and the list is redrawn. */
    method OnSearchInput(value: string, lower: string -> string)
      modifies this, mapView
      ensures searchQuery == value && searchBox == value
      ensures barListe == ListOf(SearchResults(barerData, value, lower))
      ensures antalMedSol == |SunlitBars(barerData)|
      ensures mapView.barSource == Some(LegacyFeatures(barerData)) && mapView.light == old(mapView.light)
      ensures barerData == old(barerData) && currentDate == old(currentDate) && timeText == old(timeText)
      ensures sliderValue == old(sliderValue)
    {
      searchQuery := value;
      searchBox := value;
      VisBarer(lower);
    }

    /**
     * The search box's `keydown` handler: Escape empties the box and the
     * query and the list goes back to every sunlit bar; other keys do nothing.
     */
    method OnKeyDown(key: string, lower: string -> string)
      modifies this, mapView
      ensures key == "Escape" ==>
                searchQuery == "" && searchBox == "" && barListe == ListOf(SunlitBars(barerData)) &&
                antalMedSol == |SunlitBars(barerData)| && mapView.barSource == Some(LegacyFeatures(barerData))
      ensures mapView.light == old(mapView.light)
      ensures key != "Escape" ==>
                searchQuery == old(searchQuery) && searchBox == old(searchBox) &&
                barListe == old(barListe) && antalMedSol == old(antalMedSol) && mapView.barSource == old(mapView.barSource)
      ensures barerData == old(barerData) && currentDate == old(currentDate) && timeText == old(timeText)
      ensures sliderValue == old(sliderValue)
    {
      if key == "Escape" {
        searchBox := "";
        searchQuery := "";
        VisBarer(lower);
      }
    }
  }
}
