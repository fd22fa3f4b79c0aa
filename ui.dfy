/**
 * The modular client's page controller (`public/js/modules/uiController.js`):
 * the 15-minute time slider, the zero-padded `HH:MM` text, day navigation,
 * the search box and the list of sunlit bars. The page elements it writes
 * (the time text, the slider position, the sunlit count and the list) are
 * fields; rendering of the list items and popups is not modelled.
 */
module Ui {
  import opened Common
  import opened Records
  import opened Maps
  import opened SunCalculator
  import opened BarList

  /** A local time whose hour and minute are ones `getHours` and `getMinutes` can return. */
  predicate ValidTime(t: LocalTime)
  {
    0 <= t.hour < 24 && 0 <= t.minute < 60
  }

  /** `hours * 4 + Math.floor(minutes / 15)`: the slider position of a time, 96 steps a day. */
  function SliderIndex(hours: int, minutes: int): (r: int)
    ensures 0 <= hours < 24 && 0 <= minutes < 60 ==> 0 <= r < 96
  {
    hours * 4 + minutes / 15
  }

  /** `Math.floor(value / 4)`: the hour of a slider position. */
  function SliderHours(value: int): (r: int)
    ensures 0 <= value < 96 ==> 0 <= r < 24
  {
    value / 4
  }

  /** `(value % 4) * 15`: the minute of a slider position, with JavaScript's `%`. */
  function SliderMinutes(value: int): (r: int)
    ensures 0 <= value ==> r in {0, 15, 30, 45}
    ensures value < 0 ==> r in {0, -15, -30, -45}
  {
    JsRemInt(value, 4) * 15
  }

  /** Every slider position is the position of the time it selects. */
  lemma {:induction false} SliderRoundTrip(value: int)
    requires 0 <= value < 96
    ensures SliderIndex(SliderHours(value), SliderMinutes(value)) == value
  {
    var q := value / 4;
    var m := value % 4;
    assert value == q * 4 + m;
    assert (m * 15) / 15 == m;
  }

  /** A time's slider position selects the same hour and the minute rounded down to a quarter. */
  lemma {:induction false} TimeRoundTrip(hours: int, minutes: int)
    requires 0 <= hours < 24 && 0 <= minutes < 60
    ensures SliderHours(SliderIndex(hours, minutes)) == hours
    ensures SliderMinutes(SliderIndex(hours, minutes)) == minutes - minutes % 15
  {
    var q := minutes / 15;
    assert 0 <= q < 4;
    var v := hours * 4 + q;
    assert v / 4 == hours && v % 4 == q by {
      assert v == hours * 4 + q;
    }
    assert minutes == q * 15 + minutes % 15;
  }

  /** `'0'` to `'9'`. */
  predicate IsDigit(c: char)
  {
    '0' <= c <= '9'
  }

  function DigitChar(d: int): (c: char)
    requires 0 <= d < 10
    ensures IsDigit(c)
  {
    ('0' as int + d) as char
  }

  /** `n.toString()` for a non-negative integer: its decimal digits, most significant first. */
  function NatToString(n: nat): string
  {
    if n < 10 then [DigitChar(n)] else NatToString(n / 10) + [DigitChar(n % 10)]
  }

  /** The text of `n` is made of digits only, one of them below 10 and two below 100. */
  lemma {:induction false} NatToStringShape(n: nat)
    ensures |NatToString(n)| >= 1
    ensures forall i :: 0 <= i < |NatToString(n)| ==> IsDigit(NatToString(n)[i])
    ensures n < 10 ==> |NatToString(n)| == 1
    ensures 10 <= n < 100 ==> |NatToString(n)| == 2
    decreases n
  {
    if n >= 10 {
      NatToStringShape(n / 10);
    }
  }

  /** Reference definition: the number a string of decimal digits denotes. */
  function DigitsValue(s: string): int
  {
    if s == [] then 0 else DigitsValue(s[..|s| - 1]) * 10 + (s[|s| - 1] as int - '0' as int)
  }

  /** Reading the decimal text of `n` back gives `n`. */
  lemma {:induction false} NatToStringValue(n: nat)
    ensures DigitsValue(NatToString(n)) == n
    decreases n
  {
    var s := NatToString(n);
    if n >= 10 {
      NatToStringValue(n / 10);
      assert s[..|s| - 1] == NatToString(n / 10);
    }
  }

  /** `s.padStart(2, '0')`. */
  function Pad2(s: string): (r: string)
    ensures |r| >= 2 && |r| >= |s|
    ensures |s| >= 2 ==> r == s
  {
    if |s| >= 2 then s else if |s| == 1 then "0" + s else "00"
  }

  /** Padding keeps the text as its suffix and fills up to two characters with `'0'`. */
  lemma {:induction false} Pad2Shape(s: string)
    ensures |Pad2(s)| == (if |s| >= 2 then |s| else 2)
    ensures Pad2(s)[|Pad2(s)| - |s|..] == s
    ensures forall i :: 0 <= i < |Pad2(s)| - |s| ==> Pad2(s)[i] == '0'
  {
  }

  /** Leading zeros do not change the number. */
  lemma {:induction false} LeadingZero(s: string)
    ensures DigitsValue("0" + s) == DigitsValue(s)
    decreases |s|
  {
    if s != [] {
      assert ("0" + s)[..|"0" + s| - 1] == "0" + s[..|s| - 1];
      LeadingZero(s[..|s| - 1]);
    }
  }

  lemma {:induction false} Pad2Value(s: string)
    ensures DigitsValue(Pad2(s)) == DigitsValue(s)
  {
    if |s| == 1 {
      LeadingZero(s);
    } else if |s| == 0 {
      assert "00" == "0" + "0";
      LeadingZero("0");
      LeadingZero("");
    }
  }

  /** `${timer}:${minutter}` with both fields padded to two digits. */
  function TimeText(hours: nat, minutes: nat): (r: string)
    ensures |r| >= 5
    ensures hours < 100 ==> r[2] == ':'
  {
    assert hours < 100 ==> |Pad2(NatToString(hours))| == 2 by {
      if hours < 100 {
        TwoDigitField(hours);
      }
    }
    Pad2(NatToString(hours)) + ":" + Pad2(NatToString(minutes))
  }

  /** A number below 100, padded: two digits that read back as the number. */
  lemma {:induction false} TwoDigitField(n: nat)
    requires n < 100
    ensures |Pad2(NatToString(n))| == 2
    ensures IsDigit(Pad2(NatToString(n))[0]) && IsDigit(Pad2(NatToString(n))[1])
    ensures DigitsValue(Pad2(NatToString(n))) == n
  {
    var s := NatToString(n);
    NatToStringShape(n);
    Pad2Shape(s);
    NatToStringValue(n);
    Pad2Value(s);
    if |s| == 1 {
      assert Pad2(s) == "0" + s;
      assert Pad2(s)[1] == s[0];
    }
  }

  /**
   * For a time of day the text is `HH:MM`: five characters, a colon in the
   * middle, digits elsewhere, and the two fields read back as the hour and
   * the minute.
   */
  lemma {:induction false} TimeTextRoundTrip(hours: nat, minutes: nat)
    requires hours < 24 && minutes < 60
    ensures |TimeText(hours, minutes)| == 5 && TimeText(hours, minutes)[2] == ':'
    ensures forall i :: 0 <= i < 5 && i != 2 ==> IsDigit(TimeText(hours, minutes)[i])
    ensures DigitsValue(TimeText(hours, minutes)[..2]) == hours
    ensures DigitsValue(TimeText(hours, minutes)[3..]) == minutes
  {
    var h := Pad2(NatToString(hours));
    var m := Pad2(NatToString(minutes));
    TwoDigitField(hours);
    TwoDigitField(minutes);
    var t := h + ":" + m;
    assert t == TimeText(hours, minutes);
    assert t[..2] == h;
    assert t[3..] == m;
    assert t[0] == h[0] && t[1] == h[1] && t[2] == ':' && t[3] == m[0] && t[4] == m[1];
  }

  /** What `#barListe` shows: a "none found" message, or one item per bar. */
  datatype ListView = NoneFound | Items(bars: seq<Bar>)

  /** The list for a `filtered` result: the message when it is empty, its bars otherwise. */
  function ListOf(filtered: seq<Bar>): (r: ListView)
    ensures r.NoneFound? <==> |filtered| == 0
  {
    if |filtered| == 0 then NoneFound else Items(filtered)
  }

  /**
   * The list shows "none found" exactly when no sunlit bar matches the
   * search, and otherwise lists the matching sunlit bars and nothing else.
   */
  lemma {:induction false} ListShowsMatches(bars: seq<Bar>, query: string, lower: string -> string)
    ensures ListOf(SearchResults(bars, query, lower)).NoneFound? <==>
              forall b :: b in bars && HarSol(b) ==> query != "" && !MatchesQuery(b, query, lower)
    ensures ListOf(SearchResults(bars, query, lower)).Items? ==>
              forall b :: b in ListOf(SearchResults(bars, query, lower)).bars <==>
                          b in bars && HarSol(b) && (query == "" || MatchesQuery(b, query, lower))
  {
    var r := SearchResults(bars, query, lower);
    if r != [] {
      assert r[0] in r;
    }
  }

  /** The modular client's `UIController`. */
  class UiController {
    const barManager: BarManager
    const sunCalculator: SunCalculator
    const mapManager: MapManager
    var currentDate: LocalTime
    var searchQuery: string
    /** The text in the search box. */
    var searchBox: string
    /** The `#tidsVisning` text. */
    var timeText: string
    /** The slider's position: the program sets it at start-up, the user moves it. */
    var sliderValue: int
    /** The `#antalMedSol` count. */
    var antalMedSol: int
    /** The `#barListe` content. */
    var barListe: ListView

    /** The controller keeps a time of day that `getHours` and `getMinutes` could report. */
    predicate Valid()
      reads this
    {
      ValidTime(currentDate)
    }

    /**
     * `new UIController(...)` at the local time `now`, with an empty search.
     * The page elements get placeholder values (an empty list, a count of 0,
     * position 0) that the source never writes; `Init` and the first refresh
     * overwrite them.
     */
    constructor (barManager: BarManager, sunCalculator: SunCalculator, mapManager: MapManager, now: LocalTime)
      requires ValidTime(now)
      ensures Valid()
      ensures this.barManager == barManager && this.sunCalculator == sunCalculator && this.mapManager == mapManager
      ensures currentDate == now && searchQuery == "" && searchBox == ""
      ensures barListe == NoneFound && antalMedSol == 0
    {
      this.barManager := barManager;
      this.sunCalculator := sunCalculator;
      this.mapManager := mapManager;
      currentDate := now;
      searchQuery := "";
      searchBox := "";
      timeText := "";
      sliderValue := 0;
      antalMedSol := 0;
      barListe := NoneFound;
    }

    /** `updateTimeDisplay()`: the time text of the current time. */
    method UpdateTimeDisplay()
      requires Valid()
      modifies this
      ensures Valid()
      ensures timeText == TimeText(currentDate.hour, currentDate.minute)
      ensures currentDate == old(currentDate) && searchQuery == old(searchQuery) && searchBox == old(searchBox)
      ensures sliderValue == old(sliderValue) && antalMedSol == old(antalMedSol) && barListe == old(barListe)
    {
      timeText := TimeText(currentDate.hour, currentDate.minute);
    }

    /** `init()`: the time text, then the slider placed at the current time. */
    method Init()
      requires Valid()
      modifies this
      ensures Valid()
      ensures timeText == TimeText(currentDate.hour, currentDate.minute)
      ensures sliderValue == SliderIndex(currentDate.hour, currentDate.minute) && 0 <= sliderValue < 96
      ensures SliderHours(sliderValue) == currentDate.hour
      ensures currentDate == old(currentDate) && searchQuery == old(searchQuery) && searchBox == old(searchBox)
      ensures antalMedSol == old(antalMedSol) && barListe == old(barListe)
    {
      UpdateTimeDisplay();
      sliderValue := SliderIndex(currentDate.hour, currentDate.minute);
      TimeRoundTrip(currentDate.hour, currentDate.minute);
    }

    /**
     * `updateBarList()`: the count of all sunlit bars and the list of the
     * search results, as `displayBars` returns them.
     */
    method UpdateBarList(lower: string -> string)
      modifies this, barManager.mapManager
      ensures Valid() == old(Valid())
      ensures antalMedSol == |SunlitBars(barManager.barerData)|
      ensures barListe == ListOf(SearchResults(barManager.barerData, searchQuery, lower))
      ensures barManager.mapManager.barSource == Some(PointFeatures(barManager.barerData))
      ensures barManager.mapManager.light == old(barManager.mapManager.light)
      ensures currentDate == old(currentDate) && searchQuery == old(searchQuery) && searchBox == old(searchBox)
      ensures timeText == old(timeText) && sliderValue == old(sliderValue)
    {
      var result := barManager.DisplayBars(searchQuery, lower);
      antalMedSol := result.total;
      if |result.filtered| == 0 {
        barListe := NoneFound;
        return;
      }
      barListe := Items(result.filtered);
    }

    /**
     * `refreshData()`: fetch the bars for the current time (`response` is
     * what the request yielded), redraw the list, then relight the map.
     */
    method RefreshData(response: Option<seq<Bar>>, lower: string -> string, instantOf: InstantOf, sunCalc: SunCalcFn)
      modifies this, barManager, barManager.mapManager, sunCalculator.mapManager
      ensures Valid() == old(Valid())
      ensures barManager.barerData == (if response.Some? then response.value else old(barManager.barerData))
      ensures antalMedSol == |SunlitBars(barManager.barerData)|
      ensures barListe == ListOf(SearchResults(barManager.barerData, searchQuery, lower))
      ensures barManager.mapManager.barSource == Some(PointFeatures(barManager.barerData))
      ensures sunCalculator.mapManager.light ==
                Some(SunLight(sunCalc(sunCalculator.location.lat, sunCalculator.location.lng, instantOf(currentDate)),
                              currentDate.hour))
      ensures currentDate == old(currentDate) && searchQuery == old(searchQuery) && searchBox == old(searchBox)
      ensures timeText == old(timeText) && sliderValue == old(sliderValue)
    {
      var _ := barManager.FetchBars(response);
      UpdateBarList(lower);
      sunCalculator.UpdateSunLight(currentDate, instantOf, sunCalc);
    }

    /**
     * The slider's `input` handler for position `value`: the same day at
     * the selected quarter hour, then the time text and a refresh.
     */
    method OnSliderInput(value: int, response: Option<seq<Bar>>, lower: string -> string,
                         instantOf: InstantOf, sunCalc: SunCalcFn)
      requires 0 <= value < 96
      modifies this, barManager, barManager.mapManager, sunCalculator.mapManager
      ensures Valid()
      ensures currentDate == old(currentDate).(hour := SliderHours(value), minute := SliderMinutes(value))
      ensures SliderIndex(currentDate.hour, currentDate.minute) == value
      ensures timeText == TimeText(currentDate.hour, currentDate.minute)
      ensures barManager.barerData == (if response.Some? then response.value else old(barManager.barerData))
      ensures antalMedSol == |SunlitBars(barManager.barerData)|
      ensures barListe == ListOf(SearchResults(barManager.barerData, searchQuery, lower))
      ensures barManager.mapManager.barSource == Some(PointFeatures(barManager.barerData))
      ensures sunCalculator.mapManager.light ==
                Some(SunLight(sunCalc(sunCalculator.location.lat, sunCalculator.location.lng, instantOf(currentDate)),
                              currentDate.hour))
      ensures searchQuery == old(searchQuery) && searchBox == old(searchBox) && sliderValue == value
    {
      sliderValue := value;
      currentDate := currentDate.(hour := SliderHours(value), minute := SliderMinutes(value));
      SliderRoundTrip(value);
      UpdateTimeDisplay();
      RefreshData(response, lower, instantOf, sunCalc);
    }

    /** The `prevDay` (`delta` = -1) and `nextDay` (`delta` = 1) buttons: move a day, keep the time. */
    method OnDayChange(delta: int, response: Option<seq<Bar>>, lower: string -> string,
                       instantOf: InstantOf, sunCalc: SunCalcFn)
      requires Valid()
      requires delta == -1 || delta == 1
      modifies this, barManager, barManager.mapManager, sunCalculator.mapManager
      ensures Valid()
      ensures currentDate == old(currentDate).(day := old(currentDate).day + delta)
      ensures timeText == TimeText(currentDate.hour, currentDate.minute)
      ensures barManager.barerData == (if response.Some? then response.value else old(barManager.barerData))
      ensures antalMedSol == |SunlitBars(barManager.barerData)|
      ensures barListe == ListOf(SearchResults(barManager.barerData, searchQuery, lower))
      ensures barManager.mapManager.barSource == Some(PointFeatures(barManager.barerData))
      ensures sunCalculator.mapManager.light ==
                Some(SunLight(sunCalc(sunCalculator.location.lat, sunCalculator.location.lng, instantOf(currentDate)),
                              currentDate.hour))
      ensures searchQuery == old(searchQuery) && searchBox == old(searchBox) && sliderValue == old(sliderValue)
    {
      currentDate := currentDate.(day := currentDate.day + delta);
      UpdateTimeDisplay();
      RefreshData(response, lower, instantOf, sunCalc);
    }

    /** The search box's `input` handler: the typed text becomes the query and the list is redrawn. */
    method OnSearchInput(value: string, lower: string -> string)
      modifies this, barManager.mapManager
      ensures Valid() == old(Valid())
      ensures searchQuery == value && searchBox == value
      ensures antalMedSol == |SunlitBars(barManager.barerData)|
      ensures barListe == ListOf(SearchResults(barManager.barerData, value, lower))
      ensures barManager.mapManager.barSource == Some(PointFeatures(barManager.barerData))
      ensures barManager.mapManager.light == old(barManager.mapManager.light)
      ensures currentDate == old(currentDate) && timeText == old(timeText) && sliderValue == old(sliderValue)
    {
      searchQuery := value;
      searchBox := value;
      UpdateBarList(lower);
    }

    /**
     * The search box's `keydown` handler: Escape empties the box and the
     * query, and the list goes back to every sunlit bar; other keys do nothing.
     */
    method OnKeyDown(key: string, lower: string -> string)
      modifies this, barManager.mapManager
      ensures Valid() == old(Valid())
      ensures key == "Escape" ==>
                searchQuery == "" && searchBox == "" &&
                antalMedSol == |SunlitBars(barManager.barerData)| &&
                barListe == ListOf(SunlitBars(barManager.barerData)) &&
                barManager.mapManager.barSource == Some(PointFeatures(barManager.barerData))
      ensures barManager.mapManager.light == old(barManager.mapManager.light)
      ensures key != "Escape" ==>
                searchQuery == old(searchQuery) && searchBox == old(searchBox) &&
                antalMedSol == old(antalMedSol) && barListe == old(barListe) &&
                barManager.mapManager.barSource == old(barManager.mapManager.barSource)
      ensures currentDate == old(currentDate) && timeText == old(timeText) && sliderValue == old(sliderValue)
    {
      if key == "Escape" {
        searchBox := "";
        searchQuery := "";
        UpdateBarList(lower);
      }
    }
  }
}
