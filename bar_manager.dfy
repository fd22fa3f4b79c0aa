/**
 * The client's bar list (`public/js/modules/barManager.js`): the bars read
 * from `/api/barer`, the sunlit bars matching a search, their count, the
 * point features of the `barer` source, the rewriting of opening hours and
 * the sunlit test of the popup. `toLowerCase` is a parameter.
 */
module BarList {
  import opened Common
  import opened Records
  import opened Maps

  /** `barerData.filter(bar => bar.harSol)`. */
  function SunlitBars(bars: seq<Bar>): (r: seq<Bar>)
    ensures Subseq(r, bars)
    ensures forall b :: b in r <==> b in bars && HarSol(b)
    ensures forall b :: multiset(r)[b] == if HarSol(b) then multiset(bars)[b] else 0
    ensures forall i :: 0 <= i < |r| ==> HarSol(r[i])
  {
    FilterIsSubseq(bars, b => HarSol(b));
    FilterMultiset(bars, b => HarSol(b));
    Filter(bars, b => HarSol(b))
  }

  /** The search test: the lower-cased name or city contains the lower-cased query. */
  predicate MatchesQuery(b: Bar, query: string, lower: string -> string): (r: bool)
    ensures r ==> |lower(query)| <= |lower(b.navn)| || |lower(query)| <= |lower(b.city)|
  {
    Contains(lower(b.navn), lower(query)) || Contains(lower(b.city), lower(query))
  }

  /**
   * The `filtered` list of `displayBars(searchQuery)`: the sunlit bars, and
   * when the query is not empty only those matching it, in their order.
   */
  function SearchResults(bars: seq<Bar>, query: string, lower: string -> string): (r: seq<Bar>)
    ensures Subseq(r, SunlitBars(bars)) && Subseq(r, bars)
    ensures forall b :: b in r <==> b in bars && HarSol(b) && (query == "" || MatchesQuery(b, query, lower))
    ensures forall b :: multiset(r)[b] ==
              if HarSol(b) && (query == "" || MatchesQuery(b, query, lower)) then multiset(bars)[b] else 0
    ensures query == "" ==> r == SunlitBars(bars)
  {
    var sunlit := SunlitBars(bars);
    if query == "" then
      SubseqRefl(sunlit);
      sunlit
    else
      var matching := Filter(sunlit, b => MatchesQuery(b, query, lower));
      FilterIsSubseq(sunlit, b => MatchesQuery(b, query, lower));
      FilterMultiset(sunlit, b => MatchesQuery(b, query, lower));
      SubseqTrans(matching, sunlit, bars);
      matching
  }

  /**
   * The search results are the sunlit bars, filtered by the search test when
   * the query is not empty. A proof helper: `LegacyApp.VisBarer` uses it to
   * read its list off `SearchResults`.
   */
  lemma SearchResultsFilter(bars: seq<Bar>, query: string, lower: string -> string)
    ensures SearchResults(bars, query, lower) ==
              if query == "" then SunlitBars(bars) else Filter(SunlitBars(bars), b => MatchesQuery(b, query, lower))
  {
  }

  /**
   * The empty-query guard only saves work: when `toLowerCase` keeps the
   * empty string empty, every bar matches the empty query anyway.
   */
  lemma {:induction false} EmptyQueryMatchesEverySunlitBar(bars: seq<Bar>, lower: string -> string)
    requires lower("") == ""
    ensures Filter(SunlitBars(bars), b => MatchesQuery(b, "", lower)) == SunlitBars(bars)
  {
    forall b: Bar
      ensures MatchesQuery(b, "", lower)
    {
      assert OccursAt(lower(b.navn), "", 0);
      ContainsAt(lower(b.navn), "", 0);
    }
    FilterAll(SunlitBars(bars), b => MatchesQuery(b, "", lower));
  }

  lemma {:induction false} FilterAll<T>(s: seq<T>, p: T -> bool)
    requires forall x :: p(x)
    ensures Filter(s, p) == s
  {
    if s != [] {
      FilterAll(s[1..], p);
      assert [s[0]] + s[1..] == s;
    }
  }

  /** The object `displayBars` returns. */
  datatype DisplayResult = DisplayResult(filtered: seq<Bar>, total: int)

  /**
   * `{ filtered, total }`: the search results, and the number of all sunlit
   * bars, which the query does not affect and which bounds the results.
   */
  function Display(bars: seq<Bar>, query: string, lower: string -> string): (r: DisplayResult)
    ensures r.filtered == SearchResults(bars, query, lower)
    ensures r.total == |SunlitBars(bars)|
    ensures 0 <= |r.filtered| <= r.total <= |bars|
    ensures query == "" ==> |r.filtered| == r.total
  {
    var filtered := SearchResults(bars, query, lower);
    SubseqLength(filtered, SunlitBars(bars));
    DisplayResult(filtered, |SunlitBars(bars)|)
  }

  /** `{ type: 'Feature', geometry: { coordinates: [bar.lng, bar.lat] }, properties: { ...bar } }`. */
  function PointFeatureOf(bar: Bar): PointFeature
  {
    PointFeature(bar.lng, bar.lat, AllFields(bar))
  }

  /** The features of the `barer` source: one per bar, sunlit or not, in order. */
  function PointFeatures(bars: seq<Bar>): (r: seq<PointFeature>)
    ensures |r| == |bars|
    ensures forall i :: 0 <= i < |r| ==>
              r[i].lng == bars[i].lng && r[i].lat == bars[i].lat && r[i].properties == AllFields(bars[i])
  {
    seq(|bars|, i requires 0 <= i < |bars| => PointFeatureOf(bars[i]))
  }

  /** What a click on a feature hands back as the bar: its spread properties. */
  function FeatureBar(f: PointFeature): Option<Bar>
  {
    if f.properties.AllFields? then Some(f.properties.bar) else None
  }

  /** The bar each feature carries, in order; `None` if one of them is not a full bar record. */
  function BarsOf(features: seq<PointFeature>): Option<seq<Bar>>
  {
    if features == [] then Some([])
    else
      match (FeatureBar(features[0]), BarsOf(features[1..]))
      case (Some(b), Some(rest)) => Some([b] + rest)
      case _ => None
  }

  /** The features describe the bars completely: reading them back gives `barerData`. */
  lemma {:induction false} PointFeaturesRoundTrip(bars: seq<Bar>)
    ensures BarsOf(PointFeatures(bars)) == Some(bars)
  {
    if bars != [] {
      assert PointFeatures(bars)[1..] == PointFeatures(bars[1..]);
      PointFeaturesRoundTrip(bars[1..]);
      assert [bars[0]] + bars[1..] == bars;
    }
  }

  /**
   * `_formatOpeningHours(hours)`: every `;` becomes `<br/>`, then every `,`
   * becomes `", "`. No `;` is left, the commas stay as many as they were,
   * and the text grows by four characters per `;` and one per `,`.
   */
  function FormatOpeningHours(hours: string): (r: string)
    ensures ';' !in r
    ensures Count(r, ',') == Count(hours, ',')
    ensures |r| == |hours| + 4 * Count(hours, ';') + Count(hours, ',')
  {
    RewriteCounts(hours);
    ReplaceAll(ReplaceAll(hours, ';', "<br/>"), ',', ", ")
  }

  /** The counting facts behind `FormatOpeningHours`, one replacement at a time. */
  lemma {:induction false} RewriteCounts(hours: string)
    ensures ';' !in ReplaceAll(ReplaceAll(hours, ';', "<br/>"), ',', ", ")
    ensures Count(ReplaceAll(ReplaceAll(hours, ';', "<br/>"), ',', ", "), ',') == Count(hours, ',')
    ensures |ReplaceAll(ReplaceAll(hours, ';', "<br/>"), ',', ", ")| == |hours| + 4 * Count(hours, ';') + Count(hours, ',')
  {
    var lines := ReplaceAll(hours, ';', "<br/>");
    var r := ReplaceAll(lines, ',', ", ");
    assert ';' !in r by {
      assert ';' !in lines;
    }
    var semis, commas := Count(hours, ';'), Count(hours, ',');
    assert |lines| == |hours| + 4 * semis by {
      ReplaceAllLength(hours, ';', "<br/>");
      assert |"<br/>"| == 5;
    }
    assert Count(lines, ',') == commas by {
      ReplaceAllKeepsCount(hours, ';', "<br/>", ',');
    }
    assert |r| == |lines| + commas by {
      ReplaceAllLength(lines, ',', ", ");
      assert |", "| == 2;
    }
    CommaRewriteKeepsCommas(lines);
  }

  /** The second replacement puts back exactly one comma for each comma it finds. */
  lemma {:induction false} CommaRewriteKeepsCommas(s: string)
    ensures Count(ReplaceAll(s, ',', ", "), ',') == Count(s, ',')
  {
    if s != [] {
      CommaRewriteKeepsCommas(s[1..]);
      var head := if s[0] == ',' then ", " else [s[0]];
      CountAppend(head, ReplaceAll(s[1..], ',', ", "), ',');
      assert Count(head, ',') == (if s[0] == ',' then 1 else 0) + Count(head[1..], ',');
      if s[0] == ',' {
        assert Count(head[1..], ',') == 0 + Count(head[2..], ',');
      }
    }
  }

  /** Reference definition: the same rewriting as one pass over the characters. */
  function RewriteChar(c: char): string
  {
    if c == ';' then "<br/>" else if c == ',' then ", " else [c]
  }

  function OnePass(hours: string): string
  {
    if hours == [] then "" else RewriteChar(hours[0]) + OnePass(hours[1..])
  }

  /** The two chained replacements do what one pass does: the output of the first has no commas of its own. */
  lemma {:induction false} FormatOpeningHoursIsOnePass(hours: string)
    ensures FormatOpeningHours(hours) == OnePass(hours)
  {
    if hours != [] {
      var c := hours[0];
      var head := if c == ';' then "<br/>" else [c];
      var tail := ReplaceAll(hours[1..], ';', "<br/>");
      assert ReplaceAll(hours, ';', "<br/>") == head + tail;
      ReplaceAllAppend(head, tail, ',', ", ");
      FormatOpeningHoursIsOnePass(hours[1..]);
      if c == ';' {
        assert ReplaceAll(head, ',', ", ") == "<br/>" by {
          assert head == ['<'] + ['b', 'r', '/', '>'];
          assert head[1..] == ['b', 'r', '/', '>'];
          assert head[1..][1..] == ['r', '/', '>'];
          assert head[1..][1..][1..] == ['/', '>'];
          assert head[1..][1..][1..][1..] == ['>'];
          assert head[1..][1..][1..][1..][1..] == [];
        }
      } else {
        assert ReplaceAll(head, ',', ", ") == (if c == ',' then ", " else [c]) + ReplaceAll(head[1..], ',', ", ");
        assert head[1..] == [];
      }
    }
  }

  /** A property value as the popup receives it: a boolean, a string, or absent. */
  datatype PropValue = BoolValue(b: bool) | StringValue(s: string) | Missing

  /** `properties.harSol === 'true' || properties.harSol === true`. */
  predicate PopupSunlit(harSol: PropValue): (r: bool)
    ensures harSol.Missing? ==> !r
    ensures r ==> harSol.BoolValue? || harSol.StringValue?
  {
    harSol == StringValue("true") || harSol == BoolValue(true)
  }

  /** The `harSol` property of a bar's feature, read directly. */
  function HarSolProp(b: Bar): PropValue
  {
    if b.sun.Some? then BoolValue(b.sun.value.harSol) else Missing
  }

  /** The same property after the map has turned it into text. */
  function Serialise(p: PropValue): PropValue
  {
    match p
    case BoolValue(x) => StringValue(if x then "true" else "false")
    case _ => p
  }

  /**
   * The popup says "sunlit" exactly for the bars the list counts as sunlit,
   * whether the feature property arrives as a boolean or as its text.
   */
  lemma {:induction false} PopupAgreesWithHarSol(b: Bar)
    ensures PopupSunlit(HarSolProp(b)) <==> HarSol(b)
    ensures PopupSunlit(Serialise(HarSolProp(b))) <==> HarSol(b)
  {
    if b.sun.Some? && !b.sun.value.harSol {
      assert "false" != "true" by {
        assert "false"[0] != "true"[0];
      }
    }
  }

  /** The modular client's `BarManager`: the bars last read from the server, drawn on `mapManager`. */
  class BarManager {
    const mapManager: MapManager
    var barerData: seq<Bar>

    constructor (mapManager: MapManager)
      ensures this.mapManager == mapManager && barerData == []
    {
      this.mapManager := mapManager;
      barerData := [];
    }

    /**
     * `fetchBars(timestamp)`, where `response` is the parsed body of the
     * request or `None` when the request or the parsing threw: on success
     * the bars replace `barerData` and are returned; on failure `[]` is
     * returned and `barerData` stays as it was.
     */
    method FetchBars(response: Option<seq<Bar>>) returns (bars: seq<Bar>)
      modifies this
      ensures response.Some? ==> barerData == response.value && bars == response.value
      ensures response.None? ==> barerData == old(barerData) && bars == []
    {
      if response.None? {
        return [];
      }
      barerData := response.value;
      bars := barerData;
    }

    /**
     * `displayBars(searchQuery)`: the `barer` source gets one feature per
     * bar, and the result is the search results with the sunlit count.
     */
    method DisplayBars(searchQuery: string, lower: string -> string) returns (result: DisplayResult)
      modifies mapManager
      ensures result == Display(barerData, searchQuery, lower)
      ensures mapManager.barSource == Some(PointFeatures(barerData))
      ensures mapManager.light == old(mapManager.light)
    {
      var filteredBars := SunlitBars(barerData);
      if searchQuery != "" {
        filteredBars := Filter(filteredBars, b => MatchesQuery(b, searchQuery, lower));
      }
      var features := PointFeatures(barerData);
      mapManager.SetBarSource(features);
      result := DisplayResult(filteredBars, |SunlitBars(barerData)|);
    }
  }
}
