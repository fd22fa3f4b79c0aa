# SolskinsBar in Dafny

SolskinsBar shows which bars in Aarhus have sun on their facade right now.

- **Server.** It reads bars from OpenStreetMap through the Overpass API and keeps them in a one-hour cache, with a fixed list of ten bars as a fallback. It classifies each bar as sunlit or not from the sun's altitude and azimuth and the compass direction the bar faces (`retning`: `nord`, `øst`, `syd`, `vest`).
- **Clients.** Two browser clients draw the bars on a 3D map:
  - a modular one (`public/js/modules/*`);
  - an older single-script one (`public/js/app.js`).

  Both light the map by the time of day. They list the sunlit bars that match a search, and a 15-minute slider and day buttons move through time.

This project models that logic and proves its properties. Two modules hold what several files share: `Common` (JavaScript built-ins) and `Records` (the records the files pass to one another). Each other module models one source file, and the legacy script's duplicated code reuses the modules of the modular client:

| module | file | models |
|---|---|---|
| `Common` | `common.dfy` | JavaScript helpers used throughout: `||` chains, truncating `%`, `filter`, `includes`, `replace(/c/g, …)` |
| `Records` | `records.dfy` | the bar record, the Overpass element, sun positions; truthiness of tags and numbers |
| `SunService` | `sun_service.dfy` | `src/services/sunService.js`: the sun-exposure classifier |
| `OverpassService` | `overpass_service.dfy` | `src/services/overpassService.js`: turning Overpass elements into bars |
| `BarData` | `bars.dfy` | `src/models/bars.js`: the cache as a class, the fallback list, the lookups |
| `BarController` | `bar_controller.dfy` | `src/controllers/barController.js`: sun status for every bar, sun times of one bar |
| `Maps` | `map_manager.dfy` | `public/js/modules/mapManager.js`: the map state the clients write; OSM buildings to polygons |
| `SunCalculator` | `sun_calculator.dfy` | `public/js/modules/sunCalculator.js`: light colour by hour, intensity by altitude |
| `BarList` | `bar_manager.dfy` | `public/js/modules/barManager.js`: sunlit and search filtering, count, features, opening hours, popup test |
| `Ui` | `ui.dfy` | `public/js/modules/uiController.js`: slider arithmetic, `HH:MM` text, search box, list |
| `LegacyClient` | `app.dfy` | `public/js/app.js`: the same page over module-level variables |

What the source computes step by step is modelled step by step:

- The cache, the managers and the two pages are classes. Their fields are what the source reassigns.
- `parseOSMBars` and the building conversion are methods with loops. Each loop is proved against a function that specifies its result.
- `buildAddress` is a method that builds its list of parts step by step, without a loop. It is proved equal to the function `Address`.
- Pure code is functions and lemmas.

Anything outside the program becomes a parameter of type `…Fn` or a plain argument:

- SunCalc's `getPosition`, already converted to degrees, and `getTimes`;
- `toLowerCase` and `parseInt` (`None` stands for NaN);
- the clock and the local time of an instant;
- the outcome of each fetch.

The server's cache and the modular client's components are separate objects. Their relations (`BarManager.mapManager`, `SunCalculator.mapManager`) are explicit fields. The proofs allow the managers to share one map or to use different ones.

Three points of the source are easy to misread. The model follows the source exactly:

- **Azimuth.** SunCalc's azimuth is measured from south and lies in [-180, 180]. The source rotates it by `(azimuth + 180) % 360` to get a compass bearing. `SunService.SunlitIffFacing` proves that for every azimuth of at least -180, `hasBarSunlight` is exactly "the compass bearing `azimuth + 180` is within 60 degrees of the facade's bearing, modulo whole turns".
- **Orientation names.** The orientations are the Danish keys `nord`, `øst`, `syd` and `vest` of `DIRECTIONS`. Any other string gives `undefined`, then NaN, then `false`.
- **Cache check.** Beyond the hour-long expiry, the cache check also treats a `lastFetchTime` of 0 as missing, because 0 is falsy in JavaScript.

## Model

| member | source | states |
|---|---|---|
| `Common.JsRem360` | src/services/sunService.js:35 | JavaScript's `% 360`: whole turns off the dividend, in [0, 360) for a non-negative one and in (-360, 0] for a non-positive one |
| `Common.JsRemInt` | public/js/modules/uiController.js:59 | JavaScript's `%` on integers: Dafny's `%` for a non-negative dividend, in (-b, 0] for a negative one |
| `Common.Contains` | public/js/modules/barManager.js:42-43 | `includes`: the empty text is in every string, and a contained text is never longer |
| `Common.ReplaceAll` | public/js/modules/barManager.js:253 | `replace(/c/g, rep)`: no `c` is left unless `rep` holds one; other characters are kept, and nothing else is added |
| `Common.FilterMultiset` | public/js/modules/barManager.js:37 | `filter` keeps each satisfying element exactly as often as it occurs, and no other |
| `SunService.Bearing` | src/services/sunService.js:11-16 | an orientation has a bearing iff it is one of the four keys; the bearing is the table's, in [0, 360) |
| `SunService.DirectionTable` | src/services/sunService.js:11-16 | the table's keys are exactly `nord`, `øst`, `syd`, `vest`, with bearings 0, 90, 180, 270 |
| `SunService.NormalizeAzimuth` | src/services/sunService.js:35 | `(azimuth + 180) % 360` lies in [0, 360) for every azimuth of at least -180; on [-180, 180] it is `azimuth + 180`, except that 180 wraps to 0 |
| `SunService.ShortestArc` | src/services/sunService.js:39-40 | `min(d, 360 - d)` lies in [0, 180] for angles in [0, 360) and never exceeds the plain difference |
| `SunService.HasSunlight` | src/services/sunService.js:29-42 | below the horizon, or with an unknown orientation, the result is false; a true result means the shortest arc is at most 60 |
| `SunService.SunlitIffFacing` | src/services/sunService.js:24-43 | both directions: sunlit iff altitude ≥ 0, the orientation is known, and the sun's compass bearing is within 60 degrees of the facade modulo whole turns |
| `SunService.FacesSunShift` | src/services/sunService.js:35 | whole turns added to the sun's bearing do not change whether it faces a facade: the `% 360` loses nothing |
| `SunService.ArcWithinIffFaces` | src/services/sunService.js:39-42 | both directions: on normalised bearings, the shortest-arc test agrees with the turn-invariant reference definition |
| `SunService.AzimuthEndsAgree` | src/services/sunService.js:35-42 | azimuths -180 and 180, the same compass bearing, classify alike |
| `SunService.BoundaryCases` | src/services/sunService.js:30-42 | altitude exactly 0 is sunlit (the test is strict `< 0`); an arc of exactly 60 is sunlit |
| `SunService.WorkedCases` | src/services/sunService.js:29-42 | west facade at bearing 250 is sunlit; north facade at bearing 200 is not; altitude -5 is not; an unknown orientation is not |
| `SunService.HasBarSunlight` | src/services/sunService.js:24-43 | SunCalc at the bar's coordinates below the horizon, or an unknown `retning`, gives false |
| `SunService.CalculateBarSunInfo` | src/services/sunService.js:73-84 | `hasLight` is the classifier's verdict on the very position reported in `sunPosition` |
| `SunService.SunInfoIgnoresIdentity` | src/services/sunService.js:73-84 | bars with the same coordinates and orientation get the same sun info, whatever their id or name |
| `OverpassService.Latitude` | src/services/overpassService.js:60 | a usable latitude is never 0 and is the element's own or its centre's |
| `OverpassService.Longitude` | src/services/overpassService.js:61 | a usable longitude is never 0 and is the element's own or its centre's |
| `OverpassService.Kept` | src/services/overpassService.js:56-63 | a kept element is never a relation, has tags, and has two non-zero coordinates |
| `OverpassService.CoordinatePreference` | src/services/overpassService.js:60-63 | `element.lat` is used when truthy, otherwise `center.lat`; a usable latitude is never 0 |
| `OverpassService.BarName` | src/services/overpassService.js:57 | the name falls back from `name` to `name:da` to `Unavngiven bar`, skipping empty values, and is never empty |
| `OverpassService.BuildAddress` | src/services/overpassService.js:101-119 | null iff neither street nor city; a house number only after a street, a postcode only before a city, parts joined by `", "` |
| `OverpassService.Address` | src/services/overpassService.js:101-119 | the same address as a function: null iff neither street nor city |
| `OverpassService.DetermineCityFromCoords` | src/services/overpassService.js:127-149 | the four boxes are disjoint, so each city is returned iff the point lies in its inclusive box, and `Ukendt` iff in none |
| `OverpassService.DetermineOrientation` | src/services/overpassService.js:158-172 | always one of the four keys; `nord`/`syd` iff the latitude offset is strictly larger; the sign picks the side, ties go to `vest`/`øst` |
| `OverpassService.OrientationMaximisesProjection` | src/services/overpassService.js:158-172 | the chosen orientation has the largest projection of the offset from the centre among the four |
| `OverpassService.CentreFacesWest` | src/services/overpassService.js:167-171 | the exact centre gives `vest` |
| `OverpassService.ToBar` | src/services/overpassService.js:71-89 | a kept element becomes a bar with the given id, a non-empty name, its coordinates, the city and orientation those coordinates give (a city from `Cities`: one of the four box cities, `Ukendt` outside the four boxes), and its OSM id and type |
| `OverpassService.KeptElements` | src/services/overpassService.js:55-63 | the kept elements are an order-preserving subsequence: exactly the node/way elements with tags and truthy coordinates, each as often as in the input |
| `OverpassService.ParsedSnoc` | src/services/overpassService.js:55-91 | one more element adds one bar with the next id if it is kept, and nothing otherwise |
| `OverpassService.ParseOSMBars` | src/services/overpassService.js:51-94 | one bar per kept element, in input order, never more than the elements, with ids exactly 1..n |
| `OverpassService.ElementToBar` | src/services/overpassService.js:56-89 | the `forEach` body produces a bar iff the element is kept, and then the bar `ToBar` describes |
| `BarData.CacheHit` | src/models/bars.js:22 | a hit needs a cache, a fetch time and less than an hour since it; a forced refresh, a missing cache or a missing or zero fetch time never hits |
| `BarData.ExpiresAtOneHour` | src/models/bars.js:11-24 | with a cache and a truthy fetch time, a hit iff less than one hour has passed: fresh at 3599999 ms, stale at 3600000 |
| `BarData.MissWhenForcedOrCleared` | src/models/bars.js:22 | a forced refresh, or an empty cache, never hits |
| `BarData.FallbackBars` | src/models/bars.js:55-67 | ten bars with ids 1..10, all in Aarhus, each orientation one of the four keys |
| `BarData.FindById` | src/models/bars.js:77 | none iff no bar has the id (a NaN id matches none); otherwise the first bar with that id |
| `BarData.FindFallbackBar` | src/models/bars.js:55-78 | each id 1..10 finds its fallback bar |
| `BarData.BarsInCity` | src/models/bars.js:85-88 | an order-preserving subsequence holding exactly the bars whose lower-cased city matches, each as often as in the input |
| `BarData.BarCache.constructor` | src/models/bars.js:9-10 | both fields start as null |
| `BarData.BarCache.GetAllBars` | src/models/bars.js:18-49 | a fetch is attempted iff the cache misses (the whole step is the predicate `CacheStep`); a hit changes nothing; success stores the bars and `now`; failure keeps the cache, or installs the fallback list when there is none, and keeps the time; the result is the new cache |
| `BarData.BarCache.ClearCache` | src/models/bars.js:93-96 | both fields null, after which no call hits |
| `BarData.BarCache.GetBarById` | src/models/bars.js:75-78 | the cache steps as in `getAllBars(false)` (a hit keeps it; a fetch stores its bars and `now`; a failure keeps the cache or installs the fallback list), and the result is the first bar of the new cache with the id |
| `BarData.BarCache.GetBarsByCity` | src/models/bars.js:85-88 | the cache steps as in `getAllBars(false)`, and the result is the bars of the new cache in that city |
| `BarData.RefreshAfterClear` | src/models/bars.js:18-49 | after `clearCache` the next call fetches: the fetched bars, or the fallback list with no fetch time |
| `BarController.WithSunlight` | src/controllers/barController.js:17-24 | one record per bar in order, every original field kept, `harSol` the classifier's verdict and `solInfo` its position |
| `BarController.WithSunlightIdempotent` | src/controllers/barController.js:17-24 | adding the sun status twice at one instant is adding it once |
| `BarController.WithSunlightAppend` | src/controllers/barController.js:17-24 | the map commutes with concatenation: each bar is classified on its own |
| `BarController.SunTimesFor` | src/controllers/barController.js:33-47 | null iff no bar has the id; otherwise that first bar with sunrise, sunset and solar noon at its coordinates |
| `BarController.GetBarsWithSunlight` | src/controllers/barController.js:14-25 | the cache steps as in `getAllBars(false)`, with a fetch iff it missed; the result is the sun-status map over the new cache |
| `BarController.GetBarSunTimes` | src/controllers/barController.js:32-48 | the cache steps as in `getAllBars(false)`, with a fetch iff it missed; the result is the sun times of the bar looked up in the new cache, or null |
| `Maps.MapManager.constructor` | public/js/modules/mapManager.js:7-55 | a new map has no light set and no bar source |
| `Maps.MapManager.SetLight` | public/js/modules/mapManager.js:210-212 | the light is replaced, the bar source untouched |
| `Maps.MapManager.SetBarSource` | public/js/modules/barManager.js:60-67 | the `barer` source holds the features, created or updated; the light untouched |
| `Maps.NodeTable` | public/js/modules/mapManager.js:116-120 | the node table has at most one entry per element |
| `Maps.NodeTableKeys` | public/js/modules/mapManager.js:116-120 | an id is in the node table iff some node element carries it |
| `Maps.NodeTableLastWins` | public/js/modules/mapManager.js:116-120 | an id's entry is the `[lon, lat]` of the last node with that id |
| `Maps.NodeTableSnoc` | public/js/modules/mapManager.js:116-120 | one more element updates its id's entry if it is a node and leaves the table alone otherwise |
| `Maps.NodeTableOnlyNodes` | public/js/modules/mapManager.js:116-120 | the table depends only on the node elements, in order |
| `Maps.Resolve` | public/js/modules/mapManager.js:125 | the ring is never longer than the reference list, and every corner comes from the node table |
| `Maps.ResolveSpec` | public/js/modules/mapManager.js:125 | the ring is the resolving references looked up one for one: missing nodes dropped, order kept |
| `Maps.ResolveComplete` | public/js/modules/mapManager.js:125 | when every reference resolves, the ring has one corner per reference |
| `Maps.PresentAll` | public/js/modules/mapManager.js:125 | when every reference resolves, none is dropped |
| `Maps.BuildingHeight` | public/js/modules/mapManager.js:127 | 9 when neither `building:levels` nor `height` is truthy; otherwise 3 times the parse of the first truthy one |
| `Maps.BuildingsWellFormed` | public/js/modules/mapManager.js:123-141 | at most one feature per element, each with at least 3 corners and base height 0 |
| `Maps.BuildingsSnoc` | public/js/modules/mapManager.js:123-141 | features come in the order of their ways: one more element appends its feature, if any |
| `Maps.BuildingsOnlyWays` | public/js/modules/mapManager.js:124 | only way elements with a truthy `building` tag contribute; relations and nodes never do |
| `Maps.NoWaysNoBuildings` | public/js/modules/mapManager.js:123-143 | a response without building ways gives no features |
| `Maps.ConversionIgnoresInterleaving` | public/js/modules/mapManager.js:111-144 | responses with the same nodes and the same building ways, in any interleaving, convert alike: nodes are stored before any way is read |
| `Maps.ConvertOSMToGeoJSON` | public/js/modules/mapManager.js:111-144 | the two loops compute the specified buildings, each with at least 3 corners and base 0 |
| `Maps.StoreNodes` | public/js/modules/mapManager.js:116-120 | the first loop builds exactly the node table |
| `Maps.BuildBuildings` | public/js/modules/mapManager.js:123-141 | the second loop builds exactly the specified features for the given table |
| `Maps.BuildingOf` | public/js/modules/mapManager.js:124-140 | one way's contribution: a feature iff it is a building way with at least 3 resolved corners |
| `SunCalculator.LightColor` | public/js/modules/sunCalculator.js:59-69 | each of the four colours iff the hour is in its band, with exact boundaries at 5, 7, 17 and 20 |
| `SunCalculator.LightColorMatchesTable` | public/js/modules/sunCalculator.js:59-69 | on every hour 0-23 the if-chain agrees with an hour-by-hour table, and gives one of the four colours |
| `SunCalculator.Intensity` | public/js/modules/sunCalculator.js:25 | above 0.4 for a risen sun, at most 0.9, `0.4 + alt/180` up to 90 degrees, and 0.9 exactly from 90 degrees |
| `SunCalculator.IntensityMonotone` | public/js/modules/sunCalculator.js:25 | a higher sun never gives a dimmer light |
| `SunCalculator.LightAltitude` | public/js/modules/sunCalculator.js:24 | at least 15, and the altitude itself from 15 upwards |
| `SunCalculator.SunLight` | public/js/modules/sunCalculator.js:16-52 | the night light iff the altitude is not above 0; otherwise the hour's colour, the intensity rule, and the server's azimuth normalisation |
| `SunCalculator.DaylightBrighterThanNight` | public/js/modules/sunCalculator.js:23-51 | any daylight is brighter than the 0.15 night light |
| `SunCalculator.SunCalculator.constructor` | public/js/modules/sunCalculator.js:7-10 | keeps the map and the location |
| `SunCalculator.SunCalculator.UpdateSunLight` | public/js/modules/sunCalculator.js:15-53 | the map's light becomes the light of SunCalc's position at the location and instant, with the local hour's colour |
| `BarList.SunlitBars` | public/js/modules/barManager.js:37 | an order-preserving subsequence holding exactly the bars whose `harSol` is true, each as often as in the input |
| `BarList.MatchesQuery` | public/js/modules/barManager.js:40-44 | a match needs the lower-cased query to be no longer than the lower-cased name or city it occurs in |
| `BarList.SearchResults` | public/js/modules/barManager.js:37-45 | a subsequence of the sunlit bars: a sunlit bar is kept iff the query is empty or its lower-cased name or city contains the lower-cased query, as often as it occurs; all sunlit bars for the empty query |
| `BarList.SearchResultsFilter` | public/js/modules/barManager.js:37-45 | the search results are the sunlit bars for the empty query, and otherwise exactly those sunlit bars whose name or city matches; the legacy list of app.js:181-191 relies on it |
| `BarList.EmptyQueryMatchesEverySunlitBar` | public/js/modules/barManager.js:39-44 | the empty-query guard changes nothing: every bar contains the empty query |
| `BarList.Display` | public/js/modules/barManager.js:33-73 | `filtered` is the search results and `total` the number of sunlit bars, independent of the query and never below `filtered`'s length |
| `BarList.PointFeatures` | public/js/modules/barManager.js:48-57 | one feature per bar, sunlit or not, in order, at `[lng, lat]` and carrying the whole record |
| `BarList.PointFeaturesRoundTrip` | public/js/modules/barManager.js:48-57 | reading the bars back from the features gives the bars |
| `BarList.FormatOpeningHours` | public/js/modules/barManager.js:251-254 | no `;` is left, the commas stay as many, and the length grows by 4 per `;` and 1 per `,` |
| `BarList.RewriteCounts` | public/js/modules/barManager.js:253 | the same counting facts, stated of the chained replacements |
| `BarList.CommaRewriteKeepsCommas` | public/js/modules/barManager.js:253 | replacing `,` by `", "` keeps the number of commas |
| `BarList.FormatOpeningHoursIsOnePass` | public/js/modules/barManager.js:253 | the two chained replacements equal one pass that rewrites each character: the first adds no commas |
| `BarList.PopupSunlit` | public/js/modules/barManager.js:171 | a missing `harSol` is never sunlit; a sunlit one is a boolean or a string |
| `BarList.PopupAgreesWithHarSol` | public/js/modules/barManager.js:171 | the popup says sunlit iff `harSol` is true, whether the property arrives as a boolean or as the text `'true'` |
| `BarList.BarManager.constructor` | public/js/modules/barManager.js:7-10 | keeps the map and starts with no bars |
| `BarList.BarManager.FetchBars` | public/js/modules/barManager.js:15-28 | success replaces and returns the bars; failure returns `[]` and keeps `barerData` |
| `BarList.BarManager.DisplayBars` | public/js/modules/barManager.js:33-73 | returns `{filtered, total}` as specified; the `barer` source gets one feature per bar; the light untouched |
| `Ui.SliderIndex` | public/js/modules/uiController.js:51-53 | for hours 0-23 and minutes 0-59 the position is in 0..95 |
| `Ui.SliderHours` | public/js/modules/uiController.js:58 | for positions 0..95 the hour is in 0..23 |
| `Ui.SliderMinutes` | public/js/modules/uiController.js:59 | the minute is 0, 15, 30 or 45 for a non-negative position, with JavaScript's `%` |
| `Ui.SliderRoundTrip` | public/js/modules/uiController.js:53-59 | every position 0..95 is the position of the time it selects |
| `Ui.TimeRoundTrip` | public/js/modules/uiController.js:53-59 | a time's position selects the same hour and the minute rounded down to a quarter |
| `Ui.Pad2` | public/js/modules/uiController.js:37-38 | `padStart(2, '0')` gives at least two characters, never fewer than it got, and leaves two or more unchanged |
| `Ui.TimeText` | public/js/modules/uiController.js:37-41 | the text is at least five characters, with the colon third for an hour below 100 |
| `Ui.NatToStringShape` | public/js/modules/uiController.js:37-38 | the decimal text of a number is digits only: one digit below 10, two below 100 |
| `Ui.NatToStringValue` | public/js/modules/uiController.js:37-38 | reading the decimal text back gives the number |
| `Ui.Pad2Shape` | public/js/modules/uiController.js:37-38 | `padStart(2, '0')` keeps the text as a suffix, fills to two characters with `'0'` |
| `Ui.Pad2Value` | public/js/modules/uiController.js:37-38 | padding with zeros does not change the value the digits denote |
| `Ui.TwoDigitField` | public/js/modules/uiController.js:37-38 | a number below 100 pads to two digits that read back as the number |
| `Ui.TimeTextRoundTrip` | public/js/modules/uiController.js:37-41 | the time text is `HH:MM`: five characters, a colon in the middle, digits elsewhere, reading back as the hour and the minute |
| `Ui.ListOf` | public/js/modules/uiController.js:126-131 | the "none found" message iff the result is empty |
| `Ui.ListShowsMatches` | public/js/modules/uiController.js:119-131 | "none found" iff no sunlit bar matches the search; otherwise the list holds exactly the matching sunlit bars |
| `Ui.UiController.constructor` | public/js/modules/uiController.js:7-13 | keeps its three components, the current time, an empty search |
| `Ui.UiController.UpdateTimeDisplay` | public/js/modules/uiController.js:28-42 | the time text of the current time; nothing else changes |
| `Ui.UiController.Init` | public/js/modules/uiController.js:18-23 | the time text, and the slider at the current time's position in 0..95 |
| `Ui.UiController.UpdateBarList` | public/js/modules/uiController.js:118-163 | the count is the number of sunlit bars; the list is the search results, or "none found" when they are empty |
| `Ui.UiController.RefreshData` | public/js/modules/uiController.js:109-113 | fetched bars replace the old ones (a failure keeps them), the list and count follow, and the map's light is that of the current time |
| `Ui.UiController.OnSliderInput` | public/js/modules/uiController.js:56-66 | the slider at `value`, the same day at the selected quarter hour, whose position is `value`; time text, bars, count, list, `barer` source and light follow |
| `Ui.UiController.OnDayChange` | public/js/modules/uiController.js:72-84 | one day back or forward at the same time; time text, bars, count, list, `barer` source and light follow |
| `Ui.UiController.OnSearchInput` | public/js/modules/uiController.js:92-95 | the typed text becomes the query; the count, the list and the `barer` source are redrawn; the light, time, text and slider are kept |
| `Ui.UiController.OnKeyDown` | public/js/modules/uiController.js:97-103 | Escape empties the box and the query, lists every sunlit bar and redraws the `barer` source; other keys change nothing; the light, time, text and slider are always kept |
| `LegacyClient.HarSolValue` | public/js/app.js:207 | the copied `harSol` is true iff the bar is sunlit |
| `LegacyClient.LegacyFeatures` | public/js/app.js:196-209 | one feature per bar, in order, at `[lng, lat]`, copying id, navn, by, retning and harSol |
| `LegacyClient.LegacyFeaturesSummarise` | public/js/app.js:196-209 | each legacy feature is the modular client's feature of the same bar with its properties narrowed to those five |
| `LegacyClient.LegacyHoursLine` | public/js/app.js:141-143 | hours shown iff `opening_hours` is truthy, rewritten as one pass `;` to `<br/>` and `,` to `", "`, with no `;` left |
| `LegacyClient.LegacyApp.constructor` | public/js/app.js:46-49 | no bars, the current time, an empty search |
| `LegacyClient.LegacyApp.VisBarer` | public/js/app.js:174-413 | the list is the sunlit bars matching the search ("none found" when empty), the count is all sunlit bars, the source one legacy feature per bar |
| `LegacyClient.LegacyApp.UpdateSunLight` | public/js/app.js:69-122 | the map's light is the light rule at the Aarhus centre, the current instant and hour |
| `LegacyClient.LegacyApp.HentBarer` | public/js/app.js:52-66 | success replaces the bars, redraws and relights; failure changes nothing |
| `LegacyClient.LegacyApp.UpdateTimeDisplay` | public/js/app.js:416-430 | the time text of the current time; nothing else changes |
| `LegacyClient.LegacyApp.Init` | public/js/app.js:490-495 | the time text, and the slider at the current time's position in 0..95 |
| `LegacyClient.LegacyApp.OnMapLoad` | public/js/app.js:579-583 | light the map for the current time, then fetch and draw the bars: a failed fetch keeps bars, list, count and source; time, search box, text and slider are kept |
| `LegacyClient.LegacyApp.OnSliderInput` | public/js/app.js:442-452 | the slider at `value`, the same day at the selected quarter hour, and the time text; a failed fetch keeps bars, list, count, source and light; a successful one sets all five |
| `LegacyClient.LegacyApp.OnDayChange` | public/js/app.js:456-468 | one day back or forward at the same time, and the time text; a failed fetch keeps bars, list, count, source and light; a successful one sets all five |
| `LegacyClient.LegacyApp.OnSearchInput` | public/js/app.js:474-477 | the typed text becomes the query; the count, the list and the `barer` source are redrawn; the light, bars, time, text and slider are kept |
| `LegacyClient.LegacyApp.OnKeyDown` | public/js/app.js:480-486 | Escape empties the box and the query, lists every sunlit bar and redraws the `barer` source; other keys change nothing; the light, bars, time, text and slider are always kept |

Some legacy logic is the modular client's code repeated in `public/js/app.js`. It is modelled by the same members as the modular code:

- the colour table and light rule (app.js:82-121) by `SunCalculator.LightColor` and `SunCalculator.SunLight`;
- the slider arithmetic (app.js:437-445) by `Ui.SliderIndex`, `Ui.SliderHours` and `Ui.SliderMinutes`;
- the building conversion (app.js:515-544) by `Maps.ConvertOSMToGeoJSON`;
- the sunlit and search filters (app.js:181-191) by `BarList.SunlitBars` and `BarList.SearchResults`.

## Left out

- SunCalc's `getPosition` and `getTimes`, and the radian-to-degree conversion, are parameters. Astronomy and floating-point trigonometry are outside the model.
- The light position vector (`Math.cos`/`Math.sin` of the polar angles) is not computed. The light records the polar azimuth and elevation it is computed from.
- Real numbers stand for JavaScript doubles, so floating-point rounding is not modelled.
- `%` on reals is modelled for the divisor 360 only, the only one the source uses.
- `hasBarSunlight` for a SunCalc azimuth below -180: JavaScript's `%` then gives a negative bearing. SunCalc never produces one. `SunService.SunlitIffFacing` assumes an azimuth of at least -180.
- Network I/O is left out: every `fetch` (Overpass, `/api/barer`), the URL and query built for it, and JSON parsing. Each fetch is a parameter that succeeds with a value or fails.
  - A response whose JSON is not an array of bars (an error body stored in `barerData`) is not modelled.
  - The clients' `load3DBuildings` fetch and its fallback of simple boxes are left out. So is the legacy script's building fetch around the conversion (app.js:501-513, 546-577).
- Express routes, the server, configuration and module wiring are left out: HTTP plumbing without logic of its own.
- Map layers, styles, paint properties, event registration, `flyTo`, `setTimeout`, popups and every HTML template are rendering, and left out. The list is modelled as the bars it shows.
  - The popup's sunlit test is kept (`BarList.PopupAgreesWithHarSol`), and so is the opening-hours rewrite.
  - The other popup fields are left out, and so is the modular popup's additional test against the text `'null'`.
- `Date` is modelled as a local (day, hour, minute) value and a parameter mapping it to an instant. Left out with it:
  - seconds and milliseconds, which `setHours(h, m, 0, 0)` clears;
  - month and year, and the date line with day and month names;
  - daylight-saving gaps;
  - the rollover `setHours` and `setDate` perform on values outside their ranges. The slider's own range of 0 to 95 is why `OnSliderInput` requires one.
- `toLowerCase` and `parseInt` are parameters, not Unicode case mapping and number parsing.
- Truthiness is modelled for the values the source reads: missing or empty tags, zero or missing coordinates, a zero fetch time. NaN coordinates from a malformed response are not modelled, and `null` and `undefined` are both `None`.
- Asynchrony is left out. The legacy handlers do not await `hentBarer`; the model runs each handler's steps in program order. Concurrent requests and the order in which they resolve are not modelled.
- `BarData.BarCache.GetAllBars`: the ghost flag `fetchAttempted` records whether the network was asked. What `fetchBarsFromOSM` would have returned for another outcome is not modelled.
