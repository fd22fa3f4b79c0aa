/**
 * The client's lighting (`public/js/modules/sunCalculator.js`, duplicated
 * inline in `public/js/app.js`): the colour of the light by hour of day
 * and, from the sun's altitude, either a daylight of rising intensity or a
 * dim night light from straight above.
 */
module SunCalculator {
  import opened Common
  import opened Records
  import opened SunService
  import opened Maps

  /** A local date and time as the clients keep it in `currentDate`: a day number, hours and minutes. */
  datatype LocalTime = LocalTime(day: int, hour: int, minute: int)

  /** The local clock: which instant a local date and time denotes (time zone and daylight saving included). */
  type InstantOf = LocalTime -> Instant

  const DawnColor: string := "#FFB366"
  const DayColor: string := "#FFFBEA"
  const DuskColor: string := "#FFB347"
  const NightColor: string := "#8B9DC3"

  /** The light used while the sun is not above the horizon. */
  const NightLight: Light := Light("#6B7B9C", 0.15, Overhead)

  /** `_getLightColor(hour)`: dawn 5-6, day 7-16, dusk 17-19, night otherwise. */
  function LightColor(hour: int): (r: string)
    ensures r == DawnColor <==> 5 <= hour < 7
    ensures r == DayColor <==> 7 <= hour < 17
    ensures r == DuskColor <==> 17 <= hour < 20
    ensures r == NightColor <==> hour < 5 || 20 <= hour
  {
    if 5 <= hour < 7 then DawnColor
    else if 7 <= hour < 17 then DayColor
    else if 17 <= hour < 20 then DuskColor
    else NightColor
  }

  /** Reference table: the colour of each hour of the day, written out hour by hour. */
  const HourColors: seq<string> := [
    NightColor, NightColor, NightColor, NightColor, NightColor,       // 0-4
    DawnColor, DawnColor,                                             // 5-6
    DayColor, DayColor, DayColor, DayColor, DayColor,                 // 7-11
    DayColor, DayColor, DayColor, DayColor, DayColor,                 // 12-16
    DuskColor, DuskColor, DuskColor,                                  // 17-19
    NightColor, NightColor, NightColor, NightColor                    // 20-23
  ]

  /** The if-chain agrees with the hour-by-hour table on every hour `getHours` can return. */
  lemma {:induction false} LightColorMatchesTable(hour: int)
    requires 0 <= hour < 24
    ensures LightColor(hour) == HourColors[hour]
    ensures LightColor(hour) in {DawnColor, DayColor, DuskColor, NightColor}
  {
    if hour < 5 {
      assert HourColors[hour] == NightColor;
    } else if hour < 7 {
      assert HourColors[hour] == DawnColor;
    } else if hour < 17 {
      assert HourColors[hour] == DayColor;
    } else if hour < 20 {
      assert HourColors[hour] == DuskColor;
    } else {
      assert HourColors[hour] == NightColor;
    }
  }

  /** `Math.min(0.4 + (altitude / 90) * 0.5, 0.9)`. */
  function Intensity(altitude: real): (r: real)
    ensures 0.0 < altitude ==> 0.4 < r
    ensures r <= 0.9
    ensures altitude <= 90.0 ==> r == 0.4 + altitude / 180.0
    ensures r == 0.9 <==> altitude >= 90.0
  {
    Min(0.4 + (altitude / 90.0) * 0.5, 0.9)
  }

  /** A higher sun never gives a dimmer light. */
  lemma IntensityMonotone(a: real, b: real)
    requires a <= b
    ensures Intensity(a) <= Intensity(b)
  {
    assert (a / 90.0) * 0.5 <= (b / 90.0) * 0.5;
  }

  /** `Math.max(altitude, 15)`: the light never comes from lower than 15 degrees. */
  function LightAltitude(altitude: real): (r: real)
    ensures r >= 15.0
    ensures altitude >= 15.0 ==> r == altitude
    ensures altitude <= 15.0 ==> r == 15.0
  {
    Max(altitude, 15.0)
  }

  /**
   * The light `updateSunLight` sets for a sun position (in degrees) and an
   * hour: while the sun is strictly above the horizon, the hour's colour at
   * an intensity rising with the altitude, from the sun's compass bearing
   * and at least 15 degrees up; otherwise the night light.
   */
  function SunLight(pos: SunPosition, hour: int): (r: Light)
    ensures pos.altitude <= 0.0 <==> r == NightLight
    ensures pos.altitude > 0.0 ==>
              r.color == LightColor(hour) && r.intensity == Intensity(pos.altitude) && 0.4 < r.intensity <= 0.9 &&
              r.position == Polar(NormalizeAzimuth(pos.azimuth), LightAltitude(pos.altitude))
    ensures pos.altitude > 0.0 && pos.azimuth >= -180.0 ==>
              0.0 <= r.position.azimuth < 360.0 && r.position.elevation >= 15.0
    ensures 0.15 <= r.intensity <= 0.9
  {
    var normalizedAzimuth := NormalizeAzimuth(pos.azimuth);
    var color := LightColor(hour);
    if pos.altitude > 0.0 then
      Light(color, Intensity(pos.altitude), Polar(normalizedAzimuth, LightAltitude(pos.altitude)))
    else
      NightLight
  }

  /** Any daylight is brighter than the night light. */
  lemma {:induction false} DaylightBrighterThanNight(pos: SunPosition, hour: int)
    requires pos.altitude > 0.0
    ensures SunLight(pos, hour).intensity > NightLight.intensity
  {
  }

  /** The `location` the modular client lights the map for. */
  datatype Location = Location(lat: real, lng: real)

  /** The Aarhus centre, the default `location`. */
  const Aarhus: Location := Location(56.1629, 10.2039)

  /** The modular client's `SunCalculator`: it lights `mapManager` for `location`. */
  class SunCalculator {
    const mapManager: MapManager
    const location: Location

    constructor (mapManager: MapManager, location: Location)
      ensures this.mapManager == mapManager && this.location == location
    {
      this.mapManager := mapManager;
      this.location := location;
    }

    /** `updateSunLight(currentDate)`: SunCalc at the location and instant, the colour from the local hour. */
    method UpdateSunLight(currentDate: LocalTime, instantOf: InstantOf, sunCalc: SunCalcFn)
      modifies mapManager
      ensures mapManager.light == Some(SunLight(sunCalc(location.lat, location.lng, instantOf(currentDate)), currentDate.hour))
      ensures mapManager.barSource == old(mapManager.barSource)
    {
      var sunPos := sunCalc(location.lat, location.lng, instantOf(currentDate));
      mapManager.SetLight(SunLight(sunPos, currentDate.hour));
    }
  }
}
