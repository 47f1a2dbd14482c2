/** The weather widget's data handling: weather codes of the World
    Meteorological Organization (WMO code table 4677, as the Open-Meteo
    forecast service reports them) turned into a description and an icon, and
    the hourly and daily forecast arrays turned into the rows the widget draws. */
module Weather {
  import opened Wrappers

  /** `getWeatherDescription`. */
  function Description(code: int): string {
    match code
    case 0 => "Clear sky"
    case 1 => "Mainly clear"
    case 2 => "Partly cloudy"
    case 3 => "Overcast"
    case 45 | 48 => "Fog"
    case 51 | 53 | 55 => "Drizzle"
    case 61 | 63 | 65 => "Rain"
    case 71 | 73 | 75 => "Snow"
    case 80 | 81 | 82 => "Rain showers"
    case 95 | 96 | 99 => "Thunderstorm"
    case _ => "Unknown"
  }

  /** The codes the widget knows, with their names: a reference table. */
  const KNOWN_CODES: map<int, string> := map[
    0 := "Clear sky", 1 := "Mainly clear", 2 := "Partly cloudy", 3 := "Overcast",
    45 := "Fog", 48 := "Fog",
    51 := "Drizzle", 53 := "Drizzle", 55 := "Drizzle",
    61 := "Rain", 63 := "Rain", 65 := "Rain",
    71 := "Snow", 73 := "Snow", 75 := "Snow",
    80 := "Rain showers", 81 := "Rain showers", 82 := "Rain showers",
    95 := "Thunderstorm", 96 := "Thunderstorm", 99 := "Thunderstorm"]

  /** The description is the table's entry for a known code and "Unknown" for
      every other code; no known code is called "Unknown". */
  lemma DescriptionFollowsTable(code: int)
    ensures code in KNOWN_CODES ==> Description(code) == KNOWN_CODES[code]
    ensures code !in KNOWN_CODES ==> Description(code) == "Unknown"
    ensures Description(code) == "Unknown" <==> code !in KNOWN_CODES
  {
  }

  datatype Glyph = Sun | Cloud | CloudFog | Droplet

  /** What `weatherCodeToIcon` draws: a glyph, its colour class and its title. */
  datatype WeatherIcon = WeatherIcon(glyph: Glyph, tint: string, title: string)

  /** `weatherCodeToIcon`, without the size class. */
  function CodeToIcon(code: int): WeatherIcon {
    match code
    case 0 => WeatherIcon(Sun, "text-yellow-400", "Clear sky")
    case 1 | 2 | 3 => WeatherIcon(Cloud, "text-gray-300", "Partly cloudy")
    case 45 | 48 => WeatherIcon(CloudFog, "text-gray-400", "Fog")
    case 51 | 53 | 55 => WeatherIcon(Droplet, "text-blue-400", "Drizzle")
    case 61 | 63 | 65 => WeatherIcon(Droplet, "text-blue-500", "Rain")
    case 71 | 73 | 75 => WeatherIcon(Cloud, "text-gray-500", "Snow")
    case 80 | 81 | 82 => WeatherIcon(Droplet, "text-blue-400", "Rain showers")
    case 95 | 96 | 99 => WeatherIcon(Cloud, "text-gray-600", "Thunderstorm")
    case _ => WeatherIcon(Cloud, "text-gray-400", "Unknown")
  }

  /** The icon's title agrees with the description for every code except 1
      ("Mainly clear") and 3 ("Overcast"), which the icon lumps in with 2 as
      "Partly cloudy"; both name the same unknown codes. */
  lemma IconTitleAgreesWithDescription(code: int)
    ensures code != 1 && code != 3 ==> CodeToIcon(code).title == Description(code)
    ensures code == 1 || code == 3 ==>
      CodeToIcon(code).title == "Partly cloudy" != Description(code)
    ensures CodeToIcon(code).title == "Unknown" <==> code !in KNOWN_CODES
  {
  }

  /** Among the known codes the title decides the picture (glyph and colour),
      except that drizzle and rain showers are drawn alike. */
  lemma PictureByTitle(a: int, b: int)
    requires a in KNOWN_CODES && b in KNOWN_CODES
    ensures var x, y := CodeToIcon(a), CodeToIcon(b);
      (x.glyph, x.tint) == (y.glyph, y.tint) <==>
        x.title == y.title || (x.title in {"Drizzle", "Rain showers"} && y.title in {"Drizzle", "Rain showers"})
  {
  }

  // ---------------------------------------------------------------------------
  // Forecast rows

  /** The hourly arrays of the forecast response; the weather codes may be
      missing altogether. */
  datatype HourlyData = HourlyData(time: seq<string>, temperature: seq<real>, weathercode: Option<seq<int>>)

  /** The daily arrays of the forecast response. */
  datatype DailyData = DailyData(time: seq<string>, temperatureMax: seq<real>, temperatureMin: seq<real>, weathercode: seq<int>)

  /** One hour of the strip; a value read past the end of its array is `None`,
      as JavaScript's `undefined`. */
  datatype HourSlot = HourSlot(time: string, temp: Option<real>, code: Option<int>, isNow: bool)

  datatype DaySlot = DaySlot(time: string, maxTemp: Option<real>, minTemp: Option<real>, code: Option<int>, isToday: bool)

  function Min(a: nat, b: nat): nat { if a < b then a else b }

  function HourAt(hourly: HourlyData, idx: nat): HourSlot
    requires idx < |hourly.time|
  {
    HourSlot(
      hourly.time[idx],
      At(hourly.temperature, idx),
      match hourly.weathercode
      case None => Some(0)
      case Some(codes) => At(codes, idx),
      idx == 0)
  }

  /** `next24Hours`: the first 24 time stamps, each with the temperature and
      weather code at the same index. */
  function Next24Hours(hourly: HourlyData): (r: seq<HourSlot>)
    ensures |r| == Min(|hourly.time|, 24)
    ensures forall idx :: 0 <= idx < |r| ==> r[idx] == HourAt(hourly, idx)
  {
    seq(Min(|hourly.time|, 24), (idx: int) requires 0 <= idx < Min(|hourly.time|, 24) => HourAt(hourly, idx))
  }

  /** Only the first hour is marked as now; without a weather-code array every
      hour shows code 0, and with one each hour shows its own code. */
  lemma HoursMarkNowAndCode(hourly: HourlyData, idx: nat)
    requires idx < |Next24Hours(hourly)|
    ensures Next24Hours(hourly)[idx].time == hourly.time[idx]
    ensures Next24Hours(hourly)[idx].isNow <==> idx == 0
    ensures hourly.weathercode.None? ==> Next24Hours(hourly)[idx].code == Some(0)
    ensures hourly.weathercode.Some? && idx < |hourly.weathercode.value| ==>
      Next24Hours(hourly)[idx].code == Some(hourly.weathercode.value[idx])
    ensures idx < |hourly.temperature| <==> Next24Hours(hourly)[idx].temp.Some?
  {
  }

  function DayAt(daily: DailyData, idx: nat): DaySlot
    requires idx < |daily.time|
  {
    DaySlot(daily.time[idx], At(daily.temperatureMax, idx), At(daily.temperatureMin, idx),
      At(daily.weathercode, idx), idx == 0)
  }

  /** `next7Days`: the first 7 dates, each with that index's extremes and code. */
  function Next7Days(daily: DailyData): (r: seq<DaySlot>)
    ensures |r| == Min(|daily.time|, 7)
    ensures forall idx :: 0 <= idx < |r| ==> r[idx] == DayAt(daily, idx)
  {
    seq(Min(|daily.time|, 7), (idx: int) requires 0 <= idx < Min(|daily.time|, 7) => DayAt(daily, idx))
  }

  lemma DaysMarkToday(daily: DailyData, idx: nat)
    requires idx < |Next7Days(daily)|
    ensures Next7Days(daily)[idx].time == daily.time[idx]
    ensures Next7Days(daily)[idx].isToday <==> idx == 0
    ensures idx < |daily.weathercode| ==> Next7Days(daily)[idx].code == Some(daily.weathercode[idx])
  {
  }
}
