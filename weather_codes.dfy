/**
 * The weather-code classifier of the dashboard: a fixed table of sixteen
 * codes of WMO code table 4677 (the subset reported by the Open-Meteo
 * forecast service) and a lookup that is total over all integers.
 */
module WeatherCodes {

  /** What the dashboard shows for one weather code: a label and an icon id. */
  datatype WeatherInfo = WeatherInfo(desc: string, icon: string)

  /** The known codes and what each one is shown as. */
  const WmoCodes: map<int, WeatherInfo> := map[
    0 := WeatherInfo("Clear sky", "01d"),
    1 := WeatherInfo("Mainly clear", "02d"),
    2 := WeatherInfo("Partly cloudy", "02d"),
    3 := WeatherInfo("Overcast", "03d"),
    45 := WeatherInfo("Fog", "50d"),
    48 := WeatherInfo("Depositing rime fog", "50d"),
    51 := WeatherInfo("Light drizzle", "09d"),
    53 := WeatherInfo("Moderate drizzle", "09d"),
    55 := WeatherInfo("Dense drizzle", "09d"),
    61 := WeatherInfo("Slight rain", "10d"),
    63 := WeatherInfo("Moderate rain", "10d"),
    65 := WeatherInfo("Heavy rain", "10d"),
    71 := WeatherInfo("Slight snow fall", "13d"),
    73 := WeatherInfo("Moderate snow fall", "13d"),
    75 := WeatherInfo("Heavy snow fall", "13d"),
    95 := WeatherInfo("Thunderstorm", "11d")
  ]

  /** The fallback for every code that is not a key of WmoCodes. */
  const Unknown := WeatherInfo("Unknown", "01d")

  /** Every icon id the dashboard can ask the icon server for. */
  const Icons: set<string> := {"01d", "02d", "03d", "09d", "10d", "11d", "13d", "50d"}

  /**
   * The codes Open-Meteo reports under WMO code table 4677: clear and cloud
   * cover, fog, drizzle, freezing drizzle, rain, freezing rain, snow, snow
   * grains, showers, snow showers and thunderstorms with or without hail.
   */
  const OpenMeteoCodes: set<int> :=
    {0, 1, 2, 3, 45, 48, 51, 53, 55, 56, 57, 61, 63, 65, 66, 67,
     71, 73, 75, 77, 80, 81, 82, 85, 86, 95, 96, 99}

  /**
   * The classifier. It never fails: every icon it returns is one the
   * dashboard knows, and the label is "Unknown" exactly for the codes
   * outside the table (no table entry is labelled "Unknown").
   */
  function GetWeatherInfo(code: int): (info: WeatherInfo)
    ensures info.icon in Icons
    ensures info.desc == "Unknown" <==> code !in WmoCodes
    ensures code !in WmoCodes ==> info == Unknown
  {
    if code in WmoCodes then WmoCodes[code] else Unknown
  }

  /** The label alone identifies a known code: no two table entries share it. */
  lemma DescriptionIdentifiesCode(a: int, b: int)
    requires a in WmoCodes
    requires GetWeatherInfo(a).desc == GetWeatherInfo(b).desc
    ensures a == b
  {
  }

  /** The table covers only codes Open-Meteo reports. */
  lemma TableWithinOpenMeteo()
    ensures WmoCodes.Keys <= OpenMeteoCodes
  {
  }

  /**
   * Not every code Open-Meteo reports is in the table: freezing
   * precipitation, snow grains, showers and hail fall back to "Unknown"
   * with the clear-sky icon.
   */
  lemma UnlabelledOpenMeteoCodes(c: int)
    requires c in OpenMeteoCodes && c !in WmoCodes
    ensures c in {56, 57, 66, 67, 77, 80, 81, 82, 85, 86, 96, 99}
    ensures GetWeatherInfo(c) == Unknown
  {
  }

  /** Worked cases: two table entries and several codes outside the table. */
  lemma Scenarios()
    ensures GetWeatherInfo(0) == WeatherInfo("Clear sky", "01d")
    ensures GetWeatherInfo(61) == WeatherInfo("Slight rain", "10d")
    ensures GetWeatherInfo(95) == WeatherInfo("Thunderstorm", "11d")
    ensures GetWeatherInfo(-1) == Unknown && GetWeatherInfo(200) == Unknown
    ensures GetWeatherInfo(56) == Unknown && GetWeatherInfo(80) == Unknown
    ensures GetWeatherInfo(99) == Unknown
  {
  }
}
