/**
 * The five-day forecast list and the "H: / L:" line of the current
 * conditions, both drawn from the daily series of the forecast response.
 */
module Forecast {
  import opened WeatherCodes
  import opened Temperature

  /** The number of days the list shows. */
  const ForecastDays := 5

  /**
   * The daily series of a forecast response: per day its date, weather
   * code and highest and lowest temperature, already rounded to whole
   * degrees Celsius.
   */
  datatype Daily = Daily(time: seq<string>, weatherCode: seq<int>, maxTemp: seq<int>, minTemp: seq<int>)
  {
    /** Every series covers the days the list shows. */
    predicate Valid()
    {
      ForecastDays <= |time| && ForecastDays <= |weatherCode| &&
      ForecastDays <= |maxTemp| && ForecastDays <= |minTemp|
    }
  }

  /** The first entry is labelled "Today", the others by their date. */
  datatype DayLabel = Today | DateOf(isoDate: string)

  /** One entry of the forecast list. */
  datatype ForecastItem = ForecastItem(day: DayLabel, weather: WeatherInfo, high: int, low: int)

  /** The "H: / L:" line of the current conditions. */
  datatype HiLow = HiLow(high: int, low: int)

  /**
   * Entry i of the list: its high and low, read in the list's unit, mean
   * that day's highest and lowest temperature.
   */
  function ForecastItemAt(daily: Daily, i: nat, unit: string): (item: ForecastItem)
    requires daily.Valid() && i < ForecastDays
    ensures item.day == Today <==> i == 0
    ensures item.day.DateOf? ==> item.day.isoDate == daily.time[i]
    ensures item.weather == GetWeatherInfo(daily.weatherCode[i])
    ensures item.high == DisplayTemp(unit, daily.maxTemp[i])
    ensures item.low == DisplayTemp(unit, daily.minTemp[i])
    ensures CelsiusOf(Reading(item.high, unit)) == daily.maxTemp[i]
    ensures CelsiusOf(Reading(item.low, unit)) == daily.minTemp[i]
  {
    ForecastItem(
      if i == 0 then Today else DateOf(daily.time[i]),
      GetWeatherInfo(daily.weatherCode[i]),
      DisplayTemp(unit, daily.maxTemp[i]),
      DisplayTemp(unit, daily.minTemp[i]))
  }

  /** The whole list for one unit. */
  function ForecastItems(daily: Daily, unit: string): seq<ForecastItem>
    requires daily.Valid()
  {
    seq(ForecastDays, i requires 0 <= i < ForecastDays => ForecastItemAt(daily, i, unit))
  }

  /**
   * Clears the list and appends one entry per day, in order.
   */
  method RenderForecast(daily: Daily, unit: string) returns (items: seq<ForecastItem>)
    requires daily.Valid()
    ensures |items| == ForecastDays
    ensures forall i :: 0 <= i < ForecastDays ==>
      items[i].weather == GetWeatherInfo(daily.weatherCode[i]) &&
      items[i].high == DisplayTemp(unit, daily.maxTemp[i]) &&
      items[i].low == DisplayTemp(unit, daily.minTemp[i]) &&
      CelsiusOf(Reading(items[i].high, unit)) == daily.maxTemp[i] &&
      CelsiusOf(Reading(items[i].low, unit)) == daily.minTemp[i]
    ensures items == ForecastItems(daily, unit)
  {
    items := [];
    for i := 0 to ForecastDays
      invariant |items| == i
      invariant forall j :: 0 <= j < i ==> items[j] == ForecastItemAt(daily, j, unit)
    {
      var dayName := if i == 0 then Today else DateOf(daily.time[i]);
      var dayWeather := GetWeatherInfo(daily.weatherCode[i]);
      var highTemp := DisplayTemp(unit, daily.maxTemp[i]);
      var lowTemp := DisplayTemp(unit, daily.minTemp[i]);
      items := items + [ForecastItem(dayName, dayWeather, highTemp, lowTemp)];
    }
  }

  /** A day whose high is not below its low is listed that way in either unit. */
  lemma HighNotBelowLow(daily: Daily, i: nat, unit: string)
    requires daily.Valid() && i < ForecastDays
    requires daily.minTemp[i] <= daily.maxTemp[i]
    ensures ForecastItemAt(daily, i, unit).low <= ForecastItemAt(daily, i, unit).high
  {
    DisplayMonotone(unit, daily.minTemp[i], daily.maxTemp[i]);
  }

  /**
   * The "H: / L:" line: today's highest and lowest temperature under the
   * display rule. It agrees with the "Today" entry of the list.
   */
  function HiLowFor(daily: Daily, unit: string): (hl: HiLow)
    requires daily.Valid()
    ensures hl.high == ForecastItemAt(daily, 0, unit).high
    ensures hl.low == ForecastItemAt(daily, 0, unit).low
    ensures hl.high == DisplayTemp(unit, daily.maxTemp[0]) && hl.low == DisplayTemp(unit, daily.minTemp[0])
    ensures CelsiusOf(Reading(hl.high, unit)) == daily.maxTemp[0]
    ensures CelsiusOf(Reading(hl.low, unit)) == daily.minTemp[0]
  {
    HiLow(DisplayTemp(unit, daily.maxTemp[0]), DisplayTemp(unit, daily.minTemp[0]))
  }
}
