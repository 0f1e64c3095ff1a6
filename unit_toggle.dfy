/**
 * The Celsius/Fahrenheit toggle. The page keeps the selected unit and the
 * current temperature in whole degrees Celsius; the two unit buttons act
 * only when the unit changes, and then rewrite every temperature on the
 * page in the new unit.
 */
module UnitToggle {
  import opened Wrappers
  import opened WeatherCodes
  import opened Temperature
  import opened Forecast

  /**
   * The parts of the page the model tracks: the condition label and icon,
   * the main temperature, the feels-like value, the "H: / L:" line and the
   * forecast list. None stands for a slot still showing the page's
   * placeholder (for feels-like: any text that does not start with a number).
   */
  datatype Display = Display(
    condition: Option<WeatherInfo>,
    temp: Option<Reading>,
    feelsLike: Option<Reading>,
    hiLow: Option<HiLow>,
    forecast: seq<ForecastItem>)

  /** The page before any forecast has arrived. */
  const Blank := Display(None, None, None, None, [])

  /**
   * What the page shows once a forecast has arrived while `unit` is
   * selected. The feels-like value, the "H: / L:" line and the list are
   * converted; the main temperature is the stored Celsius number under the
   * selected unit's label, so it means the right thing only in Celsius.
   */
  function LoadedView(unit: string, tempC: int, apparentC: int, code: int, daily: Daily): (v: Display)
    requires daily.Valid()
    ensures v.condition == Some(GetWeatherInfo(code))
    ensures v.temp.Some? && v.temp.value.value == tempC && v.temp.value.unit == unit
    ensures unit != "F" ==> CelsiusOf(v.temp.value) == tempC
    ensures v.feelsLike == Some(DisplayReading(unit, apparentC))
    ensures CelsiusOf(v.feelsLike.value) == apparentC
    ensures v.hiLow == Some(HiLowFor(daily, unit)) && v.forecast == ForecastItems(daily, unit)
  {
    Display(
      Some(GetWeatherInfo(code)),
      Some(Reading(tempC, unit)),
      Some(DisplayReading(unit, apparentC)),
      Some(HiLowFor(daily, unit)),
      ForecastItems(daily, unit))
  }

  /**
   * The feels-like rewrite on a unit change, as the page does it: the
   * number on the page is taken as it stands and put through the display
   * rule, so the new reading means that number in Celsius, whatever unit
   * it was shown in before.
   */
  function FeelsLikeAfterToggle(shown: Option<Reading>, unit: string): (r: Option<Reading>)
    ensures r.Some? <==> shown.Some?
    ensures shown.Some? ==> r.value == Reading(DisplayTemp(unit, shown.value.value), unit)
    ensures shown.Some? ==> r.value.unit == unit && CelsiusOf(r.value) == shown.value.value
  {
    match shown
    case None => None
    case Some(reading) => Some(DisplayReading(unit, reading.value))
  }

  /**
   * The feels-like rewrite as intended: read the shown value in its own
   * unit, then show that temperature in the new unit. The new reading
   * means what the old one meant.
   */
  function FeelsLikeAfterToggleFixed(shown: Option<Reading>, unit: string): (r: Option<Reading>)
    ensures r.Some? <==> shown.Some?
    ensures shown.Some? ==> r.value == Reading(DisplayTemp(unit, CelsiusOf(shown.value)), unit)
    ensures shown.Some? ==> r.value.unit == unit && CelsiusOf(r.value) == CelsiusOf(shown.value)
  {
    match shown
    case None => None
    case Some(reading) => Some(DisplayReading(unit, CelsiusOf(reading)))
  }

  /**
   * What the page shows after the temperatures are rewritten for `unit`.
   * Nothing changes before a forecast has arrived; after, the main
   * temperature means the stored value, and the "H: / L:" line and the
   * list are drawn afresh from the stored daily series.
   */
  function Redisplay(d: Display, unit: string, current: Option<int>, data: Option<Daily>): (r: Display)
    requires data.Some? ==> data.value.Valid()
    ensures current.None? ==> r == d
    ensures r.condition == d.condition
    ensures current.Some? ==> r.temp == Some(DisplayReading(unit, current.value))
    ensures current.Some? ==> CelsiusOf(r.temp.value) == current.value
    ensures current.Some? ==> r.feelsLike == FeelsLikeAfterToggle(d.feelsLike, unit)
    ensures current.Some? && data.Some? ==>
      r.hiLow == Some(HiLowFor(data.value, unit)) && r.forecast == ForecastItems(data.value, unit)
    ensures current.Some? && data.None? ==> r.hiLow == d.hiLow && r.forecast == d.forecast
  {
    if current.None? then d
    else
      var d1 := d.(temp := Some(DisplayReading(unit, current.value)),
                   feelsLike := FeelsLikeAfterToggle(d.feelsLike, unit));
      if data.None? then d1
      else d1.(hiLow := Some(HiLowFor(data.value, unit)), forecast := ForecastItems(data.value, unit))
  }

  /** The page after a series of rewrites, one per unit in `units`, in order. */
  function RedisplayAll(d: Display, units: seq<string>, current: Option<int>, data: Option<Daily>): Display
    requires data.Some? ==> data.value.Valid()
    decreases |units|
  {
    if units == [] then d
    else RedisplayAll(Redisplay(d, units[0], current, data), units[1..], current, data)
  }

  /**
   * Whatever the toggle history, once a forecast is stored the main
   * temperature, the "H: / L:" line and the list depend only on the last
   * unit chosen.
   */
  lemma {:induction false} AnyToggleHistory(d: Display, units: seq<string>, c: int, daily: Daily)
    requires daily.Valid() && units != []
    decreases |units|
    ensures var r := RedisplayAll(d, units, Some(c), Some(daily));
      var last := units[|units| - 1];
      r.temp == Some(DisplayReading(last, c)) &&
      r.hiLow == Some(HiLowFor(daily, last)) &&
      r.forecast == ForecastItems(daily, last) &&
      r.condition == d.condition
  {
    var d1 := Redisplay(d, units[0], Some(c), Some(daily));
    if |units| == 1 {
      assert RedisplayAll(d1, units[1..], Some(c), Some(daily)) == d1;
    } else {
      AnyToggleHistory(d1, units[1..], c, daily);
      assert units[1..][|units[1..]| - 1] == units[|units| - 1];
    }
  }

  /**
   * Loaded in Celsius, switched to Fahrenheit and back: everything is as
   * it was except feels-like, which keeps its Fahrenheit number under a
   * Celsius label.
   */
  lemma ToggleThereAndBack(tempC: int, apparentC: int, code: int, daily: Daily)
    requires daily.Valid()
    ensures var v0 := LoadedView("C", tempC, apparentC, code, daily);
      var v2 := Redisplay(Redisplay(v0, "F", Some(tempC), Some(daily)), "C", Some(tempC), Some(daily));
      v2.temp == v0.temp && v2.hiLow == v0.hiLow && v2.forecast == v0.forecast &&
      v2.condition == v0.condition &&
      v2.feelsLike == Some(Reading(ConvertTemp(apparentC, "F"), "C"))
  {
  }

  /**
   * The main temperature written when a forecast arrives while Fahrenheit
   * is selected means a different Celsius temperature from the stored one,
   * for every value but -41, -40 and -39 (20 C is shown as "20 F", which
   * means -7 C).
   */
  lemma MainTempOnLoadMisread(tempC: int, apparentC: int, code: int, daily: Daily)
    requires daily.Valid() && (tempC < -41 || -39 < tempC)
    ensures CelsiusOf(LoadedView("F", tempC, apparentC, code, daily).temp.value) != tempC
  {
    CelsiusFixedPoints(tempC);
  }

  /**
   * Switching from Fahrenheit to Celsius turns a feels-like value that
   * meant `apparentC` into one that means something else, for every value
   * but -40 (20 C, shown as "68 F", becomes "68 C").
   */
  lemma FeelsLikeToggleMisread(apparentC: int)
    requires apparentC != -40
    ensures CelsiusOf(FeelsLikeAfterToggle(Some(DisplayReading("F", apparentC)), "C").value) != apparentC
  {
    FahrenheitFixedPoint(apparentC);
  }

  /** Repeated round trips make the feels-like value grow: 20 C reads 68, then 154. */
  lemma FeelsLikeDrift()
    ensures var f1 := FeelsLikeAfterToggle(Some(Reading(20, "C")), "F");
      var c1 := FeelsLikeAfterToggle(f1, "C");
      var f2 := FeelsLikeAfterToggle(c1, "F");
      var c2 := FeelsLikeAfterToggle(f2, "C");
      f1 == Some(Reading(68, "F")) && c1 == Some(Reading(68, "C")) &&
      f2 == Some(Reading(154, "F")) && c2 == Some(Reading(154, "C"))
  {
  }

  /**
   * The dashboard's state: the selected unit, the current temperature in
   * whole degrees Celsius (None until a forecast arrives), the stored daily
   * series, and the page slots of Display.
   */
  class Dashboard {
    var currentUnit: string
    var currentTempValue: Option<int>
    var forecastData: Option<Daily>
    var condition: Option<WeatherInfo>
    var tempText: Option<Reading>
    var feelsLike: Option<Reading>
    var hiLow: Option<HiLow>
    var forecast: seq<ForecastItem>

    /** The unit is one of the two buttons; a stored series covers the list. */
    ghost predicate Valid()
      reads this
    {
      (currentUnit == "C" || currentUnit == "F") &&
      (forecastData.Some? ==> forecastData.value.Valid())
    }

    /** The page slots, as one value. */
    function View(): Display
      reads this
    {
      Display(condition, tempText, feelsLike, hiLow, forecast)
    }

    /** The page at start-up: Celsius selected, nothing loaded. */
    constructor ()
      ensures Valid()
      ensures currentUnit == "C" && currentTempValue == None && forecastData == None
      ensures View() == Blank
    {
      currentUnit := "C";
      currentTempValue := None;
      forecastData := None;
      condition := None;
      tempText := None;
      feelsLike := None;
      hiLow := None;
      forecast := [];
    }

    /**
     * A forecast has arrived: store the current temperature and the daily
     * series and fill the page in the selected unit.
     */
    method ShowWeather(tempC: int, apparentC: int, code: int, daily: Daily)
      requires Valid() && daily.Valid()
      modifies this
      ensures Valid() && currentUnit == old(currentUnit)
      ensures currentTempValue == Some(tempC) && forecastData == Some(daily)
      ensures View() == LoadedView(currentUnit, tempC, apparentC, code, daily)
    {
      var weatherInfo := GetWeatherInfo(code);
      currentTempValue := Some(tempC);
      forecastData := Some(daily);
      tempText := Some(Reading(tempC, currentUnit));
      condition := Some(weatherInfo);
      var hiTemp := DisplayTemp(currentUnit, daily.maxTemp[0]);
      var lowTemp := DisplayTemp(currentUnit, daily.minTemp[0]);
      hiLow := Some(HiLow(hiTemp, lowTemp));
      var feels := DisplayTemp(currentUnit, apparentC);
      feelsLike := Some(Reading(feels, currentUnit));
      var items := RenderForecast(daily, currentUnit);
      forecast := items;
    }

    /** Rewrites every temperature on the page for `unit`. */
    method UpdateTemperatureDisplay(unit: string)
      requires Valid()
      modifies this
      ensures Valid()
      ensures currentUnit == old(currentUnit) && currentTempValue == old(currentTempValue)
      ensures forecastData == old(forecastData)
      ensures View() == Redisplay(old(View()), unit, currentTempValue, forecastData)
    {
      if currentTempValue.Some? {
        var shown := DisplayTemp(unit, currentTempValue.value);
        tempText := Some(Reading(shown, unit));
        if feelsLike.Some? {
          var currentFeelsLike := feelsLike.value.value;
          var newFeelsLike := DisplayTemp(unit, currentFeelsLike);
          feelsLike := Some(Reading(newFeelsLike, unit));
        }
        if forecastData.Some? {
          var daily := forecastData.value;
          var hiTemp := DisplayTemp(unit, daily.maxTemp[0]);
          var lowTemp := DisplayTemp(unit, daily.minTemp[0]);
          hiLow := Some(HiLow(hiTemp, lowTemp));
          var items := RenderForecast(daily, unit);
          forecast := items;
        }
      }
    }

    /** The Celsius button. */
    method ClickCelsius()
      requires Valid()
      modifies this
      ensures Valid() && currentUnit == "C"
      ensures currentTempValue == old(currentTempValue) && forecastData == old(forecastData)
      ensures old(currentUnit) == "C" ==> unchanged(this)
      ensures old(currentUnit) != "C" ==> View() == Redisplay(old(View()), "C", currentTempValue, forecastData)
      ensures old(currentUnit) != "C" && currentTempValue.Some? ==>
        tempText == Some(DisplayReading("C", currentTempValue.value))
    {
      if currentUnit != "C" {
        currentUnit := "C";
        UpdateTemperatureDisplay("C");
      }
    }

    /** The Fahrenheit button. */
    method ClickFahrenheit()
      requires Valid()
      modifies this
      ensures Valid() && currentUnit == "F"
      ensures currentTempValue == old(currentTempValue) && forecastData == old(forecastData)
      ensures old(currentUnit) == "F" ==> unchanged(this)
      ensures old(currentUnit) != "F" ==> View() == Redisplay(old(View()), "F", currentTempValue, forecastData)
      ensures old(currentUnit) != "F" && currentTempValue.Some? ==>
        tempText == Some(DisplayReading("F", currentTempValue.value))
    {
      if currentUnit != "F" {
        currentUnit := "F";
        UpdateTemperatureDisplay("F");
      }
    }
  }
}
