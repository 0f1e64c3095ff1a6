# SkyCast weather dashboard: classifier, converter and unit toggle

SkyCast is a browser page that looks up a city and fetches current conditions and a daily forecast from
the Open-Meteo service. This project models the parts of `index.js` that compute something:

- **Weather-code classifier** (`weather_codes.dfy`, module `WeatherCodes`). It is the sixteen-entry
  table of WMO code table 4677 codes with a label and an icon for each. `GetWeatherInfo` looks a code up
  in that table and falls back to `("Unknown", "01d")`, so it is total over all integers.
- **Unit converter** (`temperature.dfy`, module `Temperature`). `ConvertTemp(temp, toUnit)` picks its
  branch by the target unit: `"F"` reads the input as Celsius, and every other unit reads it as
  Fahrenheit. The model works over whole degrees, because every caller rounds before converting. It
  uses the exact integer forms `(18t + 325) / 10` and `(10t - 311) / 18` of `Math.round`. The display
  rule "convert if the unit is F, else show as is", repeated at lines 67-68, 81, 139-140, 165, 173 and
  181-182, is the single function `DisplayTemp`. A `Reading` is a number together with the unit label
  printed beside it, and `CelsiusOf` gives the temperature that reading means.
- **Forecast list** (`forecast.dfy`, module `Forecast`). `RenderForecast` is the five-day loop of
  `renderForecast`, and `HiLowFor` is the "H: / L:" line.
- **Unit toggle** (`unit_toggle.dfy`, module `UnitToggle`). Class `Dashboard` holds the module state
  `currentUnit` and `currentTempValue` (Celsius), the stored daily series, and the page slots the model
  tracks. Its methods are the state updates after a forecast arrives (`ShowWeather`),
  `updateTemperatureDisplay`, and the two button handlers. The pure function `Redisplay` specifies
  `updateTemperatureDisplay`, and `LoadedView` specifies the page after a forecast arrives.

Converting whole degrees Celsius to Fahrenheit and back is exact (`CelsiusRoundTrip`); only Fahrenheit
to Celsius and back can be off by one (`FahrenheitRoundTrip`, `FahrenheitRoundTripLossy`). `Math.round`
rounds half up, but for integer inputs no exact value is a half, so every nearest-integer rule gives the
same result (`NearestTo` is strict).

## Model

| member | source | states |
|---|---|---|
| WeatherCodes.GetWeatherInfo | index.js:5-26 | total over all integers; every icon returned is one of the eight known icons; the label is "Unknown" exactly for codes outside the table, and those get the fallback pair |
| WeatherCodes.DescriptionIdentifiesCode | index.js:5-22 | no two table entries share a label, so a label names one known code |
| WeatherCodes.TableWithinOpenMeteo | index.js:5-22 | every code in the table is one that Open-Meteo reports under WMO table 4677 |
| WeatherCodes.UnlabelledOpenMeteoCodes | index.js:24-26 | the Open-Meteo codes missing from the table (56, 57, 66, 67, 77, 80-82, 85, 86, 96, 99) fall back to ("Unknown", "01d") |
| WeatherCodes.Scenarios | index.js:5-26 | 0 gives ("Clear sky", "01d"), 61 gives ("Slight rain", "10d"), 95 gives ("Thunderstorm", "11d"); -1, 56, 80, 99 and 200 give the fallback |
| Temperature.ConvertTemp | index.js:122-128 | with target "F", the result is the integer nearest 9t/5 + 32; with any other target, the integer nearest (t - 32)·5/9; never a tie, in both cases |
| Temperature.ConvertExamples | index.js:122-128 | 0→32, 100→212, -40→-40 to F; 32→0, 212→100, 0→-18 to C; any unit other than "F" takes the Celsius branch |
| Temperature.ConvertMonotone | index.js:122-128 | both branches are monotone non-decreasing |
| Temperature.CelsiusRoundTrip | index.js:122-128 | Celsius to Fahrenheit and back returns exactly the input |
| Temperature.FahrenheitRoundTrip | index.js:122-128 | Fahrenheit to Celsius and back stays within one degree of the input |
| Temperature.FahrenheitRoundTripLossy | index.js:122-128 | that round trip can miss: 33 comes back as 34 |
| Temperature.FahrenheitFixedPoint | index.js:123-124 | the Fahrenheit branch leaves t unchanged exactly when t = -40 |
| Temperature.CelsiusFixedPoints | index.js:125-126 | the Celsius branch leaves t unchanged exactly when t is -41, -40 or -39 |
| Temperature.DisplayTemp | index.js:165 | in "F" the shown number is the integer nearest 9c/5 + 32; in any other unit it is c itself; read under the selected unit label, it means the stored Celsius value c |
| Temperature.DisplayMonotone | index.js:139-140 | the display rule keeps order |
| Temperature.DisplayReading | index.js:165-166 | a stored value shown with its label carries that label, its number is the display-rule value, and it means the stored value |
| Forecast.ForecastItemAt | index.js:134-141 | entry i is labelled "Today" exactly when i = 0, else by its date; it carries day i's weather info; its high and low are the display-rule values of that day's max and min and, read in the list's unit, mean them |
| Forecast.RenderForecast | index.js:130-157 | the list has exactly five entries, equal entry by entry to ForecastItemAt; entry i has day i's weather info, and its high and low are the display-rule values of day i's max and min and mean them |
| Forecast.HighNotBelowLow | index.js:139-140 | a day whose max is not below its min is listed with high not below low, in either unit |
| Forecast.HiLowFor | index.js:181-183 | the "H: / L:" line equals the high and low of the "Today" entry, and means today's max and min |
| UnitToggle.LoadedView | index.js:50-96 | after a forecast arrives: the condition is the code's weather info; feels-like, the "H: / L:" line and the list mean the right values in the selected unit; the main temperature is the Celsius number under the selected label |
| UnitToggle.FeelsLikeAfterToggle | index.js:168-176 | a missing feels-like value stays missing; a present one becomes the display-rule value of its old number under the new label, so it means that number taken as Celsius |
| UnitToggle.FeelsLikeAfterToggleFixed | index.js:168-176 | the intended rewrite: the new reading carries the new label and means what the old reading meant |
| UnitToggle.Redisplay | index.js:159-189 | nothing changes before a temperature is stored; after that the main temperature means the stored value; feels-like is rewritten as above; the "H: / L:" line and the list are redrawn from the stored series; the condition is untouched |
| UnitToggle.AnyToggleHistory | index.js:159-207 | after any non-empty sequence of rewrites, the main temperature, the "H: / L:" line and the list depend only on the last unit |
| UnitToggle.ToggleThereAndBack | index.js:159-207 | loaded in C, switched to F and back: everything matches the loaded page except feels-like, which shows the Fahrenheit number labelled C |
| UnitToggle.MainTempOnLoadMisread | index.js:64 | a forecast arriving while F is selected shows a main temperature that means another value, for every stored value except -41, -40 and -39 |
| UnitToggle.FeelsLikeToggleMisread | index.js:169-174 | switching F to C changes what feels-like means, for every value except -40 |
| UnitToggle.FeelsLikeDrift | index.js:169-174 | repeated switching makes feels-like grow: 20 °C reads 68 °F, 68 °C, 154 °F, 154 °C |
| UnitToggle.Dashboard.constructor | index.js:119-120 | Celsius is selected, no temperature is stored, and the page is blank |
| UnitToggle.Dashboard.ShowWeather | index.js:50-96 | stores the temperature and the daily series, keeps the unit, and leaves the page equal to LoadedView |
| UnitToggle.Dashboard.UpdateTemperatureDisplay | index.js:159-189 | keeps the unit, the stored temperature and the series; the page becomes Redisplay of the old page |
| UnitToggle.Dashboard.ClickCelsius | index.js:191-198 | afterwards C is selected; if C was already selected nothing changes; otherwise the page is redisplayed in C and the main temperature is the stored value |
| UnitToggle.Dashboard.ClickFahrenheit | index.js:200-207 | afterwards F is selected; if F was already selected nothing changes; otherwise the page is redisplayed in F and the main temperature is the converted stored value |

## Left out

- The geocoding and forecast requests, JSON decoding, the "City not found" and failure alerts, and the catch path (index.js:31-48, 98-101) are network I/O. `Dashboard.ShowWeather` starts after both requests have succeeded, with their numbers as parameters.
- The search form handler and the initial request for "New York" (index.js:104-114) are user input and network I/O.
- The page texts copied straight from the response are not modelled: city, country, wind, humidity, pressure, cloud cover and the "N/A" visibility (index.js:62-63, 76-79, 83). Neither is the icon image markup (index.js:73, 142-155).
- Date and time formatting with `toLocaleDateString`/`toLocaleTimeString` (index.js:86-93, 136) depends on the host. A forecast entry keeps its date string, as `DateOf`.
- `Math.round` on the service's floating-point readings (index.js:55, 67-68, 81, 139-140, 181-182) is not modelled. The model takes whole degrees as given.
- `parseInt` on the feels-like text (index.js:169-172) is modelled as reading the number of the stored `Reading`. Text that is empty, "N/A" or not a number is `None`.
- The button `active` classes (index.js:194-195, 203-204) and the About dialog (index.js:209-227) are presentation only.
- Forecast.RenderForecast: requires at least five entries in each daily series. The request never asks for fewer days than that. With a shorter series the page would print "NaN".
- Forecast.HiLowFor: requires the same five-entry series (`Daily.Valid`), although the "H: / L:" line reads only day 0; the request returns seven days, so this excludes no response the page receives.
- UnitToggle.LoadedView: requires the five-entry series for the same reason as Forecast.HiLowFor.
- UnitToggle.Dashboard.ShowWeather: requires the five-entry series for the same reason as Forecast.HiLowFor.
- WeatherCodes.GetWeatherInfo: takes an integer code. A non-integer key would also miss the table and give the fallback.
- Dashboard keeps both faults listed under Findings as written. The corrected definitions are proved beside it and are not wired into the class.

## Findings

| source | as written | input that shows it | evidently intended | confidence | as-written member | corrected member |
|---|---|---|---|---|---|---|
| index.js:64 | after a search, the main temperature is the stored Celsius number printed under the selected unit's label, unconverted | F selected, a forecast with 20 °C arrives: the page shows "20°F", which means -7 °C | convert as lines 67-68, 81 and 165 do: "68°F" | high (not executed) | UnitToggle.MainTempOnLoadMisread | Temperature.DisplayReading |
| index.js:169-174 | on a unit change, feels-like reuses the number on the page; going from F to C keeps the Fahrenheit number and relabels it °C | feels-like 20 °C, click F ("68°F"), click C: "68°C" | read the shown value in its own unit, then show it in the new unit: "20°C" | high (not executed) | UnitToggle.FeelsLikeToggleMisread | UnitToggle.FeelsLikeAfterToggleFixed |
