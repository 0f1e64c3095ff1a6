/**
 * The unit converter. The dashboard keeps temperatures as whole degrees
 * Celsius and converts them for display with JavaScript's Math.round.
 * For an integer input the exact value of either formula is a multiple of
 * 1/5 or 1/9 and so never lies half-way between two integers: Math.round
 * is floor(x + 1/2) there, which is what the integer formulas below compute
 * (Dafny's `/` is floor division for a positive divisor).
 */
module Temperature {

  /**
   * r is the integer nearest to num/den, and strictly nearer than one
   * half: every rounding rule that sends a value to a nearest integer
   * (half up, half away from zero, half to even) gives r.
   */
  ghost predicate NearestTo(r: int, num: int, den: int)
    requires den > 0
  {
    -den < 2 * (den * r - num) < den
  }

  /**
   * The converter. The target unit selects the branch: "F" reads temp as
   * Celsius and gives the Fahrenheit value nearest 9 * temp / 5 + 32; any
   * other unit reads temp as Fahrenheit and gives the Celsius value
   * nearest (temp - 32) * 5 / 9.
   */
  function ConvertTemp(temp: int, toUnit: string): (r: int)
    ensures toUnit == "F" ==> NearestTo(r, 9 * temp + 160, 5)
    ensures toUnit != "F" ==> NearestTo(r, 5 * temp - 160, 9)
  {
    if toUnit == "F" then (18 * temp + 325) / 10 else (10 * temp - 311) / 18
  }

  /** Worked values of both branches, and the branch taken for any other unit. */
  lemma ConvertExamples(other: string)
    requires other != "F"
    ensures ConvertTemp(0, "F") == 32 && ConvertTemp(100, "F") == 212
    ensures ConvertTemp(-40, "F") == -40
    ensures ConvertTemp(32, "C") == 0 && ConvertTemp(212, "C") == 100
    ensures ConvertTemp(0, "C") == -18
    ensures ConvertTemp(212, other) == 100
  {
  }

  /** Both branches are monotone: a warmer input never shows colder. */
  lemma {:induction false} ConvertMonotone(a: int, b: int, toUnit: string)
    requires a <= b
    ensures ConvertTemp(a, toUnit) <= ConvertTemp(b, toUnit)
  {
  }

  /** Converting whole degrees Celsius to Fahrenheit and back is exact. */
  lemma {:induction false} CelsiusRoundTrip(c: int)
    ensures ConvertTemp(ConvertTemp(c, "F"), "C") == c
  {
  }

  /** Converting whole degrees Fahrenheit to Celsius and back is off by at most one. */
  lemma {:induction false} FahrenheitRoundTrip(f: int)
    ensures f - 1 <= ConvertTemp(ConvertTemp(f, "C"), "F") <= f + 1
  {
  }

  /** ... and it can be off: 33 F is 1 C, which is shown as 34 F. */
  lemma FahrenheitRoundTripLossy()
    ensures ConvertTemp(ConvertTemp(33, "C"), "F") == 34
  {
  }

  /** -40 is the only temperature that reads the same in both units. */
  lemma {:induction false} FahrenheitFixedPoint(c: int)
    ensures ConvertTemp(c, "F") == c <==> c == -40
  {
  }

  /**
   * The Fahrenheit-to-Celsius branch leaves -41, -40 and -39 where they
   * are, and moves every other number.
   */
  lemma {:induction false} CelsiusFixedPoints(f: int)
    ensures ConvertTemp(f, "C") == f <==> -41 <= f <= -39
  {
  }

  /** A number on the page together with the unit label printed beside it. */
  datatype Reading = Reading(value: int, unit: string)

  /**
   * The Celsius temperature a reader takes a reading to mean: a value
   * labelled "F" converted back, any other label read as Celsius.
   */
  function CelsiusOf(r: Reading): int
  {
    if r.unit == "F" then ConvertTemp(r.value, "C") else r.value
  }

  /**
   * The display rule shared by every temperature on the page: a stored
   * Celsius value is shown converted when the unit is "F" and as it is
   * otherwise. Read back under the same unit label it means the stored
   * value again.
   */
  function DisplayTemp(unit: string, celsius: int): (shown: int)
    ensures CelsiusOf(Reading(shown, unit)) == celsius
    ensures unit == "F" ==> NearestTo(shown, 9 * celsius + 160, 5)
    ensures unit != "F" ==> shown == celsius
  {
    if unit == "F" then
      CelsiusRoundTrip(celsius);
      ConvertTemp(celsius, "F")
    else
      celsius
  }

  /** The display rule keeps order. */
  lemma {:induction false} DisplayMonotone(unit: string, a: int, b: int)
    requires a <= b
    ensures DisplayTemp(unit, a) <= DisplayTemp(unit, b)
  {
    ConvertMonotone(a, b, "F");
  }

  /** A stored Celsius value shown with its unit label. */
  function DisplayReading(unit: string, celsius: int): (r: Reading)
    ensures r.unit == unit && CelsiusOf(r) == celsius
    ensures r.value == DisplayTemp(unit, celsius)
  {
    Reading(DisplayTemp(unit, celsius), unit)
  }
}
