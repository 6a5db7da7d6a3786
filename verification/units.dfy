/** Unit conversion arithmetic (src/lib/units.js), over exact reals.
    Millimetres are the base unit every conversion passes through. */
module Units {
  import opened Enums

  const MillimetersPerInch: real := 25.4
  const MillimetersPerCentimeter: real := 10.0

  /** How many millimetres one unit of a valid `units` is: an independent
      reference table for the two switch statements below. */
  function MillimetersPer(units: string): (r: real)
    requires UnitsIsValid(units)
    ensures r > 0.0
  {
    if units == Mm then 1.0
    else if units == Cm then MillimetersPerCentimeter
    else MillimetersPerInch
  }

  /** `toMillimeters`: an unknown unit yields 0 (the source also logs an
      error, which is left out). */
  function ToMillimeters(value: real, units: string): (r: real)
    ensures units == Mm ==> r == value
    ensures units == Cm ==> r == value * 10.0
    ensures units == InchDecimal ==> r == value * 25.4
    ensures !UnitsIsValid(units) ==> r == 0.0
  {
    if units == Mm then value
    else if units == Cm then value * MillimetersPerCentimeter
    else if units == InchDecimal then value * MillimetersPerInch
    else 0.0
  }

  /** `fromMillimeters`: divides by the same factors; an unknown unit
      yields 0. */
  function FromMillimeters(value: real, units: string): (r: real)
    ensures units == Mm ==> r == value
    ensures units == Cm ==> r * 10.0 == value
    ensures units == InchDecimal ==> r * 25.4 == value
    ensures !UnitsIsValid(units) ==> r == 0.0
  {
    if units == Mm then value
    else if units == Cm then value / MillimetersPerCentimeter
    else if units == InchDecimal then value / MillimetersPerInch
    else 0.0
  }

  /** For a valid unit both directions scale by the unit's size. */
  lemma MillimeterFactors(value: real, units: string)
    requires UnitsIsValid(units)
    ensures ToMillimeters(value, units) == value * MillimetersPer(units)
    ensures FromMillimeters(value, units) * MillimetersPer(units) == value
  {
  }

  /** `convert` keeps the physical length: the form of `MillimeterFactors`
      used inside `Convert`. */
  lemma ConvertKeepsLength(value: real, fromUnits: string, toUnits: string)
    ensures UnitsIsValid(fromUnits) && UnitsIsValid(toUnits) ==>
              FromMillimeters(ToMillimeters(value, fromUnits), toUnits) * MillimetersPer(toUnits)
              == value * MillimetersPer(fromUnits)
  {
    if UnitsIsValid(fromUnits) && UnitsIsValid(toUnits) {
      MillimeterFactors(value, fromUnits);
      MillimeterFactors(ToMillimeters(value, fromUnits), toUnits);
    }
  }

  /** `fromMillimeters` undoes `toMillimeters`, and vice versa. */
  lemma MillimetersRoundTrip(value: real, units: string)
    requires UnitsIsValid(units)
    ensures FromMillimeters(ToMillimeters(value, units), units) == value
    ensures ToMillimeters(FromMillimeters(value, units), units) == value
  {
  }

  /** `convert`: into millimetres and back out. The result denotes the same
      physical length as the input; an unknown unit on either side yields 0
      whatever the value. */
  function Convert(value: real, fromUnits: string, toUnits: string): (r: real)
    ensures UnitsIsValid(fromUnits) && UnitsIsValid(toUnits) ==>
              r * MillimetersPer(toUnits) == value * MillimetersPer(fromUnits)
    ensures UnitsIsValid(fromUnits) && fromUnits == toUnits ==> r == value
    ensures !UnitsIsValid(fromUnits) || !UnitsIsValid(toUnits) ==> r == 0.0
  {
    var millimeters := ToMillimeters(value, fromUnits);
    ConvertKeepsLength(value, fromUnits, toUnits);
    FromMillimeters(millimeters, toUnits)
  }

  /** Converting there and back restores the value exactly over the reals. */
  lemma ConvertRoundTrip(value: real, a: string, b: string)
    requires UnitsIsValid(a) && UnitsIsValid(b)
    ensures Convert(Convert(value, a, b), b, a) == value
  {
    var there := Convert(value, a, b);
    var back := Convert(there, b, a);
    assert back * MillimetersPer(a) == value * MillimetersPer(a);
  }

  /** Converting in two steps is converting in one. */
  lemma ConvertComposes(value: real, a: string, b: string, c: string)
    requires UnitsIsValid(a) && UnitsIsValid(b) && UnitsIsValid(c)
    ensures Convert(Convert(value, a, b), b, c) == Convert(value, a, c)
  {
    var direct := Convert(value, a, c);
    var twoStep := Convert(Convert(value, a, b), b, c);
    assert twoStep * MillimetersPer(c) == direct * MillimetersPer(c);
  }

  /** 10 to the power `n`. */
  function Pow10(n: nat): (r: real)
    ensures r >= 1.0
  {
    if n == 0 then 1.0 else 10.0 * Pow10(n - 1)
  }

  /** `k` steps of size 10^-`decimals`. */
  function Steps(k: int, decimals: nat): real {
    k as real / Pow10(decimals)
  }

  /** `x` has at most `decimals` fractional digits. */
  ghost predicate OnGrid(x: real, decimals: nat) {
    exists k: int :: Steps(k, decimals) == x
  }

  /** `Math.round` of JavaScript: round half up, i.e. towards +infinity. */
  function Round(x: real): (r: int)
    ensures -0.5 < r as real - x <= 0.5
  {
    (x + 0.5).Floor
  }

  /** Any integer within (-0.5, 0.5] of `x` is `Math.round(x)`. */
  lemma RoundUnique(x: real, k: int)
    requires -0.5 < k as real - x <= 0.5
    ensures Round(x) == k
  {
  }

  /** `limitDecimals`: rounds to `decimals` fractional digits, halves
      upwards. The result lies on the 10^-decimals grid, within half a grid
      step of the input (a tie goes up); these two facts determine it. */
  function LimitDecimals(value: real, decimals: nat): (r: real)
    ensures OnGrid(r, decimals)
    ensures -0.5 < (r - value) * Pow10(decimals) <= 0.5
  {
    var power := Pow10(decimals);
    var rounded := Round(value * power);
    var r := rounded as real / power;
    assert r * power == rounded as real;
    assert Steps(rounded, decimals) == r;
    r
  }

  /** A value already on the grid is left unchanged. */
  lemma LimitDecimalsKeepsGrid(value: real, decimals: nat)
    requires OnGrid(value, decimals)
    ensures LimitDecimals(value, decimals) == value
  {
    var k: int :| Steps(k, decimals) == value;
    assert value * Pow10(decimals) == k as real;
    RoundUnique(value * Pow10(decimals), k);
  }

  /** Limiting twice is limiting once. */
  lemma LimitDecimalsIdempotent(value: real, decimals: nat)
    ensures LimitDecimals(LimitDecimals(value, decimals), decimals) == LimitDecimals(value, decimals)
  {
    LimitDecimalsKeepsGrid(LimitDecimals(value, decimals), decimals);
  }

  /** Zero lies on every grid. */
  lemma ZeroOnGrid(decimals: nat)
    ensures OnGrid(0.0, decimals)
    ensures LimitDecimals(0.0, decimals) == 0.0
  {
    assert Steps(0, decimals) == 0.0;
    LimitDecimalsKeepsGrid(0.0, decimals);
  }

  /** Scaling a grid value up by ten keeps it on the grid. */
  lemma TenfoldOnGrid(value: real, decimals: nat)
    requires OnGrid(value, decimals)
    ensures OnGrid(value * 10.0, decimals)
  {
    var k: int :| Steps(k, decimals) == value;
    assert Steps(10 * k, decimals) == value * 10.0;
  }

  /** Going from centimetres to millimetres and back, rounding to
      `decimals` digits each time, restores a value on that grid. */
  lemma CentimeterMillimeterRoundTrip(value: real, decimals: nat)
    requires OnGrid(value, decimals)
    ensures var there := LimitDecimals(Convert(value, Cm, Mm), decimals);
            there == value * 10.0 &&
            LimitDecimals(Convert(there, Mm, Cm), decimals) == value
  {
    TenfoldOnGrid(value, decimals);
    LimitDecimalsKeepsGrid(value * 10.0, decimals);
    assert Convert(value * 10.0, Mm, Cm) == value;
    LimitDecimalsKeepsGrid(value, decimals);
  }

  /** With rounding to three digits, one millimetre taken to decimal inches
      and back comes out as 0.991 mm: switching units away and back does not
      restore values within 0.001 in general. */
  lemma MillimeterInchRoundTripDrifts()
    ensures LimitDecimals(Convert(1.0, Mm, InchDecimal), 3) == 0.039
    ensures LimitDecimals(Convert(0.039, InchDecimal, Mm), 3) == 0.991
  {
    assert Pow10(3) == 1000.0;
    var inches := Convert(1.0, Mm, InchDecimal);
    assert inches * 25.4 == 1.0;
    RoundUnique(inches * 1000.0, 39);
    assert Convert(0.039, InchDecimal, Mm) == 0.9906;
    RoundUnique(0.9906 * 1000.0, 991);
  }
}
