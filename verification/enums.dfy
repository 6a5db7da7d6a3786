/** The two closed enumerations of the designer and their validators
    (src/lib/enums.js). */
module Enums {

  const Mm: string := "mm"
  const Cm: string := "cm"
  const InchDecimal: string := "inchdecimal"
  /** The unit that the source keeps commented out of the enumeration. */
  const InchFractional: string := "inchfractional"

  /** The values of the `UnitsEnum` object. */
  const UnitsEnum: set<string> := {Mm, Cm, InchDecimal}

  const Uniform: string := "uniform"
  const Alternate: string := "alternate"
  const Custom: string := "custom"

  /** The values of the `DirectionEnum` object. */
  const DirectionEnum: set<string> := {Uniform, Alternate, Custom}

  /** `UnitsEnum.isValid`: a membership test written as a switch over the
      three enumeration members. */
  function UnitsIsValid(value: string): (r: bool)
    ensures r <==> value in UnitsEnum
  {
    value == Mm || value == Cm || value == InchDecimal
  }

  /** The commented-out fractional-inch unit is not accepted. */
  lemma InchFractionalRejected()
    ensures !UnitsIsValid(InchFractional)
    ensures InchFractional !in UnitsEnum
  {
  }

  /** `DirectionEnum.isValid`: despite its name, a normaliser that passes a
      member through and maps anything else to 'uniform'. */
  function DirectionIsValid(value: string): (r: string)
    ensures r in DirectionEnum
    ensures value in DirectionEnum ==> r == value
    ensures value !in DirectionEnum ==> r == Uniform
  {
    if value == Uniform || value == Alternate || value == Custom then value
    else Uniform
  }

  /** Normalising a direction twice is normalising it once, and the
      members are exactly the fixed points. */
  lemma DirectionIsValidIdempotent(value: string)
    ensures DirectionIsValid(DirectionIsValid(value)) == DirectionIsValid(value)
    ensures DirectionIsValid(value) == value <==> value in DirectionEnum
  {
  }
}
