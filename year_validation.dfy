/** The request-body schemas of the year routes. The current calendar year is a
    parameter; the numeric year is any number, not only a whole one. */
module YearValidation {
  import opened Common

  const EarliestYear: real := 1900.0

  datatype YearBody = YearBody(numeric: Option<real>, display: Option<string>)

  /** The range both schemas put on a numeric year: from 1900 up to and
      including the year after the current one. */
  predicate InRange(numeric: real, currentYear: int) {
    EarliestYear <= numeric <= (currentYear + 1) as real
  }

  /** `createYearZodSchema`: a numeric year in range and a display name. */
  predicate CreateYearValid(b: YearBody, currentYear: int) {
    b.numeric.Some? && InRange(b.numeric.value, currentYear) && b.display.Some?
  }

  /** `updateYearZodSchema`: both fields optional; a numeric year that is present is in range. */
  predicate UpdateYearValid(b: YearBody, currentYear: int) {
    b.numeric.Some? ==> InRange(b.numeric.value, currentYear)
  }

  /** Every body the create schema accepts, the update schema accepts too. */
  lemma CreateImpliesUpdate(b: YearBody, currentYear: int)
    requires CreateYearValid(b, currentYear)
    ensures UpdateYearValid(b, currentYear)
  {
  }

  /** Both bounds are inclusive, the upper one is next year (although the message
      speaks of the current year), and the range is never empty once the current
      year is 1899 or later. */
  lemma RangeBounds(currentYear: int)
    ensures InRange(1900.0, currentYear) <==> currentYear >= 1899
    ensures currentYear >= 1899 ==> InRange((currentYear + 1) as real, currentYear)
    ensures !InRange((currentYear + 2) as real, currentYear)
    ensures !InRange(1899.0, currentYear)
  {
  }

  /** A range that accepts a year keeps accepting it in later years. */
  lemma LaterYearsAcceptMore(numeric: real, currentYear: int, laterYear: int)
    requires currentYear <= laterYear
    requires InRange(numeric, currentYear)
    ensures InRange(numeric, laterYear)
  {
  }
}
