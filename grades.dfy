/** The grade inputs of the competency pages: an empty input is stored as
    "", a number is clamped into [0, 20] and stored as its decimal text
    (`value === "" ? "" : Math.min(Math.max(0, Number(value)), 20).toString()`). */
module Grades {

  import opened Text

  /** What the grade input field holds: nothing, or a whole number. */
  datatype GradeInput = Empty | Number(value: int)

  /** `Math.min(Math.max(0, v), 20)`: v itself inside [0, 20], the nearest
      bound outside it. */
  function Clamp(v: int): (r: nat)
    ensures r <= 20
    ensures 0 <= v <= 20 ==> r == v
    ensures v < 0 ==> r == 0
    ensures v > 20 ==> r == 20
  {
    var low := if v < 0 then 0 else v;
    if low > 20 then 20 else low
  }

  function StoredGrade(input: GradeInput): (r: String)
    ensures r == "" <==> input.Empty?
  {
    match input
    case Empty => ""
    case Number(v) => NatToString(Clamp(v))
  }

  /** Reading a stored grade back as `parseFloat(grade) || 0` does gives the
      clamped number; an empty grade reads as 0. */
  lemma StoredGradeReadsBack(input: GradeInput)
    ensures ParseFloatOrZero(StoredGrade(input)) == if input.Empty? then 0 else Clamp(input.value)
  {
    if input.Number? {
      ParseFloatOfNat(Clamp(input.value));
    }
  }

  /** Entering a stored grade again stores the same text. */
  lemma StoredGradeIdempotent(input: GradeInput)
    requires input.Number?
    ensures StoredGrade(Number(ParseFloatOrZero(StoredGrade(input)))) == StoredGrade(input)
  {
    StoredGradeReadsBack(input);
  }
}
