/** The individual-competencies page: a level change for one of the six
    competencies, and the grade input. */
module ProfessionalSkillsPage {

  import opened Wrappers
  import opened Text
  import opened FormTypes
  import opened Grades
  import opened AppService

  datatype IndividualField =
    | Analysis | Methods | Stakeholders | International | SelfEvaluation | ComplexProblems

  function LevelOf(ic: IndividualCompetencies, fld: IndividualField): String {
    match fld
    case Analysis => ic.analysis
    case Methods => ic.methods
    case Stakeholders => ic.stakeholders
    case International => ic.international
    case SelfEvaluation => ic.selfEvaluation
    case ComplexProblems => ic.complexProblems
  }

  /** The position of each competency among the individual categories the
      submission sends. */
  function CategoryIndex(fld: IndividualField): (k: nat)
    ensures k < 6
  {
    match fld
    case Analysis => 0
    case Methods => 1
    case Stakeholders => 2
    case International => 3
    case SelfEvaluation => 4
    case ComplexProblems => 5
  }

  /** `handleCompetencyChange(name, value)`: the named level is set; the
      other levels, the grade and the rest of the draft are unchanged. */
  function HandleCompetencyChange(f: FormData, fld: IndividualField, value: String): (r: FormData)
    ensures r == f.(individualCompetencies := r.individualCompetencies)
    ensures LevelOf(r.individualCompetencies, fld) == value
    ensures forall g :: g != fld ==> LevelOf(r.individualCompetencies, g) == LevelOf(f.individualCompetencies, g)
    ensures r.individualCompetencies.grade == f.individualCompetencies.grade
  {
    var ic := f.individualCompetencies;
    var ic' := match fld
      case Analysis => ic.(analysis := value)
      case Methods => ic.(methods := value)
      case Stakeholders => ic.(stakeholders := value)
      case International => ic.(international := value)
      case SelfEvaluation => ic.(selfEvaluation := value)
      case ComplexProblems => ic.(complexProblems := value);
    f.(individualCompetencies := ic')
  }

  /** `handleGradeChange(value)`: only the individual grade changes. */
  function HandleGradeChange(f: FormData, input: GradeInput): (r: FormData)
    ensures r == f.(individualCompetencies := f.individualCompetencies.(grade := r.individualCompetencies.grade))
    ensures r.individualCompetencies.grade == "" <==> input.Empty?
    ensures ParseFloatOrZero(r.individualCompetencies.grade) == if input.Empty? then 0 else Clamp(input.value)
  {
    StoredGradeReadsBack(input);
    f.(individualCompetencies := f.individualCompetencies.(grade := StoredGrade(input)))
  }

  /** A level chosen here is what the submission sends in the individual
      group, at that competency's position. */
  lemma LevelReachesSubmission(f: FormData, fld: IndividualField, value: String)
    ensures var g := CompetencesOf(HandleCompetencyChange(f, fld, value))[0];
      g.intitule == Individuelle && g.categories[CategoryIndex(fld)].valeur == value
  {
    var r := HandleCompetencyChange(f, fld, value);
    assert CompetencesOf(r)[0] == IndividualCompetence(r.individualCompetencies);
  }

  /** The grade entered here is the individual group's note. */
  lemma GradeReachesSubmission(f: FormData, input: GradeInput)
    ensures CompetencesOf(HandleGradeChange(f, input))[0].note == if input.Empty? then 0 else Clamp(input.value)
  {
    var r := HandleGradeChange(f, input);
    assert CompetencesOf(r)[0] == IndividualCompetence(r.individualCompetencies);
  }
}
