/** The company-competencies page: a level change in the company or the
    technical section, and a grade change for either section's grade. */
module CompanyCompetenciesPage {

  import opened Wrappers
  import opened Text
  import opened FormTypes
  import opened Grades
  import opened AppService

  datatype Section = CompanySection | TechnicalSection

  datatype CompanyField = CompanyAnalysis | ProjectApproach | EnvironmentalPolicy | InformationResearch

  /** The competency a radio group edits: one of the four company fields,
      or the single technical one. */
  datatype Competency = OfCompany(field: CompanyField) | PreliminaryDesign

  function CompanyFieldOf(b: CompanyBlock, fld: CompanyField): String {
    match fld
    case CompanyAnalysis => b.companyAnalysis
    case ProjectApproach => b.projectApproach
    case EnvironmentalPolicy => b.environmentalPolicy
    case InformationResearch => b.informationResearch
  }

  /** A company block read through `... || {}`. The code's empty object
      leaves the other three fields `undefined`; the model, whose fields
      are strings, reads them as the empty string. */
  function CompanyBlockOrBlank(b: Option<CompanyBlock>): CompanyBlock {
    if b.Some? then b.value else CompanyBlock("", "", "", "")
  }

  function SetCompanyField(b: CompanyBlock, fld: CompanyField, value: String): (r: CompanyBlock)
    ensures CompanyFieldOf(r, fld) == value
    ensures forall g :: g != fld ==> CompanyFieldOf(r, g) == CompanyFieldOf(b, g)
  {
    match fld
    case CompanyAnalysis => b.(companyAnalysis := value)
    case ProjectApproach => b.(projectApproach := value)
    case EnvironmentalPolicy => b.(environmentalPolicy := value)
    case InformationResearch => b.(informationResearch := value)
  }

  /** `handleCompetencyChange(section, name, value)`: the section's block,
      created when absent, gets `name` set and keeps its other fields; the
      other section, both grades and the rest of the draft are unchanged. */
  function HandleCompetencyChange(f: FormData, c: Competency, value: String): (r: FormData)
    ensures r == f.(companyCompetencies := r.companyCompetencies)
    ensures r.companyCompetencies.companyGrade == f.companyCompetencies.companyGrade
    ensures r.companyCompetencies.technicalGrade == f.companyCompetencies.technicalGrade
    ensures c.OfCompany? ==>
      && r.companyCompetencies.technical == f.companyCompetencies.technical
      && r.companyCompetencies.company.Some?
      && CompanyFieldOf(r.companyCompetencies.company.value, c.field) == value
      && forall g :: g != c.field ==>
           CompanyFieldOf(r.companyCompetencies.company.value, g) == CompanyFieldOf(CompanyBlockOrBlank(f.companyCompetencies.company), g)
    ensures c == PreliminaryDesign ==>
      && r.companyCompetencies.company == f.companyCompetencies.company
      && r.companyCompetencies.technical == Some(TechnicalBlock(value))
  {
    var cc := f.companyCompetencies;
    match c
    case OfCompany(fld) =>
      f.(companyCompetencies := cc.(company := Some(SetCompanyField(CompanyBlockOrBlank(cc.company), fld, value))))
    case PreliminaryDesign =>
      f.(companyCompetencies := cc.(technical := Some(TechnicalBlock(value))))
  }

  /** `handleGradeChange(section, value)`: writes the grade named after the
      section (`${section}Grade`) and nothing else. */
  function HandleGradeChange(f: FormData, s: Section, input: GradeInput): (r: FormData)
    ensures r == f.(companyCompetencies := r.companyCompetencies)
    ensures r.companyCompetencies.company == f.companyCompetencies.company
    ensures r.companyCompetencies.technical == f.companyCompetencies.technical
    ensures s == CompanySection ==>
      r.companyCompetencies.companyGrade == StoredGrade(input)
      && r.companyCompetencies.technicalGrade == f.companyCompetencies.technicalGrade
    ensures s == TechnicalSection ==>
      r.companyCompetencies.technicalGrade == StoredGrade(input)
      && r.companyCompetencies.companyGrade == f.companyCompetencies.companyGrade
  {
    var cc := f.companyCompetencies;
    match s
    case CompanySection => f.(companyCompetencies := cc.(companyGrade := StoredGrade(input)))
    case TechnicalSection => f.(companyCompetencies := cc.(technicalGrade := StoredGrade(input)))
  }

  /** A grade entered on this page is what the submission sends as the
      section's note: the clamped number, or 0 for an empty input. */
  lemma GradeReachesSubmission(f: FormData, s: Section, input: GradeInput)
    requires s == CompanySection ==> f.companyCompetencies.company.Some?
    requires s == TechnicalSection ==> f.companyCompetencies.technical.Some?
    ensures var r := HandleGradeChange(f, s, input);
      var group := if s == CompanySection then Entreprise else Technique;
      exists i :: 0 <= i < |CompetencesOf(r)| && CompetencesOf(r)[i].intitule == group
        && CompetencesOf(r)[i].note == (if input.Empty? then 0 else Clamp(input.value))
  {
    var r := HandleGradeChange(f, s, input);
    var cs := CompetencesOf(r);
    StoredGradeReadsBack(input);
    if s == CompanySection {
      assert cs[1] == CompanyCompetence(r.companyCompetencies.company.value, StoredGrade(input));
    } else {
      var i := if r.companyCompetencies.company.Some? then 2 else 1;
      assert cs[i] == TechnicalCompetence(r.companyCompetencies.technical.value, StoredGrade(input));
    }
  }

  /** A level chosen on this page is what the submission sends for that
      category, and it makes the section's group present. */
  lemma LevelReachesSubmission(f: FormData, fld: CompanyField, value: String)
    ensures var r := HandleCompetencyChange(f, OfCompany(fld), value);
      var cats := CompetencesOf(r)[1].categories;
      CompetencesOf(r)[1].intitule == Entreprise
      && exists k :: 0 <= k < |cats| && cats[k].valeur == value
  {
    var r := HandleCompetencyChange(f, OfCompany(fld), value);
    var b := r.companyCompetencies.company.value;
    assert CompetencesOf(r)[1] == CompanyCompetence(b, r.companyCompetencies.companyGrade);
    var k := match fld
      case CompanyAnalysis => 0
      case ProjectApproach => 1
      case EnvironmentalPolicy => 2
      case InformationResearch => 3;
    assert CompetencesOf(r)[1].categories[k].valeur == CompanyFieldOf(b, fld);
  }
}
