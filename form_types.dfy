/** The evaluation draft that the multi-page form fills in, and its value
    when the form starts. A competency level is stored as the backend's
    string ("NA", "DEBUTANT", "AUTONOME" or "AUTONOME_PLUS"); an absent
    JavaScript value (`null`, an optional block) is an `Option`. */
module FormTypes {

  import opened Wrappers
  import opened Text

  const Levels: seq<String> := ["NA", "DEBUTANT", "AUTONOME", "AUTONOME_PLUS"]

  predicate IsLevel(s: String) { s in Levels }

  /** A free-text competency; its level may also be "" (not chosen). */
  datatype SpecificCompetency = SpecificCompetency(name: String, level: String)

  datatype GlobalAssessment = GlobalAssessment(
    involvement: int,
    openness: int,
    productionQuality: int,
    observations: String)

  datatype IndividualCompetencies = IndividualCompetencies(
    analysis: String,
    methods: String,
    stakeholders: String,
    international: String,
    selfEvaluation: String,
    complexProblems: String,
    grade: String)

  datatype CompanyBlock = CompanyBlock(
    companyAnalysis: String,
    projectApproach: String,
    environmentalPolicy: String,
    informationResearch: String)

  datatype TechnicalBlock = TechnicalBlock(preliminaryDesign: String)

  datatype CompanyCompetencies = CompanyCompetencies(
    company: Option<CompanyBlock>,
    technical: Option<TechnicalBlock>,
    companyGrade: String,
    technicalGrade: String)

  datatype GeneralAssessment = GeneralAssessment(
    strengths: String,
    areasForImprovement: String,
    overallComment: String,
    overallRating: int)

  datatype FormData = FormData(
    stagiaireCIN: String,
    studentName: String,
    stagiaireId: Option<int>,
    companyName: String,
    tuteurCIN: String,
    tutorName: String,
    tuteurId: Option<int>,
    startDate: String,
    endDate: String,
    projectTheme: String,
    objectives: String,
    globalAssessment: GlobalAssessment,
    individualCompetencies: IndividualCompetencies,
    companyCompetencies: CompanyCompetencies,
    specificCompetencies: seq<SpecificCompetency>,
    generalAssessment: GeneralAssessment)

  const BlankSpecificCompetency := SpecificCompetency("", "DEBUTANT")

  const InitialFormData := FormData(
    "", "", None, "", "", "", None, "", "", "", "",
    GlobalAssessment(0, 0, 0, ""),
    IndividualCompetencies("NA", "NA", "NA", "NA", "NA", "NA", ""),
    CompanyCompetencies(Some(CompanyBlock("NA", "NA", "NA", "NA")), Some(TechnicalBlock("NA")), "", ""),
    [BlankSpecificCompetency, BlankSpecificCompetency, BlankSpecificCompetency,
     BlankSpecificCompetency, BlankSpecificCompetency],
    GeneralAssessment("", "", "", 0))

  /** Every level of the six individual and five company/technical
      competencies is a valid level. */
  predicate LevelsValid(f: FormData) {
    var ic := f.individualCompetencies;
    var cc := f.companyCompetencies;
    && IsLevel(ic.analysis) && IsLevel(ic.methods) && IsLevel(ic.stakeholders)
    && IsLevel(ic.international) && IsLevel(ic.selfEvaluation) && IsLevel(ic.complexProblems)
    && (cc.company.Some? ==>
          var c := cc.company.value;
          IsLevel(c.companyAnalysis) && IsLevel(c.projectApproach)
          && IsLevel(c.environmentalPolicy) && IsLevel(c.informationResearch))
    && (cc.technical.Some? ==> IsLevel(cc.technical.value.preliminaryDesign))
  }

  /** The value the form starts from: no resolved identities, every rating
      unset, every level "NA", no grade, both company blocks present and
      five blank specific competencies. */
  lemma InitialFormDataShape()
    ensures InitialFormData.stagiaireId.None? && InitialFormData.tuteurId.None?
    ensures var g := InitialFormData.globalAssessment;
      g.involvement == 0 && g.openness == 0 && g.productionQuality == 0 && g.observations == ""
    ensures LevelsValid(InitialFormData)
    ensures var ic := InitialFormData.individualCompetencies;
      ic.analysis == "NA" && ic.methods == "NA" && ic.stakeholders == "NA"
      && ic.international == "NA" && ic.selfEvaluation == "NA" && ic.complexProblems == "NA"
      && ic.grade == ""
    ensures var cc := InitialFormData.companyCompetencies;
      && cc.company.Some? && cc.technical.Some?
      && cc.company.value.companyAnalysis == "NA" && cc.company.value.projectApproach == "NA"
      && cc.company.value.environmentalPolicy == "NA" && cc.company.value.informationResearch == "NA"
      && cc.technical.value.preliminaryDesign == "NA"
      && cc.companyGrade == "" && cc.technicalGrade == ""
    ensures InitialFormData.stagiaireCIN == "" && InitialFormData.tuteurCIN == ""
      && InitialFormData.companyName == "" && InitialFormData.startDate == ""
      && InitialFormData.endDate == "" && InitialFormData.projectTheme == ""
    ensures |InitialFormData.specificCompetencies| == 5
    ensures forall i :: 0 <= i < 5 ==>
      InitialFormData.specificCompetencies[i] == SpecificCompetency("", "DEBUTANT")
    ensures InitialFormData.generalAssessment == GeneralAssessment("", "", "", 0)
  {
  }
}
