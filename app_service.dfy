/** The submission of an evaluation draft: the rating vocabulary of the
    backend, the Stage, Periode and Appreciation payloads built from the
    draft, and the fail-fast sequence of backend calls (look up the intern,
    look up the tutor, create the stage, create the periode, create the
    appreciation). The backend is a scripted oracle: `Backend` fixes what
    each call answers, and `BackendClient` records every call in order. */
module AppService {

  import opened Wrappers
  import opened Text
  import opened Seqs
  import opened FormTypes
  import opened People

  // ----- rating vocabulary -------------------------------------------------

  datatype Dimension = Involvement | Openness | Quality

  /** The five backend values of each dimension, for ratings 1 to 5. */
  function RatingTable(d: Dimension): (t: seq<String>)
    ensures |t| == 5
  {
    match d
    case Involvement => ["PARESSEUX", "JUSTE_NECESSAIRE", "BONNE", "TRES_FORTE", "DEPASSE_OBJECTIFS"]
    case Openness => ["ISOLE", "RENFERME", "BONNE", "TRES_BONNE", "EXCELLENTE"]
    case Quality => ["MEDIOCRE", "ACCEPTABLE", "BONNE", "TRES_BONNE", "TRES_PROFESSIONNELLE"]
  }

  /** `getEvaluationValue`: 0 is "NA"; 1 to 5 give the dimension's table
      entry; every other rating falls back to "BONNE". */
  function GetEvaluationValue(rating: int, d: Dimension): (r: String)
    ensures r == "NA" <==> rating == 0
    ensures rating != 0 && !(1 <= rating <= 5) ==> r == "BONNE"
  {
    if rating == 0 then "NA"
    else match d
      case Involvement =>
        (if rating == 1 then "PARESSEUX" else if rating == 2 then "JUSTE_NECESSAIRE"
         else if rating == 3 then "BONNE" else if rating == 4 then "TRES_FORTE"
         else if rating == 5 then "DEPASSE_OBJECTIFS" else "BONNE")
      case Openness =>
        (if rating == 1 then "ISOLE" else if rating == 2 then "RENFERME"
         else if rating == 3 then "BONNE" else if rating == 4 then "TRES_BONNE"
         else if rating == 5 then "EXCELLENTE" else "BONNE")
      case Quality =>
        (if rating == 1 then "MEDIOCRE" else if rating == 2 then "ACCEPTABLE"
         else if rating == 3 then "BONNE" else if rating == 4 then "TRES_BONNE"
         else if rating == 5 then "TRES_PROFESSIONNELLE" else "BONNE")
  }

  /** Ratings 1 to 5 read the dimension's table, and every rating but 0
      gives one of its five values. */
  lemma EvaluationValueInTable(rating: int, d: Dimension)
    ensures 1 <= rating <= 5 ==> GetEvaluationValue(rating, d) == RatingTable(d)[rating - 1]
    ensures rating != 0 ==> GetEvaluationValue(rating, d) in RatingTable(d)
  {
    if rating != 0 && !(1 <= rating <= 5) {
      assert RatingTable(d)[2] == "BONNE";
    }
  }

  /** Each dimension gives the five ratings five different values. */
  lemma GetEvaluationValueInjective(d: Dimension, r1: int, r2: int)
    requires 1 <= r1 <= 5 && 1 <= r2 <= 5 && r1 != r2
    ensures GetEvaluationValue(r1, d) != GetEvaluationValue(r2, d)
  {
    EvaluationValueInTable(r1, d);
    EvaluationValueInTable(r2, d);
    var t := RatingTable(d);
    assert forall i, j :: 0 <= i < j < 5 ==> t[i] != t[j];
  }

  // ----- payloads ----------------------------------------------------------

  datatype StagePayload = StagePayload(description: String, objectif: String, entreprise: String)

  datatype PeriodePayload = PeriodePayload(stagiaireId: int, stageId: int, dateDebut: String, dateFin: String)

  datatype EvaluationDTO = EvaluationDTO(categorie: String, valeur: String)

  datatype CategoryDTO = CategoryDTO(intitule: String, valeur: String)

  datatype CompetenceDTO = CompetenceDTO(intitule: String, note: int, categories: seq<CategoryDTO>)

  datatype AppreciationDTO = AppreciationDTO(
    stagiaireId: int,
    stageId: int,
    tuteurId: int,
    evaluations: seq<EvaluationDTO>,
    competences: seq<CompetenceDTO>)

  const Individuelle: String := "COMPETENCE_INDIVIDUELLE"
  const Entreprise: String := "COMPETENCE_ENTREPRISE"
  const Technique: String := "COMPETENCE_TECHNIQUE"
  const Specifique: String := "COMPETENCE_SPECIFIQUE"
  const ObservationCategory: String := "OBSERVATION_SUR_ENSEMBLE_DU_TRAVAIL_ACCOMPLI"

  function StageOf(f: FormData): StagePayload {
    StagePayload(f.projectTheme, f.objectives, f.companyName)
  }

  /** The global evaluations: involvement, openness and quality in that
      order, and a fourth observation entry exactly when the observation
      text is non-empty. */
  function EvaluationsOf(g: GlobalAssessment): (r: seq<EvaluationDTO>)
    ensures |r| == if g.observations != "" then 4 else 3
    ensures r[0] == EvaluationDTO("IMPLICATION_ACTIVITE", GetEvaluationValue(g.involvement, Involvement))
    ensures r[1] == EvaluationDTO("OUVERTURE_AUX_AUTRES", GetEvaluationValue(g.openness, Openness))
    ensures r[2] == EvaluationDTO("QUALITE_DE_SES_PRODUCTIONS", GetEvaluationValue(g.productionQuality, Quality))
    ensures |r| == 4 ==> r[3] == EvaluationDTO(ObservationCategory, "BONNE")
  {
    [EvaluationDTO("IMPLICATION_ACTIVITE", GetEvaluationValue(g.involvement, Involvement)),
     EvaluationDTO("OUVERTURE_AUX_AUTRES", GetEvaluationValue(g.openness, Openness)),
     EvaluationDTO("QUALITE_DE_SES_PRODUCTIONS", GetEvaluationValue(g.productionQuality, Quality))]
    + (if g.observations != "" then [EvaluationDTO(ObservationCategory, "BONNE")] else [])
  }

  /** `evaluations` is built by pushing onto a fixed three-entry list. */
  method BuildEvaluations(g: GlobalAssessment) returns (evaluations: seq<EvaluationDTO>)
    ensures evaluations == EvaluationsOf(g)
  {
    evaluations := [
      EvaluationDTO("IMPLICATION_ACTIVITE", GetEvaluationValue(g.involvement, Involvement)),
      EvaluationDTO("OUVERTURE_AUX_AUTRES", GetEvaluationValue(g.openness, Openness)),
      EvaluationDTO("QUALITE_DE_SES_PRODUCTIONS", GetEvaluationValue(g.productionQuality, Quality))
    ];
    if g.observations != "" {
      evaluations := evaluations + [EvaluationDTO(ObservationCategory, "BONNE")];
    }
  }

  function IndividualCompetence(ic: IndividualCompetencies): CompetenceDTO {
    CompetenceDTO(Individuelle, ParseFloatOrZero(ic.grade), [
      CategoryDTO("ANALYSE_SYNTHESE", ic.analysis),
      CategoryDTO("PROPOSER_METHODES", ic.methods),
      CategoryDTO("FAIRE_ADHERER", ic.stakeholders),
      CategoryDTO("CONTEXTE_INTERNATIONAL", ic.international),
      CategoryDTO("AUTOEVALUATION", ic.selfEvaluation),
      CategoryDTO("IDENTIFIER_PROBLEMES", ic.complexProblems)])
  }

  function CompanyCompetence(c: CompanyBlock, grade: String): CompetenceDTO {
    CompetenceDTO(Entreprise, ParseFloatOrZero(grade), [
      CategoryDTO("ANALYSER_FONCTIONNEMENT", c.companyAnalysis),
      CategoryDTO("ANALYSER_DEMARCHE_PROJET", c.projectApproach),
      CategoryDTO("POLITIQUE_ENVIRONNEMENTALE", c.environmentalPolicy),
      CategoryDTO("RECHERCHER_INFORMATION", c.informationResearch)])
  }

  function TechnicalCompetence(t: TechnicalBlock, grade: String): CompetenceDTO {
    CompetenceDTO(Technique, ParseFloatOrZero(grade), [CategoryDTO("CONCEPTION_PRELIMINAIRE", t.preliminaryDesign)])
  }

  /** `comp.name && comp.name.trim() !== ""`. */
  predicate IsNamed(c: SpecificCompetency) {
    c.name != "" && !IsBlank(c.name)
  }

  /** The category of one named specific competency: its untrimmed name,
      and "DEBUTANT" when no level was chosen. */
  function SpecificCategory(c: SpecificCompetency): CategoryDTO {
    CategoryDTO(c.name, if c.level == "" then "DEBUTANT" else c.level)
  }

  function SpecificCategories(cs: seq<SpecificCompetency>): (r: seq<CategoryDTO>)
    ensures |r| == |cs|
    ensures forall i :: 0 <= i < |cs| ==> r[i] == SpecificCategory(cs[i])
  {
    seq(|cs|, i requires 0 <= i < |cs| => SpecificCategory(cs[i]))
  }

  /** The `forEach` that pushes one category per named competency. */
  method CollectSpecificCategories(valid: seq<SpecificCompetency>) returns (categories: seq<CategoryDTO>)
    ensures |categories| == |valid|
    ensures forall i :: 0 <= i < |valid| ==>
      categories[i].intitule == valid[i].name
      && categories[i].valeur == (if valid[i].level == "" then "DEBUTANT" else valid[i].level)
  {
    categories := [];
    var k := 0;
    while k < |valid|
      invariant 0 <= k <= |valid|
      invariant |categories| == k
      invariant forall i :: 0 <= i < k ==> categories[i] == SpecificCategory(valid[i])
    {
      categories := categories + [CategoryDTO(valid[k].name, if valid[k].level == "" then "DEBUTANT" else valid[k].level)];
      k := k + 1;
    }
  }

  function NamedCompetencies(cs: seq<SpecificCompetency>): seq<SpecificCompetency> {
    Filter(cs, IsNamed)
  }

  /** The competence groups, in push order: individual, company when
      present, technical when present, specific when some name is given. */
  function CompetencesOf(f: FormData): seq<CompetenceDTO> {
    var cc := f.companyCompetencies;
    var named := NamedCompetencies(f.specificCompetencies);
    [IndividualCompetence(f.individualCompetencies)]
    + (if cc.company.Some? then [CompanyCompetence(cc.company.value, cc.companyGrade)] else [])
    + (if cc.technical.Some? then [TechnicalCompetence(cc.technical.value, cc.technicalGrade)] else [])
    + (if |named| > 0 then [CompetenceDTO(Specifique, 0, SpecificCategories(named))] else [])
  }

  method BuildCompetences(f: FormData) returns (competences: seq<CompetenceDTO>)
    ensures competences == CompetencesOf(f)
  {
    var cc := f.companyCompetencies;
    competences := [IndividualCompetence(f.individualCompetencies)];
    if cc.company.Some? {
      competences := competences + [CompanyCompetence(cc.company.value, cc.companyGrade)];
    }
    if cc.technical.Some? {
      competences := competences + [TechnicalCompetence(cc.technical.value, cc.technicalGrade)];
    }
    var valid := NamedCompetencies(f.specificCompetencies);
    if |valid| > 0 {
      var categories := CollectSpecificCategories(valid);
      assert categories == SpecificCategories(valid);
      competences := competences + [CompetenceDTO(Specifique, 0, categories)];
    }
  }

  predicate HasGroup(cs: seq<CompetenceDTO>, intitule: String) {
    exists i :: 0 <= i < |cs| && cs[i].intitule == intitule
  }

  /** The shape of `competences`: the individual group first with its six
      categories, then the company group iff the company block is present
      and the technical group iff the technical block is. */
  lemma CompetencesShape(f: FormData)
    ensures var cs := CompetencesOf(f);
      && |cs| >= 1 && cs[0].intitule == Individuelle && |cs[0].categories| == 6
      && (HasGroup(cs, Entreprise) <==> f.companyCompetencies.company.Some?)
      && (HasGroup(cs, Technique) <==> f.companyCompetencies.technical.Some?)
  {
    var cs := CompetencesOf(f);
    var cc := f.companyCompetencies;
    var n0 := 1;
    var n1 := n0 + (if cc.company.Some? then 1 else 0);
    var n2 := n1 + (if cc.technical.Some? then 1 else 0);
    assert forall i :: n0 <= i < n1 ==> cs[i].intitule == Entreprise;
    assert forall i :: n1 <= i < n2 ==> cs[i].intitule == Technique;
    assert forall i :: n2 <= i < |cs| ==> cs[i].intitule == Specifique;
    if cc.company.Some? { assert cs[n0].intitule == Entreprise; }
    if cc.technical.Some? { assert cs[n1].intitule == Technique; }
  }

  /** The specific group is sent iff some name has non-whitespace content;
      it is the last group, with note 0 and the named entries in order,
      untrimmed. */
  lemma SpecificGroupShape(f: FormData)
    ensures HasGroup(CompetencesOf(f), Specifique) <==> exists c :: c in f.specificCompetencies && IsNamed(c)
    ensures forall i :: 0 <= i < |CompetencesOf(f)| && CompetencesOf(f)[i].intitule == Specifique ==>
      i == |CompetencesOf(f)| - 1
      && CompetencesOf(f)[i].note == 0
      && CompetencesOf(f)[i].categories == SpecificCategories(NamedCompetencies(f.specificCompetencies))
  {
    var cs := CompetencesOf(f);
    var named := NamedCompetencies(f.specificCompetencies);
    forall c ensures c in named <==> c in f.specificCompetencies && IsNamed(c) {
      FilterMembership(f.specificCompetencies, IsNamed, c);
    }
    if |named| > 0 {
      assert named[0] in named;
    }
    var cc := f.companyCompetencies;
    var n2 := 1 + (if cc.company.Some? then 1 else 0) + (if cc.technical.Some? then 1 else 0);
    assert forall i :: 0 <= i < n2 ==> cs[i].intitule != Specifique;
    assert |cs| == n2 + (if |named| > 0 then 1 else 0);
    if |named| > 0 {
      assert cs[n2] == CompetenceDTO(Specifique, 0, SpecificCategories(named));
    }
  }

  /** What the appreciation reports about the intern: the global
      evaluations and the competence groups. */
  datatype Assessment = Assessment(evaluations: seq<EvaluationDTO>, competences: seq<CompetenceDTO>)

  function AssessmentOf(f: FormData): Assessment {
    Assessment(EvaluationsOf(f.globalAssessment), CompetencesOf(f))
  }

  /** The assessment is read from the ratings and competencies alone, so
      writing the two ids into the draft leaves it as it was. */
  lemma AssessmentIgnoresIds(f: FormData, g: FormData)
    requires g == f.(stagiaireId := g.stagiaireId, tuteurId := g.tuteurId)
    ensures AssessmentOf(g) == AssessmentOf(f)
  {
    assert g.globalAssessment == f.globalAssessment;
    assert g.companyCompetencies == f.companyCompetencies;
    assert g.individualCompetencies == f.individualCompetencies;
    assert g.specificCompetencies == f.specificCompetencies;
  }

  // ----- the backend oracle ------------------------------------------------

  /** What the backend answers: the interns and tutors known by CIN, and
      the reply to each creation call (an id or an error message). */
  datatype Backend = Backend(
    interns: map<String, Person>,
    tutors: map<String, Person>,
    stageReply: Result<int, String>,
    periodeReply: Outcome<String>,
    appreciationReply: Outcome<String>)

  datatype Call =
    | StagiaireLookup(cin: String)
    | TuteurLookup(cin: String)
    | StageCreation(stage: StagePayload)
    | PeriodeCreation(periode: PeriodePayload)
    | AppreciationCreation(appreciation: AppreciationDTO)

  function Lookup(m: map<String, Person>, cin: String): Option<Person> {
    if cin in m then Some(m[cin]) else None
  }

  /** An identity that `!formData.stagiaireId` treats as missing: null or 0. */
  predicate IsFalsy(id: Option<int>) {
    id.None? || id.value == 0
  }

  class BackendClient {
    const backend: Backend
    ghost var log: seq<Call>

    constructor (backend: Backend)
      ensures this.backend == backend && log == []
    {
      this.backend := backend;
      log := [];
    }

    method CheckStagiaireExists(cin: String) returns (r: Option<Person>)
      modifies this
      ensures log == old(log) + [StagiaireLookup(cin)]
      ensures r == Lookup(backend.interns, cin)
    {
      log := log + [StagiaireLookup(cin)];
      r := Lookup(backend.interns, cin);
    }

    method CheckTuteurExists(cin: String) returns (r: Option<Person>)
      modifies this
      ensures log == old(log) + [TuteurLookup(cin)]
      ensures r == Lookup(backend.tutors, cin)
    {
      log := log + [TuteurLookup(cin)];
      r := Lookup(backend.tutors, cin);
    }

    method CreateStage(stage: StagePayload) returns (r: Result<int, String>)
      modifies this
      ensures log == old(log) + [StageCreation(stage)]
      ensures r == backend.stageReply
    {
      log := log + [StageCreation(stage)];
      r := backend.stageReply;
    }

    method CreatePeriode(periode: PeriodePayload) returns (r: Outcome<String>)
      modifies this
      ensures log == old(log) + [PeriodeCreation(periode)]
      ensures r == backend.periodeReply
    {
      log := log + [PeriodeCreation(periode)];
      r := backend.periodeReply;
    }

    method CreateAppreciation(appreciation: AppreciationDTO) returns (r: Outcome<String>)
      modifies this
      ensures log == old(log) + [AppreciationCreation(appreciation)]
      ensures r == backend.appreciationReply
    {
      log := log + [AppreciationCreation(appreciation)];
      r := backend.appreciationReply;
    }
  }

  // ----- the submission sequence -------------------------------------------

  datatype SubmitError =
    | StagiaireNotFound
    | TuteurNotFound
    | StageCreationFailed(message: String)
    | PeriodeCreationFailed(message: String)
    | AppreciationCreationFailed(message: String)

  /** The message of the error each failure throws. */
  function ErrorMessage(e: SubmitError): String {
    match e
    case StagiaireNotFound => "Stagiaire not found. Please verify the CIN."
    case TuteurNotFound => "Tuteur not found. Please verify the CIN."
    case StageCreationFailed(m) => "Error creating stage: " + m
    case PeriodeCreationFailed(m) => "Error creating periode: " + m
    case AppreciationCreationFailed(m) => "Error creating appreciation: " + m
  }

  /** The characters that tell the messages apart: the first one names
      the lookup or "Error", the sixteenth the creation step. */
  lemma ErrorMessageMarks(e: SubmitError)
    ensures ErrorMessage(e)[0] == match e
      case StagiaireNotFound => 'S'
      case TuteurNotFound => 'T'
      case _ => 'E'
    ensures !e.StagiaireNotFound? && !e.TuteurNotFound? ==>
      |ErrorMessage(e)| > 15 && ErrorMessage(e)[15] == match e
        case StageCreationFailed(_) => 's'
        case PeriodeCreationFailed(_) => 'p'
        case _ => 'a'
  {
    match e
    case StageCreationFailed(m) => assert ErrorMessage(e) == "Error creating stage: " + m;
    case PeriodeCreationFailed(m) => assert ErrorMessage(e) == "Error creating periode: " + m;
    case AppreciationCreationFailed(m) => assert ErrorMessage(e) == "Error creating appreciation: " + m;
    case StagiaireNotFound =>
    case TuteurNotFound =>
  }

  /** The thrown message tells which step failed and with which status. */
  lemma ErrorMessageIdentifiesError(e1: SubmitError, e2: SubmitError)
    requires ErrorMessage(e1) == ErrorMessage(e2)
    ensures e1 == e2
  {
    var s := ErrorMessage(e1);
    ErrorMessageMarks(e1);
    ErrorMessageMarks(e2);
    if e1.StageCreationFailed? && e2.StageCreationFailed? {
      assert e1.message == s[22..] == e2.message;
    } else if e1.PeriodeCreationFailed? && e2.PeriodeCreationFailed? {
      assert e1.message == s[24..] == e2.message;
    } else if e1.AppreciationCreationFailed? && e2.AppreciationCreationFailed? {
      assert e1.message == s[29..] == e2.message;
    }
  }

  /** One submission attempt: the calls made, in order, the outcome, and
      the draft afterwards (the ids resolved in place are kept). */
  datatype Run = Run(calls: seq<Call>, outcome: Outcome<SubmitError>, form: FormData)

  /** Identity resolution: the lookups made, the draft with the ids written
      into it, and the error that stops the submission, if any. */
  datatype Resolution = Resolution(calls: seq<Call>, form: FormData, error: Option<SubmitError>)

  /** Steps 1 and 2: an id that is null or 0 is looked up by CIN; a missing
      record is an error, a record without an id gives 0. */
  function ResolveIds(b: Backend, f: FormData): Resolution {
    var c1 := if IsFalsy(f.stagiaireId) then [StagiaireLookup(f.stagiaireCIN)] else [];
    var found1 := Lookup(b.interns, f.stagiaireCIN);
    if IsFalsy(f.stagiaireId) && found1.None? then Resolution(c1, f, Some(StagiaireNotFound))
    else
      var f1 := if IsFalsy(f.stagiaireId) then f.(stagiaireId := Some(found1.value.id.GetOr(0))) else f;
      var c2 := c1 + if IsFalsy(f1.tuteurId) then [TuteurLookup(f1.tuteurCIN)] else [];
      var found2 := Lookup(b.tutors, f1.tuteurCIN);
      if IsFalsy(f1.tuteurId) && found2.None? then Resolution(c2, f1, Some(TuteurNotFound))
      else
        var f2 := if IsFalsy(f1.tuteurId) then f1.(tuteurId := Some(found2.value.id.GetOr(0))) else f1;
        Resolution(c2, f2, None)
  }

  /** What a resolved draft and its assessment contribute to the three
      creation calls, all but the stage id the first call returns. */
  datatype Payloads = Payloads(
    stage: StagePayload,
    stagiaireId: int,
    tuteurId: int,
    dateDebut: String,
    dateFin: String,
    assessment: Assessment)

  /** The payloads of a resolved draft; an id still null is sent as 0. */
  function PayloadsOf(g: FormData, a: Assessment): Payloads {
    Payloads(StageOf(g), g.stagiaireId.GetOr(0), g.tuteurId.GetOr(0), g.startDate, g.endDate, a)
  }

  function PeriodeFor(p: Payloads, stageId: int): PeriodePayload {
    PeriodePayload(p.stagiaireId, stageId, p.dateDebut, p.dateFin)
  }

  function AppreciationFor(p: Payloads, stageId: int): AppreciationDTO {
    AppreciationDTO(p.stagiaireId, stageId, p.tuteurId, p.assessment.evaluations, p.assessment.competences)
  }

  /** Steps 3 to 5 with the payloads `p`: the creation calls made and the
      outcome. */
  function Creations(b: Backend, p: Payloads): (seq<Call>, Outcome<SubmitError>) {
    var c3 := [StageCreation(p.stage)];
    match b.stageReply
    case Failure(m) => (c3, Fail(StageCreationFailed(m)))
    case Success(stageId) =>
      var c4 := c3 + [PeriodeCreation(PeriodeFor(p, stageId))];
      if b.periodeReply.Fail? then (c4, Fail(PeriodeCreationFailed(b.periodeReply.error)))
      else
        var c5 := c4 + [AppreciationCreation(AppreciationFor(p, stageId))];
        if b.appreciationReply.Fail? then (c5, Fail(AppreciationCreationFailed(b.appreciationReply.error)))
        else (c5, Pass)
  }

  /** The sequence of steps 1 to 5 for the draft `f`, with `a` as the
      assessment the appreciation carries. The properties below are stated
      for every `a`, and so hold for `Submission`. */
  function Attempt(b: Backend, f: FormData, a: Assessment): Run {
    var res := ResolveIds(b, f);
    if res.error.Some? then Run(res.calls, Fail(res.error.value), res.form)
    else
      var created := Creations(b, PayloadsOf(res.form, a));
      Run(res.calls + created.0, created.1, res.form)
  }

  /** The reference behaviour of `submitEvaluation` against backend `b`:
      the attempt with the draft's own assessment. */
  function Submission(b: Backend, f: FormData): Run {
    Attempt(b, f, AssessmentOf(f))
  }

  method ResolveIdentities(client: BackendClient, formData: FormData)
    returns (error: Option<SubmitError>, updated: FormData)
    modifies client
    ensures var res := ResolveIds(client.backend, formData);
      client.log == old(client.log) + res.calls && updated == res.form && error == res.error
  {
    updated := formData;
    error := None;
    if IsFalsy(updated.stagiaireId) {
      var stagiaireData := client.CheckStagiaireExists(updated.stagiaireCIN);
      if stagiaireData.None? {
        error := Some(StagiaireNotFound);
        return;
      }
      updated := updated.(stagiaireId := Some(stagiaireData.value.id.GetOr(0)));
    }
    if IsFalsy(updated.tuteurId) {
      var tuteurData := client.CheckTuteurExists(updated.tuteurCIN);
      if tuteurData.None? {
        error := Some(TuteurNotFound);
        return;
      }
      updated := updated.(tuteurId := Some(tuteurData.value.id.GetOr(0)));
    }
  }

  /** Steps 3 to 5 on the resolved draft `g`; the assessment is the one of
      the draft `f` it was resolved from, which differs from `g` only in its
      ids. */
  method CreateRecords(client: BackendClient, g: FormData, ghost f: FormData) returns (outcome: Outcome<SubmitError>)
    requires g == f.(stagiaireId := g.stagiaireId, tuteurId := g.tuteurId)
    modifies client
    ensures client.log == old(client.log) + Creations(client.backend, PayloadsOf(g, AssessmentOf(f))).0
    ensures outcome == Creations(client.backend, PayloadsOf(g, AssessmentOf(f))).1
  {
    AssessmentIgnoresIds(f, g);
    var stage := StagePayload(g.projectTheme, g.objectives, g.companyName);
    var stageReply := client.CreateStage(stage);
    if stageReply.Failure? {
      outcome := Fail(StageCreationFailed(stageReply.error));
      return;
    }
    var stageId := stageReply.value;

    var periodeRequest := PeriodePayload(g.stagiaireId.GetOr(0), stageId, g.startDate, g.endDate);
    var periodeReply := client.CreatePeriode(periodeRequest);
    if periodeReply.Fail? {
      outcome := Fail(PeriodeCreationFailed(periodeReply.error));
      return;
    }

    var evaluations := BuildEvaluations(g.globalAssessment);
    var competences := BuildCompetences(g);
    var appreciation := AppreciationDTO(g.stagiaireId.GetOr(0), stageId, g.tuteurId.GetOr(0), evaluations, competences);
    var appreciationReply := client.CreateAppreciation(appreciation);
    if appreciationReply.Fail? {
      outcome := Fail(AppreciationCreationFailed(appreciationReply.error));
      return;
    }
    outcome := Pass;
  }

  /** `submitEvaluation`: resolves the ids in place, then creates the stage,
      the periode and the appreciation, stopping at the first failure. */
  method SubmitEvaluation(client: BackendClient, formData: FormData)
    returns (outcome: Outcome<SubmitError>, updated: FormData)
    modifies client
    ensures var run := Submission(client.backend, formData);
      client.log == old(client.log) + run.calls && outcome == run.outcome && updated == run.form
  {
    var error;
    error, updated := ResolveIdentities(client, formData);
    if error.Some? {
      outcome := Fail(error.value);
      return;
    }
    ResolutionWritesOnlyIds(client.backend, formData);
    outcome := CreateRecords(client, updated, formData);
  }

  // ----- properties of the submission sequence -----------------------------

  /** The position of a call in the fixed order of the sequence. */
  function Rank(c: Call): nat {
    match c
    case StagiaireLookup(_) => 0
    case TuteurLookup(_) => 1
    case StageCreation(_) => 2
    case PeriodeCreation(_) => 3
    case AppreciationCreation(_) => 4
  }

  /** Ranks strictly increase along `calls`. */
  predicate RanksIncrease(calls: seq<Call>) {
    forall i, j :: 0 <= i < j < |calls| ==> Rank(calls[i]) < Rank(calls[j])
  }

  lemma ResolveCallsOrdered(b: Backend, f: FormData)
    ensures RanksIncrease(ResolveIds(b, f).calls)
    ensures forall c :: c in ResolveIds(b, f).calls ==> Rank(c) <= 1
  {
  }

  lemma CreationCallsOrdered(b: Backend, p: Payloads)
    ensures RanksIncrease(Creations(b, p).0)
    ensures forall c :: c in Creations(b, p).0 ==> Rank(c) >= 2
  {
    var cr := Creations(b, p).0;
    if b.stageReply.Failure? {
      assert |cr| == 1 && cr[0].StageCreation?;
    } else if b.periodeReply.Fail? {
      assert |cr| == 2 && cr[0].StageCreation? && cr[1].PeriodeCreation?;
    } else {
      assert |cr| == 3 && cr[0].StageCreation? && cr[1].PeriodeCreation? && cr[2].AppreciationCreation?;
    }
  }

  /** Ordered lookups followed by ordered creations are ordered. */
  lemma RanksIncreaseAppend(xs: seq<Call>, ys: seq<Call>)
    requires RanksIncrease(xs) && RanksIncrease(ys)
    requires forall c :: c in xs ==> Rank(c) <= 1
    requires forall c :: c in ys ==> Rank(c) >= 2
    ensures RanksIncrease(xs + ys)
  {
    var calls := xs + ys;
    forall i, j | 0 <= i < j < |calls| ensures Rank(calls[i]) < Rank(calls[j]) {
      if j < |xs| {
        assert calls[i] == xs[i] && calls[j] == xs[j];
      } else if i >= |xs| {
        assert calls[i] == ys[i - |xs|] && calls[j] == ys[j - |xs|];
      } else {
        assert calls[i] == xs[i] && calls[i] in xs;
        assert calls[j] == ys[j - |xs|] && calls[j] in ys;
      }
    }
  }

  /** The calls come in the order intern lookup, tutor lookup, stage,
      periode, appreciation, each at most once. */
  lemma SubmissionCallOrder(b: Backend, f: FormData, a: Assessment)
    ensures RanksIncrease(Attempt(b, f, a).calls)
  {
    var res := ResolveIds(b, f);
    ResolveCallsOrdered(b, f);
    if res.error.None? {
      CreationCallsOrdered(b, PayloadsOf(res.form, a));
      RanksIncreaseAppend(res.calls, Creations(b, PayloadsOf(res.form, a)).0);
    }
  }

  /** The intern is looked up exactly when the draft's intern id is null
      or 0, and with the draft's CIN; the tutor likewise, provided the
      intern step did not fail. */
  lemma LookupOnlyWhenIdMissing(b: Backend, f: FormData, a: Assessment)
    ensures var calls := Attempt(b, f, a).calls;
      && (StagiaireLookup(f.stagiaireCIN) in calls <==> IsFalsy(f.stagiaireId))
      && (forall c :: c in calls && c.StagiaireLookup? ==> c.cin == f.stagiaireCIN)
      && (forall c :: c in calls && c.TuteurLookup? ==> c.cin == f.tuteurCIN && IsFalsy(f.tuteurId))
      && (IsFalsy(f.tuteurId) && Attempt(b, f, a).outcome != Fail(StagiaireNotFound) ==> TuteurLookup(f.tuteurCIN) in calls)
  {
    var res := ResolveIds(b, f);
    if res.error.None? {
      CreationCallsOrdered(b, PayloadsOf(res.form, a));
    }
  }

  /** Fail fast: the last call made is the one that failed, so no later
      step runs; a missing intern or tutor stops before any stage is
      created; and a successful run ends with the appreciation. */
  lemma SubmissionFailsFast(b: Backend, f: FormData, a: Assessment)
    ensures var run := Attempt(b, f, a);
      && |run.calls| >= 1
      && (run.outcome == Fail(StagiaireNotFound) ==> run.calls == [StagiaireLookup(f.stagiaireCIN)])
      && (run.outcome == Fail(TuteurNotFound) ==> run.calls[|run.calls| - 1] == TuteurLookup(f.tuteurCIN))
      && (run.outcome.Fail? && run.outcome.error.StageCreationFailed? ==> run.calls[|run.calls| - 1].StageCreation?)
      && (run.outcome.Fail? && run.outcome.error.PeriodeCreationFailed? ==> run.calls[|run.calls| - 1].PeriodeCreation?)
      && (run.outcome.Fail? && run.outcome.error.AppreciationCreationFailed? ==> run.calls[|run.calls| - 1].AppreciationCreation?)
      && (run.outcome == Pass ==> run.calls[|run.calls| - 1].AppreciationCreation?)
      && ((run.outcome.Fail? && (run.outcome.error.StagiaireNotFound? || run.outcome.error.TuteurNotFound?))
            ==> forall c :: c in run.calls ==> Rank(c) <= 1)
  {
    var res := ResolveIds(b, f);
    assert IsFalsy(f.stagiaireId) || IsFalsy(res.form.tuteurId) || res.error.None?;
  }

  /** A submission succeeds exactly when both identities resolve and all
      three creation calls succeed. */
  lemma SubmissionSucceedsIff(b: Backend, f: FormData, a: Assessment)
    ensures Attempt(b, f, a).outcome == Pass <==>
      && (IsFalsy(f.stagiaireId) ==> f.stagiaireCIN in b.interns)
      && (IsFalsy(f.tuteurId) ==> f.tuteurCIN in b.tutors)
      && b.stageReply.Success? && b.periodeReply.Pass? && b.appreciationReply.Pass?
  {
  }

  /** The creation calls send the payloads `p`, the periode and the
      appreciation with the id the stage creation returned. */
  lemma CreationPayloads(b: Backend, p: Payloads)
    ensures var cr := Creations(b, p).0;
      && (forall c :: c in cr && c.StageCreation? ==> c.stage == p.stage)
      && (forall c :: c in cr && c.PeriodeCreation? ==>
            b.stageReply.Success? && c.periode == PeriodeFor(p, b.stageReply.value))
      && (forall c :: c in cr && c.AppreciationCreation? ==>
            b.stageReply.Success? && c.appreciation == AppreciationFor(p, b.stageReply.value))
  {
  }

  /** The stage payload copies theme, objectives and company; the periode
      and the appreciation both use the id the stage creation returned,
      and they name the same intern and the dates of the draft; the
      appreciation carries the assessment unchanged. */
  lemma SubmissionPayloads(b: Backend, f: FormData, a: Assessment)
    ensures var run := Attempt(b, f, a);
      && (forall c :: c in run.calls && c.StageCreation? ==>
            c.stage == StagePayload(f.projectTheme, f.objectives, f.companyName))
      && (forall c :: c in run.calls && c.PeriodeCreation? ==>
            b.stageReply.Success? && c.periode.stageId == b.stageReply.value
            && c.periode.stagiaireId == run.form.stagiaireId.value
            && c.periode.dateDebut == f.startDate && c.periode.dateFin == f.endDate)
      && (forall c :: c in run.calls && c.AppreciationCreation? ==>
            b.stageReply.Success?
            && c.appreciation == AppreciationDTO(run.form.stagiaireId.value, b.stageReply.value,
                                                 run.form.tuteurId.value, a.evaluations, a.competences))
  {
    var res := ResolveIds(b, f);
    ResolveCallsOrdered(b, f);
    if res.error.None? {
      var g := res.form;
      ResolutionWritesOnlyIds(b, f);
      assert g.stagiaireId.Some? && g.tuteurId.Some?;
      CreationPayloads(b, PayloadsOf(g, a));
    }
  }

  /** Resolution writes only the two ids: an id already set (neither null
      nor 0) is kept, a looked-up one becomes the record's id or 0. */
  lemma ResolutionWritesOnlyIds(b: Backend, f: FormData)
    ensures var g := ResolveIds(b, f).form;
      && g == f.(stagiaireId := g.stagiaireId, tuteurId := g.tuteurId)
      && (!IsFalsy(f.stagiaireId) ==> g.stagiaireId == f.stagiaireId)
      && (!IsFalsy(f.tuteurId) ==> g.tuteurId == f.tuteurId)
      && (IsFalsy(f.stagiaireId) && f.stagiaireCIN in b.interns ==>
            g.stagiaireId == Some(b.interns[f.stagiaireCIN].id.GetOr(0)))
  {
  }

  /** A retry after the stage creation failed, with both ids resolved to
      non-zero values, makes no lookup: it starts with a new stage
      creation (the sequence is not idempotent). */
  lemma RetryReusesResolvedIds(b: Backend, b2: Backend, f: FormData, a: Assessment)
    requires Attempt(b, f, a).outcome.Fail? && Attempt(b, f, a).outcome.error.StageCreationFailed?
    requires !IsFalsy(Attempt(b, f, a).form.stagiaireId) && !IsFalsy(Attempt(b, f, a).form.tuteurId)
    ensures Attempt(b2, Attempt(b, f, a).form, a).calls[0] == StageCreation(StageOf(f))
  {
  }

  /** A draft whose three ratings are unset and whose observation is empty
      sends three "NA" evaluations. */
  lemma UnsetRatingsGiveNA(g: GlobalAssessment)
    requires g.involvement == 0 && g.openness == 0 && g.productionQuality == 0 && g.observations == ""
    ensures var ev := EvaluationsOf(g);
      |ev| == 3 && forall i :: 0 <= i < 3 ==> ev[i].valeur == "NA"
  {
  }
}
