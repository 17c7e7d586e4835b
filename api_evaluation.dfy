/** The evaluation read API: the appreciation records the backend returns,
    their projection to the summaries the list shows, the detail URL, and
    the classification of the HTTP status of both requests. The request
    itself is left out: a `Response` stands for what it returned. */
module ApiEvaluation {

  import opened Wrappers
  import opened Text

  datatype AppreciationId = AppreciationId(periodeStagiaireId: int, periodeStageId: int, tuteurId: int)

  datatype TuteurRecord = TuteurRecord(
    id: int, cin: String, nom: String, prenom: String, email: String,
    fonction: String, entreprise: String, technos: Option<String>)

  datatype StagiaireRecord = StagiaireRecord(
    id: int, cin: String, nom: String, prenom: String, email: String,
    description: String, institution: String, niveau: String)

  datatype StageRecord = StageRecord(id: int, description: String, objectif: String, entreprise: String)

  datatype Periode = Periode(
    stagiaireId: int, stageId: int, dateDebut: String, dateFin: String,
    stagiaire: StagiaireRecord, stage: StageRecord)

  datatype Category = Category(id: int, intitule: String, valeur: String, competenceId: int)

  datatype Competence = Competence(id: int, intitule: String, note: int, categories: seq<Category>)

  datatype Evaluation = Evaluation(id: int, categorie: String, valeur: String)

  /** An appreciation as the backend sends it; its id may be missing from
      the JSON. */
  datatype Appreciation = Appreciation(
    id: Option<AppreciationId>,
    tuteur: TuteurRecord,
    periode: Periode,
    evaluations: seq<Evaluation>,
    competences: seq<Competence>)

  datatype EvaluationSummary = EvaluationSummary(
    id: Option<AppreciationId>,
    tuteurCIN: String,
    tuteurNom: String,
    tuteurPrenom: String,
    stagiaireCIN: String,
    stagiaireNom: String,
    stagiairePrenom: String,
    entreprise: String,
    dateDebut: String,
    dateFin: String)

  /** An HTTP response: its status, status text and decoded body. */
  datatype Response<T> = Response(status: int, statusText: String, body: T)

  /** `response.ok`. */
  predicate IsOk(status: int) {
    200 <= status <= 299
  }

  const ApiBaseUrl: String := "http://localhost:8080"

  /** The summary of one appreciation: the tutor from its tutor, the
      intern, company and dates from its periode. */
  function Summarize(a: Appreciation): EvaluationSummary {
    EvaluationSummary(
      a.id,
      a.tuteur.cin, a.tuteur.nom, a.tuteur.prenom,
      a.periode.stagiaire.cin, a.periode.stagiaire.nom, a.periode.stagiaire.prenom,
      a.periode.stage.entreprise,
      a.periode.dateDebut, a.periode.dateFin)
  }

  /** The `map` over the appreciations. */
  function Summaries(apps: seq<Appreciation>): (r: seq<EvaluationSummary>)
    ensures |r| == |apps|
    ensures forall i :: 0 <= i < |apps| ==> r[i] == Summarize(apps[i])
  {
    seq(|apps|, i requires 0 <= i < |apps| => Summarize(apps[i]))
  }

  /** What `getAllEvaluations` resolves to or rejects with. */
  function GetAllEvaluations(response: Response<seq<Appreciation>>): (r: Result<seq<EvaluationSummary>, String>)
    ensures r.Success? <==> IsOk(response.status)
    ensures r.Success? ==> r.value == Summaries(response.body)
    ensures r.Failure? ==> r.error == "Error fetching evaluations: " + IntToString(response.status) + " " + response.statusText
  {
    if !IsOk(response.status) then
      Failure("Error fetching evaluations: " + IntToString(response.status) + " " + response.statusText)
    else
      Success(Summaries(response.body))
  }

  /** Each summary is its appreciation's, in the same position: same id,
      the tutor's CIN and names, the intern's CIN and names, the stage's
      company and the periode's dates. */
  lemma SummariesCopyFields(apps: seq<Appreciation>, i: nat)
    requires i < |apps|
    ensures var s := Summaries(apps)[i]; var a := apps[i];
      && s.id == a.id
      && s.tuteurCIN == a.tuteur.cin && s.tuteurNom == a.tuteur.nom && s.tuteurPrenom == a.tuteur.prenom
      && s.stagiaireCIN == a.periode.stagiaire.cin && s.stagiaireNom == a.periode.stagiaire.nom
      && s.stagiairePrenom == a.periode.stagiaire.prenom
      && s.entreprise == a.periode.stage.entreprise
      && s.dateDebut == a.periode.dateDebut && s.dateFin == a.periode.dateFin
  {
  }

  /** The projection commutes with concatenation, so it keeps order. */
  lemma SummariesAppend(xs: seq<Appreciation>, ys: seq<Appreciation>)
    ensures Summaries(xs + ys) == Summaries(xs) + Summaries(ys)
  {
    var l := Summaries(xs + ys);
    var r := Summaries(xs) + Summaries(ys);
    assert |l| == |r|;
    forall i | 0 <= i < |l| ensures l[i] == r[i] {
      if i < |xs| {
        assert (xs + ys)[i] == xs[i];
      } else {
        assert (xs + ys)[i] == ys[i - |xs|];
      }
    }
  }

  /** `/api/appreciations/{periodeStagiaireId}/{periodeStageId}/{tuteurId}`. */
  function DetailPath(id: AppreciationId): String {
    "/api/appreciations/" + IntToString(id.periodeStagiaireId) + "/"
    + IntToString(id.periodeStageId) + "/" + IntToString(id.tuteurId)
  }

  function DetailUrl(id: AppreciationId): String {
    ApiBaseUrl + DetailPath(id)
  }

  const AppreciationsPath: String := "/api/appreciations/"

  /** With non-negative parts the path is the three numbers joined by
      slashes after the collection path. */
  lemma DetailPathJoin(id: AppreciationId)
    requires id.periodeStagiaireId >= 0 && id.periodeStageId >= 0 && id.tuteurId >= 0
    ensures DetailPath(id) == AppreciationsPath + JoinNats(id.periodeStagiaireId, id.periodeStageId, id.tuteurId, '/')
  {
  }

  /** Different ids (with non-negative parts) ask for different paths, so
      the three parts are sent in an order that can be read back. */
  lemma DetailPathInjective(x: AppreciationId, y: AppreciationId)
    requires x.periodeStagiaireId >= 0 && x.periodeStageId >= 0 && x.tuteurId >= 0
    requires y.periodeStagiaireId >= 0 && y.periodeStageId >= 0 && y.tuteurId >= 0
    requires DetailPath(x) == DetailPath(y)
    ensures x == y
  {
    DetailPathJoin(x);
    DetailPathJoin(y);
    AppendCancelLeft(AppreciationsPath,
      JoinNats(x.periodeStagiaireId, x.periodeStageId, x.tuteurId, '/'),
      JoinNats(y.periodeStagiaireId, y.periodeStageId, y.tuteurId, '/'));
    JoinNatsInjective(x.periodeStagiaireId, x.periodeStageId, x.tuteurId,
                      y.periodeStagiaireId, y.periodeStageId, y.tuteurId, '/');
  }

  const NotFoundMessage: String := "Evaluation not found"

  /** What `getEvaluationById` resolves to or rejects with, given the
      response to the request at `DetailUrl(id)`. */
  function GetEvaluationById(response: Response<Appreciation>): (r: Result<Appreciation, String>)
    ensures r.Success? <==> IsOk(response.status)
    ensures r.Success? ==> r.value == response.body
    ensures response.status == 404 ==> r == Failure(NotFoundMessage)
    ensures !IsOk(response.status) && response.status != 404 ==>
      r == Failure("Error fetching evaluation: " + IntToString(response.status) + " " + response.statusText)
  {
    if response.status == 404 then Failure(NotFoundMessage)
    else if !IsOk(response.status) then
      Failure("Error fetching evaluation: " + IntToString(response.status) + " " + response.statusText)
    else Success(response.body)
  }

  /** A missing evaluation is told apart from every other failure. */
  lemma NotFoundIsDistinct(response: Response<Appreciation>)
    requires response.status != 404 && !IsOk(response.status)
    ensures GetEvaluationById(response) != Failure(NotFoundMessage)
  {
    var m := GetEvaluationById(response).error;
    assert m[0] == 'E' && m[1] == 'r';
  }
}
