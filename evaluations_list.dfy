/** The evaluation list page: the summaries fetched on mount, the search
    over them, the row key, the details dialog, and the label and colour
    lookups the dialog renders with. */
module EvaluationsList {

  import opened Wrappers
  import opened Text
  import opened Seqs
  import opened FormTypes
  import opened AppService
  import opened ApiEvaluation
  import opened SubmissionPage

  // ----- search ------------------------------------------------------------

  /** A summary matches a lowered term when the term occurs in the lowered
      tutor CIN, intern CIN or company, or in the lowered "nom prenom" of
      the tutor or of the intern. */
  predicate SummaryMatches(e: EvaluationSummary, lowerTerm: String) {
    || Contains(Lower(e.tuteurCIN), lowerTerm)
    || Contains(Lower(e.stagiaireCIN), lowerTerm)
    || Contains(Lower(e.entreprise), lowerTerm)
    || Contains(Lower(e.tuteurNom + " " + e.tuteurPrenom), lowerTerm)
    || Contains(Lower(e.stagiaireNom + " " + e.stagiairePrenom), lowerTerm)
  }

  /** The search effect: a blank term keeps every summary; otherwise those
      matching the lowered, untrimmed term. */
  function EvaluationFilter(es: seq<EvaluationSummary>, searchTerm: String): (r: seq<EvaluationSummary>)
    ensures IsBlank(searchTerm) ==> r == es
  {
    if IsBlank(searchTerm) then es
    else Filter(es, (e: EvaluationSummary) => SummaryMatches(e, Lower(searchTerm)))
  }

  /** A non-blank search keeps exactly the matching summaries, in their
      order. */
  lemma EvaluationFilterSound(es: seq<EvaluationSummary>, searchTerm: String, e: EvaluationSummary)
    requires !IsBlank(searchTerm)
    ensures e in EvaluationFilter(es, searchTerm) <==> e in es && SummaryMatches(e, Lower(searchTerm))
    ensures IsSubsequence(EvaluationFilter(es, searchTerm), es)
  {
    var keep := (x: EvaluationSummary) => SummaryMatches(x, Lower(searchTerm));
    FilterMembership(es, keep, e);
    FilterIsSubsequence(es, keep);
  }

  /** Lowering a concatenation lowers each part. */
  lemma LowerAppend(a: String, b: String)
    ensures Lower(a + b) == Lower(a) + Lower(b)
  {
    assert forall i :: 0 <= i < |a + b| ==> (a + b)[i] == if i < |a| then a[i] else b[i - |a|];
  }

  /** A term found in a last name or a first name alone is found in the
      "nom prenom" the search looks at, so searching either name part
      finds the row. */
  lemma NamePartsAreSearched(nom: String, prenom: String, lowerTerm: String)
    requires Contains(Lower(nom), lowerTerm) || Contains(Lower(prenom), lowerTerm)
    ensures Contains(Lower(nom + " " + prenom), lowerTerm)
  {
    var full := Lower(nom + " " + prenom);
    LowerAppend(nom + " ", prenom);
    LowerAppend(nom, " ");
    assert full == Lower(nom) + Lower(" ") + Lower(prenom);
    if Contains(Lower(nom), lowerTerm) {
      var i: nat :| i <= |Lower(nom)| && OccursAt(Lower(nom), lowerTerm, i);
      assert full[i..i + |lowerTerm|] == Lower(nom)[i..i + |lowerTerm|];
      assert OccursAt(full, lowerTerm, i);
    } else {
      var i: nat :| i <= |Lower(prenom)| && OccursAt(Lower(prenom), lowerTerm, i);
      var k := |nom| + 1 + i;
      assert full[k..k + |lowerTerm|] == Lower(prenom)[i..i + |lowerTerm|];
      assert OccursAt(full, lowerTerm, k);
    }
  }

  // ----- row key -----------------------------------------------------------

  /** `getEvaluationKey`: the three parts of the id joined with "-". */
  function GetEvaluationKey(id: AppreciationId): String {
    IntToString(id.periodeStagiaireId) + "-" + IntToString(id.periodeStageId) + "-" + IntToString(id.tuteurId)
  }

  /** Distinct ids made of natural numbers get distinct keys, so the rows
      of the table have unique keys. */
  lemma EvaluationKeyInjective(x: AppreciationId, y: AppreciationId)
    requires x.periodeStagiaireId >= 0 && x.periodeStageId >= 0 && x.tuteurId >= 0
    requires y.periodeStagiaireId >= 0 && y.periodeStageId >= 0 && y.tuteurId >= 0
    requires GetEvaluationKey(x) == GetEvaluationKey(y)
    ensures x == y
  {
    assert GetEvaluationKey(x) == JoinNats(x.periodeStagiaireId, x.periodeStageId, x.tuteurId, '-');
    assert GetEvaluationKey(y) == JoinNats(y.periodeStagiaireId, y.periodeStageId, y.tuteurId, '-');
    JoinNatsInjective(x.periodeStagiaireId, x.periodeStageId, x.tuteurId,
                      y.periodeStagiaireId, y.periodeStageId, y.tuteurId, '-');
  }

  // ----- labels ------------------------------------------------------------

  const EvaluationCategoryLabels: map<String, String> := map[
    "IMPLICATION_ACTIVITE" := "Implication dans ses activités",
    "OUVERTURE_AUX_AUTRES" := "Ouverture aux autres",
    "QUALITE_DE_SES_PRODUCTIONS" := "Qualité de ses productions"]

  const EvaluationValueLabels: map<String, String> := map[
    "BONNE" := "Bonne",
    "TRES_BONNE" := "Très bonne",
    "EXCELLENTE" := "Excellente",
    "TRES_PROFESSIONNELLE" := "Très professionnelle",
    "PARESSEUX" := "Paresseux",
    "JUSTE_NECESSAIRE" := "Le juste nécessaire",
    "TRES_FORTE" := "Très forte",
    "DEPASSE_OBJECTIFS" := "Dépasse ses objectifs",
    "ISOLE" := "Isolé(e) ou en opposition",
    "RENFERME" := "Renfermé(e) ou obtus",
    "MEDIOCRE" := "Médiocre",
    "ACCEPTABLE" := "Acceptable"]

  const CompetenceLabels: map<String, String> := map[
    "COMPETENCE_INDIVIDUELLE" := "Compétences liées à l'individu",
    "COMPETENCE_ENTREPRISE" := "Compétences liées à l'entreprise",
    "COMPETENCE_TECHNIQUE" := "Compétences scientifiques et techniques",
    "COMPETENCE_SPECIFIQUE" := "Compétences spécifiques métier"]

  const CompetenceCategoryLabels: map<String, String> := map[
    "ANALYSE_SYNTHESE" := "Capacité d'analyse et de synthèse",
    "PROPOSER_METHODES" := "Proposer des méthodes et axes de travail",
    "ANALYSER_FONCTIONNEMENT" := "Analyser le fonctionnement de l'entreprise",
    "ANALYSER_DEMARCHE_PROJET" := "Analyser la démarche projet",
    "POLITIQUE_ENVIRONNEMENTALE" := "Comprendre la politique environnementale",
    "RECHERCHER_INFORMATION" := "Rechercher l'information nécessaire",
    "IDENTIFIER_REGLEMENTATION" := "Identifier la réglementation"]

  const CompetenceValueLabels: map<String, String> := map[
    "NA" := "Non applicable",
    "DEBUTANT" := "Débutant",
    "AUTONOME" := "Autonome",
    "AUTONOME_PLUS" := "Autonome +"]

  /** `labels[code] || code`: the label when there is a non-empty one,
      otherwise the code itself. */
  function LabelOr(labels: map<String, String>, code: String): (r: String)
    ensures code in labels && labels[code] != "" ==> r == labels[code]
    ensures code !in labels || labels[code] == "" ==> r == code
  {
    if code in labels && labels[code] != "" then labels[code] else code
  }

  predicate NonEmptyLabels(labels: map<String, String>) {
    forall k :: k in labels ==> labels[k] != ""
  }

  /** Every table of the page has only non-empty labels, so its lookup is
      "the label of a known code, the code itself otherwise": the two
      evaluation tables ... */
  lemma EvaluationTablesNonEmpty()
    ensures NonEmptyLabels(EvaluationCategoryLabels) && NonEmptyLabels(EvaluationValueLabels)
  {
  }

  /** ... and the three competence tables. */
  lemma CompetenceTablesNonEmpty()
    ensures NonEmptyLabels(CompetenceLabels) && NonEmptyLabels(CompetenceCategoryLabels)
    ensures NonEmptyLabels(CompetenceValueLabels)
  {
  }

  lemma LabelOrKnownOrCode(labels: map<String, String>, code: String)
    requires NonEmptyLabels(labels)
    ensures code in labels ==> LabelOr(labels, code) == labels[code]
    ensures code !in labels ==> LabelOr(labels, code) == code
  {
  }

  datatype EvaluationLabel = EvaluationLabel(category: String, value: String)

  datatype CompetenceLabel = CompetenceLabel(competence: String, category: String, value: String)

  /** `getEvaluationLabel`: each code is replaced by its label when the
      page knows it and shown as is otherwise. */
  function GetEvaluationLabel(category: String, value: String): (r: EvaluationLabel)
    ensures category in EvaluationCategoryLabels ==> r.category == EvaluationCategoryLabels[category]
    ensures category !in EvaluationCategoryLabels ==> r.category == category
    ensures value in EvaluationValueLabels ==> r.value == EvaluationValueLabels[value]
    ensures value !in EvaluationValueLabels ==> r.value == value
  {
    EvaluationTablesNonEmpty();
    EvaluationLabel(LabelOr(EvaluationCategoryLabels, category), LabelOr(EvaluationValueLabels, value))
  }

  /** `getCompetenceLabel`: the same fallback on each of its three codes. */
  function GetCompetenceLabel(competence: String, category: String, value: String): (r: CompetenceLabel)
    ensures competence in CompetenceLabels ==> r.competence == CompetenceLabels[competence]
    ensures competence !in CompetenceLabels ==> r.competence == competence
    ensures category in CompetenceCategoryLabels ==> r.category == CompetenceCategoryLabels[category]
    ensures category !in CompetenceCategoryLabels ==> r.category == category
    ensures value in CompetenceValueLabels ==> r.value == CompetenceValueLabels[value]
    ensures value !in CompetenceValueLabels ==> r.value == value
  {
    CompetenceTablesNonEmpty();
    CompetenceLabel(
      LabelOr(CompetenceLabels, competence),
      LabelOr(CompetenceCategoryLabels, category),
      LabelOr(CompetenceValueLabels, value))
  }

  /** The label the recap page shows for a rating of a dimension. */
  function RecapLabel(rating: int, d: Dimension): String {
    match d
    case Involvement => GetInvolvementLabel(rating)
    case Openness => GetOpennessLabel(rating)
    case Quality => GetQualityLabel(rating)
  }

  /** For a rating from 1 to 5, the label this page shows for the value the
      submission sent is the label the recap page showed for the rating. */
  lemma RatingLabelsAgree(rating: int, d: Dimension)
    requires 1 <= rating <= 5
    ensures GetEvaluationLabel("", GetEvaluationValue(rating, d)).value == RecapLabel(rating, d)
  {
    match d
    case Involvement => InvolvementLabelsAgree(rating);
    case Openness => OpennessLabelsAgree(rating);
    case Quality => QualityLabelsAgree(rating);
  }

  lemma InvolvementLabelsAgree(rating: int)
    requires 1 <= rating <= 5
    ensures GetEvaluationLabel("", GetEvaluationValue(rating, Involvement)).value == GetInvolvementLabel(rating)
  {
  }

  lemma OpennessLabelsAgree(rating: int)
    requires 1 <= rating <= 5
    ensures GetEvaluationLabel("", GetEvaluationValue(rating, Openness)).value == GetOpennessLabel(rating)
  {
  }

  lemma QualityLabelsAgree(rating: int)
    requires 1 <= rating <= 5
    ensures GetEvaluationLabel("", GetEvaluationValue(rating, Quality)).value == GetQualityLabel(rating)
  {
  }

  /** An unrated dimension is sent as "NA", which this page has no label
      for and shows as the code, where the recap page showed nothing. */
  lemma UnratedShownAsCode(d: Dimension)
    ensures GetEvaluationLabel("", GetEvaluationValue(0, d)).value == "NA"
    ensures GetInvolvementLabel(0) == "" && GetOpennessLabel(0) == "" && GetQualityLabel(0) == ""
  {
  }

  /** The four levels read the same here as on the recap page; any other
      value is shown as is here and as "not evaluated" there. */
  lemma LevelLabelsAgree(level: String)
    ensures IsLevel(level) ==> GetCompetenceLabel("", "", level).value == GetCompetencyLevelLabel(level)
    ensures !IsLevel(level) ==>
      GetCompetenceLabel("", "", level).value == level && GetCompetencyLevelLabel(level) == NotEvaluated
  {
  }

  const DefaultLevelColor: String := "bg-gray-100 text-gray-800"

  /** `getCompetenceLevelColor`: one class per level, the default class for
      anything else. */
  function GetCompetenceLevelColor(value: String): (r: String)
    ensures r == DefaultLevelColor <==> !IsLevel(value)
  {
    if value == "NA" then "bg-gray-200 text-gray-800"
    else if value == "DEBUTANT" then "bg-blue-100 text-blue-800"
    else if value == "AUTONOME" then "bg-green-100 text-green-800"
    else if value == "AUTONOME_PLUS" then "bg-green-200 text-green-900"
    else DefaultLevelColor
  }

  /** Two different levels get two different colours. */
  lemma LevelColorsDistinct(a: String, b: String)
    requires IsLevel(a) && IsLevel(b) && a != b
    ensures GetCompetenceLevelColor(a) != GetCompetenceLevelColor(b)
  {
  }

  // ----- page state --------------------------------------------------------

  class EvaluationsListView {
    var evaluations: seq<EvaluationSummary>
    var filtered: seq<EvaluationSummary>
    var isLoading: bool
    var searchTerm: String
    var selectedEvaluation: Option<Appreciation>
    var isLoadingDetails: bool
    var detailsOpen: bool
    /** The ids whose details were requested, in order. */
    ghost var detailRequests: seq<AppreciationId>

    /** Once the search effect has run, the table shows the search result
        over the fetched summaries. */
    ghost predicate Valid()
      reads this
    {
      filtered == EvaluationFilter(evaluations, searchTerm) && !isLoadingDetails
    }

    constructor ()
      ensures Valid() && isLoading
      ensures evaluations == [] && searchTerm == "" && selectedEvaluation == None
      ensures !detailsOpen && detailRequests == []
    {
      evaluations := [];
      filtered := [];
      isLoading := true;
      searchTerm := "";
      selectedEvaluation := None;
      isLoadingDetails := false;
      detailsOpen := false;
      detailRequests := [];
    }

    /** The search effect. */
    method ApplySearch()
      modifies this
      ensures filtered == EvaluationFilter(evaluations, searchTerm)
      ensures evaluations == old(evaluations) && searchTerm == old(searchTerm) && isLoading == old(isLoading)
      ensures selectedEvaluation == old(selectedEvaluation) && isLoadingDetails == old(isLoadingDetails)
      ensures detailsOpen == old(detailsOpen) && detailRequests == old(detailRequests)
    {
      if IsBlank(searchTerm) {
        filtered := evaluations;
        return;
      }
      var lowerSearchTerm := Lower(searchTerm);
      filtered := Filter(evaluations, (e: EvaluationSummary) => SummaryMatches(e, lowerSearchTerm));
    }

    method ChangeSearchTerm(term: String)
      requires Valid()
      modifies this
      ensures Valid()
      ensures searchTerm == term && evaluations == old(evaluations)
      ensures selectedEvaluation == old(selectedEvaluation) && detailsOpen == old(detailsOpen)
      ensures detailRequests == old(detailRequests)
    {
      searchTerm := term;
      ApplySearch();
    }

    /** The fetch on mount, with the list request's outcome given (`None`
        when the request itself threw). Any failure leaves the page with an
        empty list and no message; loading ends in every case. */
    method FetchEvaluations(reply: Option<Response<seq<Appreciation>>>)
      requires Valid()
      modifies this
      ensures Valid() && !isLoading
      ensures reply.Some? && GetAllEvaluations(reply.value).Success? ==>
        evaluations == GetAllEvaluations(reply.value).value
      ensures reply.None? || GetAllEvaluations(reply.value).Failure? ==> evaluations == []
      ensures searchTerm == old(searchTerm) && selectedEvaluation == old(selectedEvaluation)
      ensures detailsOpen == old(detailsOpen) && detailRequests == old(detailRequests)
    {
      isLoading := true;
      var fetched: seq<EvaluationSummary> := [];
      if reply.Some? {
        var result := GetAllEvaluations(reply.value);
        if result.Success? {
          fetched := result.value;
        }
      }
      evaluations := fetched;
      filtered := fetched;
      isLoading := false;
      ApplySearch();
    }

    /** `loadEvaluationDetails`, with the detail request's outcome given
        (`None` when the request itself threw). A summary without an id
        changes nothing and requests nothing. Otherwise the details are
        requested once; they replace the selection only when they came
        back, and the dialog opens either way. */
    method LoadEvaluationDetails(summary: EvaluationSummary, reply: Option<Response<Appreciation>>)
      requires Valid()
      modifies this
      ensures Valid()
      ensures evaluations == old(evaluations) && filtered == old(filtered) && searchTerm == old(searchTerm)
      ensures isLoading == old(isLoading)
      ensures summary.id.None? ==>
        selectedEvaluation == old(selectedEvaluation) && detailsOpen == old(detailsOpen)
        && detailRequests == old(detailRequests)
      ensures summary.id.Some? ==>
        && detailRequests == old(detailRequests) + [summary.id.value]
        && detailsOpen
        && (reply.Some? && GetEvaluationById(reply.value).Success? ==>
              selectedEvaluation == Some(reply.value.body))
        && (reply.None? || GetEvaluationById(reply.value).Failure? ==>
              selectedEvaluation == old(selectedEvaluation))
    {
      if summary.id.None? {
        return;
      }
      isLoadingDetails := true;
      detailRequests := detailRequests + [summary.id.value];
      if reply.Some? {
        var result := GetEvaluationById(reply.value);
        if result.Success? {
          selectedEvaluation := Some(result.value);
        }
      }
      detailsOpen := true;
      isLoadingDetails := false;
    }
  }
}
