/** The evaluation wizard: six pages walked with Next and Previous over a
    local draft that navigation never touches, the progress bar, and the
    button that replaces Next on the last page. */
module EvaluationWizard {

  import opened Text

  // ----- the wizard's local draft ------------------------------------------

  datatype WizardGlobalAssessment = WizardGlobalAssessment(
    involvement: int, openness: int, productionQuality: int, observations: String)

  datatype WizardIndividualCompetencies = WizardIndividualCompetencies(
    analysis: String, methods: String, stakeholders: String, international: String,
    selfEvaluation: String, complexProblems: String, grade: String)

  datatype ProfessionalSkills = ProfessionalSkills(
    technicalKnowledge: int, problemSolving: int, adaptability: int, initiative: int, workQuality: int)

  datatype CommunicationSkills = CommunicationSkills(
    teamwork: int, communication: int, punctuality: int, professionalism: int)

  datatype WizardGeneralAssessment = WizardGeneralAssessment(
    strengths: String, areasForImprovement: String, overallComment: String, overallRating: int)

  datatype WizardDraft = WizardDraft(
    studentName: String,
    companyName: String,
    tutorName: String,
    startDate: String,
    endDate: String,
    projectTheme: String,
    objectives: String,
    globalAssessment: WizardGlobalAssessment,
    individualCompetencies: WizardIndividualCompetencies,
    professionalSkills: ProfessionalSkills,
    communicationSkills: CommunicationSkills,
    generalAssessment: WizardGeneralAssessment)

  /** The wizard's initial draft: every text empty, every rating 0 and
      every competency level "NA". */
  const InitialWizardDraft := WizardDraft(
    "", "", "", "", "", "", "",
    WizardGlobalAssessment(0, 0, 0, ""),
    WizardIndividualCompetencies("NA", "NA", "NA", "NA", "NA", "NA", ""),
    ProfessionalSkills(0, 0, 0, 0, 0),
    CommunicationSkills(0, 0, 0, 0),
    WizardGeneralAssessment("", "", "", 0))

  // ----- navigation --------------------------------------------------------

  /** Personal info, global assessment, professional skills,
      communication skills, general assessment, submission. */
  const PageCount: nat := 6

  predicate IsPage(p: int) {
    0 <= p < PageCount
  }

  /** The page after `p`: one further unless `p` is the last page. */
  function NextPage(p: int): (r: int)
    ensures r == p + 1 <==> p < PageCount - 1
    ensures r != p + 1 ==> r == p
    ensures IsPage(p) ==> IsPage(r)
  {
    if p < PageCount - 1 then p + 1 else p
  }

  /** The page before `p`: one back unless `p` is the first page. */
  function PreviousPage(p: int): (r: int)
    ensures r == p - 1 <==> p > 0
    ensures r != p - 1 ==> r == p
    ensures IsPage(p) ==> IsPage(r)
  {
    if p > 0 then p - 1 else p
  }

  /** Previous undoes a Next taken from a page that is not the last one,
      and Next undoes a Previous taken from a page that is not the first. */
  lemma NavigationRoundTrip(p: int)
    requires IsPage(p)
    ensures p < PageCount - 1 ==> PreviousPage(NextPage(p)) == p
    ensures p > 0 ==> NextPage(PreviousPage(p)) == p
  {
  }

  /** The page reached from `p` after `k` presses of Next. */
  function NextPages(p: int, k: nat): int
    decreases k
  {
    if k == 0 then p else NextPages(NextPage(p), k - 1)
  }

  /** The page reached from `p` after `k` presses of Previous. */
  function PreviousPages(p: int, k: nat): int
    decreases k
  {
    if k == 0 then p else PreviousPages(PreviousPage(p), k - 1)
  }

  /** Repeated Next stops at the last page, repeated Previous at the first
      one, so five presses of Next lead from the first page to submission. */
  lemma {:induction false} RepeatedNavigation(p: int, k: nat)
    requires IsPage(p)
    ensures NextPages(p, k) == if p + k < PageCount then p + k else PageCount - 1
    ensures PreviousPages(p, k) == if p - k >= 0 then p - k else 0
    decreases k
  {
    if k > 0 {
      RepeatedNavigation(NextPage(p), k - 1);
      RepeatedNavigation(PreviousPage(p), k - 1);
    }
  }

  // ----- what the page shows -----------------------------------------------

  /** The Submit button replaces Next on the last page. */
  predicate ShowsSubmit(p: int) {
    p == PageCount - 1
  }

  predicate PreviousDisabled(p: int) {
    p == 0
  }

  /** The progress bar: one segment per page, highlighted up to the
      current page. */
  function ProgressSegments(p: int): (r: seq<bool>)
    ensures |r| == PageCount
  {
    seq(PageCount, i requires 0 <= i < PageCount => i <= p)
  }

  /** "Étape {p + 1} sur 6". */
  function StepCaption(p: nat): String {
    "Étape " + NatToString(p + 1) + " sur " + NatToString(PageCount)
  }

  /** The buttons match the navigation: Submit shows exactly where Next
      would do nothing, and Previous is disabled exactly where it would do
      nothing. */
  lemma ButtonsMatchNavigation(p: int)
    requires IsPage(p)
    ensures ShowsSubmit(p) <==> NextPage(p) == p
    ensures PreviousDisabled(p) <==> PreviousPage(p) == p
  {
  }

  /** On page `p` the first `p + 1` segments are highlighted and the rest
      are not. */
  lemma ProgressHighlightsPrefix(p: int)
    requires IsPage(p)
    ensures ProgressSegments(p) == seq(p + 1, _ => true) + seq(PageCount - p - 1, _ => false)
  {
    var r := ProgressSegments(p);
    var t := seq(p + 1, _ => true) + seq(PageCount - p - 1, _ => false);
    assert forall i :: 0 <= i < PageCount ==> r[i] == t[i];
  }

  /** The caption's page number reads back as the one-based page. */
  lemma StepCaptionNamesPage(p: nat, q: nat)
    requires StepCaption(p) == StepCaption(q)
    ensures p == q
  {
    var prefix := "Étape ";
    var a := NatToString(p + 1);
    var b := NatToString(q + 1);
    var tail := " sur " + NatToString(PageCount);
    assert StepCaption(p) == prefix + (a + tail);
    assert StepCaption(q) == prefix + (b + tail);
    assert (prefix + (a + tail))[|prefix|..] == a + tail;
    assert (prefix + (b + tail))[|prefix|..] == b + tail;
    if |a| == |b| {
      assert a == (a + tail)[..|a|] == (b + tail)[..|b|] == b;
      NatToStringInjective(p + 1, q + 1);
    }
  }

  // ----- the wizard component ----------------------------------------------

  class EvaluationForm {
    var currentPage: int
    var formData: WizardDraft

    ghost predicate Valid()
      reads this
    {
      IsPage(currentPage)
    }

    constructor ()
      ensures Valid() && currentPage == 0 && formData == InitialWizardDraft
    {
      currentPage := 0;
      formData := InitialWizardDraft;
    }

    /** `handleNext` (the scroll to the top is not modelled). */
    method HandleNext()
      requires Valid()
      modifies this
      ensures Valid()
      ensures currentPage == NextPage(old(currentPage))
      ensures formData == old(formData)
    {
      if currentPage < PageCount - 1 {
        currentPage := currentPage + 1;
      }
    }

    /** `handlePrevious`. */
    method HandlePrevious()
      requires Valid()
      modifies this
      ensures Valid()
      ensures currentPage == PreviousPage(old(currentPage))
      ensures formData == old(formData)
    {
      if currentPage > 0 {
        currentPage := currentPage - 1;
      }
    }
  }
}
