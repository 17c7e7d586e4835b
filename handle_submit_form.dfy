/** The evaluation-form submission handler: a guard on the six required
    fields, then one `submitEvaluation` run whose result becomes a toast
    and a boolean; and the abbreviated competence mapping kept beside it
    as an example. */
module SubmitHandler {

  import opened Wrappers
  import opened Text
  import opened FormTypes
  import opened AppService
  import opened Toasts

  /** The six fields the handler treats as required (an empty string is
      falsy in the guard; whitespace is not). */
  predicate RequiredFieldsPresent(f: FormData) {
    f.stagiaireCIN != "" && f.tuteurCIN != "" && f.companyName != ""
    && f.startDate != "" && f.endDate != "" && f.projectTheme != ""
  }

  const MissingFieldsToast := Toast("Champs manquants", "Veuillez remplir tous les champs obligatoires.", true)
  const SuccessToast := Toast("Évaluation soumise avec succès", "L'évaluation a été enregistrée dans le système.", false)

  function FailureToast(e: SubmitError): Toast {
    Toast("Erreur lors de la soumission", ErrorMessage(e), true)
  }

  /** What one handler call does against backend `b`: its result, the last
      toast shown, the backend calls made and the draft afterwards. */
  datatype Handled = Handled(ok: bool, toast: Toast, calls: seq<Call>, form: FormData)

  function HandleSubmit(b: Backend, f: FormData): Handled {
    if !RequiredFieldsPresent(f) then Handled(false, MissingFieldsToast, [], f)
    else
      var run := Submission(b, f);
      if run.outcome.Pass? then Handled(true, SuccessToast, run.calls, run.form)
      else Handled(false, FailureToast(run.outcome.error), run.calls, run.form)
  }

  /** `handleSubmitForm`. The loading toast shown while the run is in
      flight is dismissed on both paths; `toast` is the one left on screen. */
  method HandleSubmitForm(client: BackendClient, formData: FormData)
    returns (ok: bool, toast: Toast, updated: FormData)
    modifies client
    ensures var h := HandleSubmit(client.backend, formData);
      ok == h.ok && toast == h.toast && updated == h.form && client.log == old(client.log) + h.calls
  {
    if !RequiredFieldsPresent(formData) {
      return false, MissingFieldsToast, formData;
    }
    var outcome;
    outcome, updated := SubmitEvaluation(client, formData);
    if outcome.Pass? {
      ok, toast := true, SuccessToast;
    } else {
      ok, toast := false, FailureToast(outcome.error);
    }
  }

  /** A missing required field stops the handler before any backend call
      and leaves the draft as it was. */
  lemma MissingFieldMakesNoCall(b: Backend, f: FormData)
    requires !RequiredFieldsPresent(f)
    ensures HandleSubmit(b, f) == Handled(false, MissingFieldsToast, [], f)
  {
  }

  /** Submitting the draft the form starts from makes no backend call. */
  lemma InitialDraftMakesNoCall(b: Backend)
    ensures HandleSubmit(b, InitialFormData) == Handled(false, MissingFieldsToast, [], InitialFormData)
  {
    InitialFormDataShape();
    MissingFieldMakesNoCall(b, InitialFormData);
  }

  /** The handler reports success exactly when the fields are present and
      the whole sequence succeeded; on failure the toast carries the
      message of the step that failed, and the run's calls are those of
      `submitEvaluation`. */
  lemma HandlerReportsOutcome(b: Backend, f: FormData)
    ensures var h := HandleSubmit(b, f);
      && (h.ok <==> RequiredFieldsPresent(f) && Submission(b, f).outcome == Pass)
      && (h.ok <==> h.toast == SuccessToast)
      && (RequiredFieldsPresent(f) ==> h.calls == Submission(b, f).calls && h.form == Submission(b, f).form)
      && (RequiredFieldsPresent(f) && !h.ok ==>
            h.toast.destructive && h.toast.description == ErrorMessage(Submission(b, f).outcome.error))
  {
  }

  /** Two failed runs that show the same toast failed at the same step
      with the same status. */
  lemma FailureToastIdentifiesStep(b1: Backend, f1: FormData, b2: Backend, f2: FormData)
    requires RequiredFieldsPresent(f1) && RequiredFieldsPresent(f2)
    requires Submission(b1, f1).outcome.Fail? && Submission(b2, f2).outcome.Fail?
    requires HandleSubmit(b1, f1).toast == HandleSubmit(b2, f2).toast
    ensures Submission(b1, f1).outcome == Submission(b2, f2).outcome
  {
    ErrorMessageIdentifiesError(Submission(b1, f1).outcome.error, Submission(b2, f2).outcome.error);
  }

  /** Whether group `g` of a mapped list agrees with group `full` of the
      submitted list: same name and grade, and its categories a prefix. */
  predicate Abbreviates(g: CompetenceDTO, full: CompetenceDTO) {
    g.intitule == full.intitule && g.note == full.note
    && |g.categories| <= |full.categories| && g.categories == full.categories[..|g.categories|]
  }

  /** `mapCompetenciesToDTO`: the individual group with its first two
      categories, the company group with its first category when the
      company block is present, and the technical group when the technical
      block is. Each group it builds abbreviates the one the submission
      sends at the same position, and it never builds a specific group. */
  method MapCompetenciesToDTO(f: FormData) returns (competences: seq<CompetenceDTO>)
    ensures var cc := f.companyCompetencies;
      |competences| == 1 + (if cc.company.Some? then 1 else 0) + (if cc.technical.Some? then 1 else 0)
    ensures competences[0] == CompetenceDTO(Individuelle, ParseFloatOrZero(f.individualCompetencies.grade),
      [CategoryDTO("ANALYSE_SYNTHESE", f.individualCompetencies.analysis),
       CategoryDTO("PROPOSER_METHODES", f.individualCompetencies.methods)])
    ensures f.companyCompetencies.company.Some? ==>
      competences[1] == CompetenceDTO(Entreprise, ParseFloatOrZero(f.companyCompetencies.companyGrade),
        [CategoryDTO("ANALYSER_FONCTIONNEMENT", f.companyCompetencies.company.value.companyAnalysis)])
    ensures f.companyCompetencies.technical.Some? ==>
      competences[|competences| - 1] == CompetenceDTO(Technique, ParseFloatOrZero(f.companyCompetencies.technicalGrade),
        [CategoryDTO("CONCEPTION_PRELIMINAIRE", f.companyCompetencies.technical.value.preliminaryDesign)])
    ensures |competences| <= |CompetencesOf(f)|
    ensures forall i :: 0 <= i < |competences| ==>
      competences[i].intitule != Specifique && Abbreviates(competences[i], CompetencesOf(f)[i])
  {
    var ic := f.individualCompetencies;
    var cc := f.companyCompetencies;
    var full := CompetencesOf(f);
    competences := [CompetenceDTO(Individuelle, ParseFloatOrZero(ic.grade),
      [CategoryDTO("ANALYSE_SYNTHESE", ic.analysis), CategoryDTO("PROPOSER_METHODES", ic.methods)])];
    assert full[0] == IndividualCompetence(ic);
    if cc.company.Some? {
      competences := competences + [CompetenceDTO(Entreprise, ParseFloatOrZero(cc.companyGrade),
        [CategoryDTO("ANALYSER_FONCTIONNEMENT", cc.company.value.companyAnalysis)])];
      assert full[1] == CompanyCompetence(cc.company.value, cc.companyGrade);
    }
    if cc.technical.Some? {
      competences := competences + [CompetenceDTO(Technique, ParseFloatOrZero(cc.technicalGrade),
        [CategoryDTO("CONCEPTION_PRELIMINAIRE", cc.technical.value.preliminaryDesign)])];
      assert full[|competences| - 1] == TechnicalCompetence(cc.technical.value, cc.technicalGrade);
    }
  }
}
