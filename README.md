# Internship evaluation front end — a Dafny model

This project models the logic of an internship-evaluation web front end.
Tutors use it to register interns and tutors, to fill in a multi-page
evaluation of an intern, and to browse the evaluations already recorded.

The model covers these parts of the front end:

- **Submission** (`AppService`). The evaluation draft (`FormTypes.FormData`)
  becomes three backend payloads: a Stage, a Periode and an Appreciation
  carrying the global evaluations and the competence groups. The backend
  calls then run in a fixed fail-fast order: look up the intern, look up
  the tutor, create the stage, create the periode, create the appreciation.
  - The backend is a scripted oracle (`Backend`). `BackendClient` records
    every call in a ghost log.
  - `SubmitEvaluation` is proved against the reference function
    `Submission`. The ordering, fail-fast and payload properties are lemmas
    about that function.
- **Submit handler** (`SubmitHandler`). It guards the six required fields
  and turns the submission's outcome into a result and a notification. It
  also holds the abbreviated competence mapping kept next to it.
- **Draft editors**:
  - the individual-competency page (`ProfessionalSkillsPage`);
  - the company-competency page (`CompanyCompetenciesPage`), whose grades
    are clamped to [0, 20] (`Grades`);
  - the specific-competency page (`SpecificCompetenciesPage`), with its
    slot edits and its pad-to-five loop.
- **Wizard** (`EvaluationWizard`). A six-page counter with Next and
  Previous, the progress bar and the Submit/Previous buttons.
- **Registration forms** (`PersonForms`). The intern and tutor creation
  forms: field edits with error clearing, the CIN existence check, the
  validation that builds the error map, and the create call.
- **Lists**:
  - the intern and tutor lists (`PersonLists`, over `People`): search and
    delete-by-id;
  - the evaluation list (`EvaluationsList`): search, row key, detail
    loading, and the label and colour lookups;
  - the read API behind it (`ApiEvaluation`): the summary projection, the
    detail path and status handling;
  - the recap page's label lookups (`SubmissionPage`).

Shared helper modules:

- `Wrappers` holds Option, Result and Outcome.
- `Text` covers whitespace as `trim()` and `\s` see it (every
  WhiteSpace and LineTerminator character of ECMAScript, all Unicode Zs
  spaces included), UTF-16 string length, ASCII
  lower-casing, `includes`, decimal printing and reading, and the email
  pattern.
- `Seqs` holds `filter` and subsequences.
- `Toasts` holds the notification record.

Where the code does something else, the model follows the code:

- The wizard's Next has no validation gate.
- The wizard's own submit only shows an alert.
- An early return from the delete handler leaves the dialog open.
- A section block that was absent before a company-competency change is
  re-created holding only the changed field; the model gives its other
  fields the empty string (see "## Left out").

## Model

| member | source | states |
|---|---|---|
| AppService.RatingTable | lib/app-service.ts:323-348 | each dimension has five backend values, for ratings 1 to 5 |
| AppService.GetEvaluationValue | lib/app-service.ts:319-353 | the value is "NA" exactly when the rating is 0; a non-zero rating outside 1..5 gives "BONNE" for every dimension |
| AppService.EvaluationValueInTable | lib/app-service.ts:323-352 | ratings 1..5 give the dimension's table entry at that position; every non-zero rating gives one of the dimension's five values |
| AppService.GetEvaluationValueInjective | lib/app-service.ts:324-348 | within one dimension, two different ratings in 1..5 give two different values |
| AppService.EvaluationsOf | lib/app-service.ts:171-192 | involvement, openness and quality in that order, each with its rating's value; a fourth observation entry valued "BONNE" exactly when the observation text is non-empty |
| AppService.BuildEvaluations | lib/app-service.ts:171-192 | the list built by the literal and the conditional push equals `EvaluationsOf` |
| AppService.SpecificCategories | lib/app-service.ts:283-289 | one category per named competency, same length, same order |
| AppService.CollectSpecificCategories | lib/app-service.ts:281-289 | the `forEach` loop pushes, at each position, the competency's untrimmed name and its level, with "DEBUTANT" for an empty level |
| AppService.BuildCompetences | lib/app-service.ts:195-297 | the list built push by push equals the reference `CompetencesOf` |
| AppService.CompetencesShape | lib/app-service.ts:195-273 | the individual group comes first with six categories; the company group is present iff the company block is; the technical group is present iff the technical block is |
| AppService.SpecificGroupShape | lib/app-service.ts:276-297 | the specific group is present iff some name has non-whitespace content; it is the last group, has note 0, and carries the named entries in order |
| AppService.AssessmentIgnoresIds | lib/app-service.ts:132-148 | writing the resolved ids into the draft does not change the evaluations or the competences |
| AppService.BackendClient.CheckStagiaireExists | lib/api-client.ts:23-37 | records one intern lookup with the CIN; returns the intern known by that CIN, or none |
| AppService.BackendClient.CheckTuteurExists | lib/api-client.ts:42-55 | records one tutor lookup with the CIN; returns the tutor known by that CIN, or none |
| AppService.BackendClient.CreateStage | lib/app-service.ts:62-82 | records one stage creation with the payload; returns the backend's id or error |
| AppService.BackendClient.CreatePeriode | lib/app-service.ts:85-104 | records one periode creation with the payload; returns the backend's outcome |
| AppService.BackendClient.CreateAppreciation | lib/app-service.ts:107-126 | records one appreciation creation with the payload; returns the backend's outcome |
| AppService.ErrorMessageMarks | lib/app-service.ts:73-145 | the thrown messages differ at fixed positions: the first character names the lookup or "Error", the sixteenth names the creation step |
| AppService.ErrorMessageIdentifiesError | lib/app-service.ts:73-145 | two failures with the same message are the same failure, with the same status text |
| AppService.ResolveIdentities | lib/app-service.ts:132-148 | performs the lookups of the reference resolution, in order; returns its updated draft and its error |
| AppService.CreateRecords | lib/app-service.ts:151-309 | makes exactly the reference creation calls for the resolved draft and the draft's own assessment, and returns their outcome |
| AppService.SubmitEvaluation | lib/app-service.ts:129-316 | the call log grows by exactly the reference run's calls; the outcome and the draft with its ids written in place are the reference run's |
| AppService.ResolveCallsOrdered | lib/app-service.ts:132-148 | identity resolution makes only lookups, intern before tutor |
| AppService.CreationCallsOrdered | lib/app-service.ts:157-309 | the creation steps make only creations, in the order stage, periode, appreciation |
| AppService.SubmissionCallOrder | lib/app-service.ts:129-316 | every run's calls follow the order intern lookup, tutor lookup, stage, periode, appreciation, each at most once |
| AppService.LookupOnlyWhenIdMissing | lib/app-service.ts:132-148 | the intern is looked up, by the draft's CIN, exactly when its id is null or 0; the tutor is looked up only when its id is null or 0, and always then unless the intern was not found |
| AppService.SubmissionFailsFast | lib/app-service.ts:132-315 | the last call made is the one that failed, so no later step runs; a missing intern or tutor stops before any creation; a successful run ends with the appreciation |
| AppService.SubmissionSucceedsIff | lib/app-service.ts:129-316 | a run succeeds iff each missing id resolves to a known CIN and all three creations succeed |
| AppService.CreationPayloads | lib/app-service.ts:151-309 | the stage call sends the stage payload; the periode and appreciation calls happen only after a successful stage creation, and use its id |
| AppService.SubmissionPayloads | lib/app-service.ts:151-306 | the stage copies theme, objectives and company; the periode has the returned stage id, the resolved intern id and the draft's dates; the appreciation has the same ids, the resolved tutor id and the assessment unchanged |
| AppService.ResolutionWritesOnlyIds | lib/app-service.ts:132-148 | resolution changes only the two ids; an id already set is kept; a looked-up intern id is the record's id, or 0 when the record has none |
| AppService.RetryReusesResolvedIds | lib/app-service.ts:132-157 | after a failed stage creation, a retry on the updated draft (both ids non-zero) starts directly with a new stage creation |
| AppService.UnsetRatingsGiveNA | lib/app-service.ts:171-192 | three unset ratings and no observation give exactly three evaluations, all "NA" |
| SubmitHandler.HandleSubmitForm | hooks/handleSubmitForm.ts:7-62 | the result, the toast left on screen, the backend calls and the updated draft are those of the reference `HandleSubmit` |
| SubmitHandler.MissingFieldMakesNoCall | hooks/handleSubmitForm.ts:9-17 | a missing required field gives false and the missing-fields toast, with no backend call and the draft unchanged |
| SubmitHandler.InitialDraftMakesNoCall | hooks/handleSubmitForm.ts:9-17 | submitting the form's initial draft makes no backend call |
| SubmitHandler.HandlerReportsOutcome | hooks/handleSubmitForm.ts:25-61 | the handler returns true iff the fields are present and the whole submission succeeded, exactly when it shows the success toast; on failure the toast carries the failing step's message |
| SubmitHandler.FailureToastIdentifiesStep | hooks/handleSubmitForm.ts:52-58 | two failure toasts are equal only if the two submissions failed at the same step with the same status |
| SubmitHandler.MapCompetenciesToDTO | hooks/handleSubmitForm.ts:93-143 | the individual group comes first; the company group is present iff the company block is; the technical group is present iff the technical block is, and comes last; there are 1 to 3 groups; each group agrees in name and note with the submitted group at the same position, and its categories are a prefix of that group's |
| FormTypes.InitialFormDataShape | lib/form-types.ts:70-117 | both ids null; ratings 0 and no observation; every individual, company and technical level "NA" with empty grades; both blocks present; five blank specific competencies with level "DEBUTANT"; empty general assessment |
| Grades.Clamp | components/company-competencies.tsx:46 | the value itself inside [0, 20], the nearest bound outside it |
| Grades.StoredGrade | components/company-competencies.tsx:46 | the stored grade is "" exactly when the input is empty |
| Grades.StoredGradeReadsBack | components/company-competencies.tsx:46 | reading a stored grade as the submission does gives the clamped number, or 0 for an empty input |
| Grades.StoredGradeIdempotent | components/company-competencies.tsx:46 | entering a stored grade again stores the same text |
| ProfessionalSkillsPage.CategoryIndex | lib/app-service.ts:198-223 | each individual competency's position among the six categories the submission sends |
| ProfessionalSkillsPage.HandleCompetencyChange | components/professional-skills.tsx:16-24 | sets the named level; the other five levels, the grade and every other draft field are unchanged |
| ProfessionalSkillsPage.HandleGradeChange | components/professional-skills.tsx:26-37 | only the individual grade changes: "" for an empty input, otherwise reading back as the clamped value |
| ProfessionalSkillsPage.LevelReachesSubmission | components/professional-skills.tsx:16-24 | a level chosen here is sent in the individual group, at that competency's position |
| ProfessionalSkillsPage.GradeReachesSubmission | components/professional-skills.tsx:26-37 | the grade entered here, or 0 for an empty input, is the individual group's note |
| CompanyCompetenciesPage.SetCompanyField | components/company-competencies.tsx:36-39 | sets the named field and keeps the three others |
| CompanyCompetenciesPage.HandleCompetencyChange | components/company-competencies.tsx:31-42 | the section's block (created when absent) gets the field set and keeps its other fields; the other section, both grades and the rest of the draft are unchanged |
| CompanyCompetenciesPage.HandleGradeChange | components/company-competencies.tsx:44-55 | the company section writes only the company grade and the technical section only the technical grade; nothing else changes |
| CompanyCompetenciesPage.GradeReachesSubmission | components/company-competencies.tsx:44-55 | the grade entered here, or 0 for an empty input, is the note of the section's group in the submission |
| CompanyCompetenciesPage.LevelReachesSubmission | components/company-competencies.tsx:31-42 | a company level chosen here makes the company group present, with that value among its categories |
| SpecificCompetenciesPage.WithName | components/specific-competencies.tsx:21-36 | an existing entry keeps its level and takes the name; a hole or a slot past the end gets the name with "DEBUTANT"; every other slot keeps its value, and the new slots in between are holes |
| SpecificCompetenciesPage.WithLevel | components/specific-competencies.tsx:38-59 | an existing entry keeps its name and takes the level; a new entry has name ""; every other slot keeps its value |
| SpecificCompetenciesPage.Assign | components/specific-competencies.tsx:25-28 | assignment into a copy of the array: the slot holds the value, the other slots are unchanged, and an index past the end lengthens the list |
| SpecificCompetenciesPage.PaddedShape | components/specific-competencies.tsx:62-65 | padding keeps the list as a prefix, fills with blank rows up to five entries, and leaves a list of five or more unchanged |
| SpecificCompetenciesPage.PaddedIdempotent | components/specific-competencies.tsx:62-65 | padding a padded list changes nothing |
| SpecificCompetenciesPage.RowEditsKeepListWhole | components/specific-competencies.tsx:21-59 | editing one of the five rows of a padded list without holes keeps its length and leaves no hole |
| SpecificCompetenciesPage.Whole | lib/form-types.ts:59 | the slots of a list without holes hold its entries |
| SpecificCompetenciesPage.InitialRowsNeedNoPadding | lib/form-types.ts:110 | the initial five blank rows need no padding |
| SpecificCompetenciesPage.NameThenLevel | components/specific-competencies.tsx:21-59 | a name edit and a level edit on the same row, in either order, set both fields |
| SpecificCompetenciesPage.SpecificCompetenciesView.HandleCompetencyNameChange | components/specific-competencies.tsx:21-36 | the draft's list becomes `WithName` of its old list, where a missing list reads as empty |
| SpecificCompetenciesPage.SpecificCompetenciesView.HandleCompetencyLevelChange | components/specific-competencies.tsx:38-59 | the draft's list becomes `WithLevel` of its old list |
| SpecificCompetenciesPage.SpecificCompetenciesView.PadRows | components/specific-competencies.tsx:62-65 | the loop yields the padded list; the pushes land in the draft's own list when it has one, and the draft stays without a list otherwise |
| EvaluationWizard.NextPage | components/evaluation-form.tsx:117-122 | one page further iff not on the last page, otherwise unchanged; stays within the six pages |
| EvaluationWizard.PreviousPage | components/evaluation-form.tsx:124-129 | one page back iff not on the first page, otherwise unchanged; stays within the six pages |
| EvaluationWizard.NavigationRoundTrip | components/evaluation-form.tsx:117-129 | Previous undoes Next from any page but the last; Next undoes Previous from any page but the first |
| EvaluationWizard.RepeatedNavigation | components/evaluation-form.tsx:117-129 | k presses of Next stop at the last page; k presses of Previous stop at the first |
| EvaluationWizard.ProgressSegments | components/evaluation-form.tsx:143-147 | one progress segment per page |
| EvaluationWizard.ButtonsMatchNavigation | components/evaluation-form.tsx:158-166 | Submit shows exactly where Next would do nothing; Previous is disabled exactly where it would do nothing |
| EvaluationWizard.ProgressHighlightsPrefix | components/evaluation-form.tsx:143-147 | segment i is highlighted iff i is at most the current page |
| EvaluationWizard.StepCaptionNamesPage | components/evaluation-form.tsx:150-152 | different pages show different step captions |
| EvaluationWizard.EvaluationForm.constructor | components/evaluation-form.tsx:105-106 | starts on the first page with the initial draft |
| EvaluationWizard.EvaluationForm.HandleNext | components/evaluation-form.tsx:117-122 | the page becomes `NextPage` of the old page; the draft is unchanged |
| EvaluationWizard.EvaluationForm.HandlePrevious | components/evaluation-form.tsx:124-129 | the page becomes `PreviousPage` of the old page; the draft is unchanged |
| PersonForms.RequiredFields | components/form-pages/stagiaire-form.tsx:101-107 | the required fields belong to the form (tutor form: components/form-pages/tuteur-form.tsx:99-105) |
| PersonForms.InitialDraft | components/form-pages/stagiaire-form.tsx:27-36 | the initial draft holds exactly the form's fields, all empty |
| PersonForms.DescribedErrorsUnique | components/form-pages/stagiaire-form.tsx:97-121 | at most one error map fits the field-by-field description |
| PersonForms.NoErrorIffValid | components/form-pages/stagiaire-form.tsx:97-121 | no field is in error iff the form is valid |
| PersonForms.CheckRequired | components/form-pages/stagiaire-form.tsx:101 | one required-field line: an empty field adds its required message to the map |
| PersonForms.CommonRequiredErrors | components/form-pages/stagiaire-form.tsx:101-105 | the five common checks record exactly the empty fields among CIN, names, email and password |
| PersonForms.RequiredErrors | components/form-pages/stagiaire-form.tsx:101-107 | one required message for each empty required field, and no other entry |
| PersonForms.ComputeErrors | components/form-pages/stagiaire-form.tsx:97-120 | the filled map marks exactly the fields in error, each with its message (the email and CIN checks overwrite the required message); it is empty iff the form is valid |
| PersonForms.EmptyErrorsIffValid | components/form-pages/stagiaire-form.tsx:119-120 | a described error map is empty iff the form is valid |
| PersonForms.CreateRequest | components/form-pages/stagiaire-form.tsx:141-150 | the create request holds exactly the form's fields, with the draft's values |
| PersonForms.DuplicateCinBlocksSubmission | components/form-pages/stagiaire-form.tsx:325 | a CIN known to exist both disables the submit button and fails validation (the tutor form's button is at components/form-pages/tuteur-form.tsx:321) |
| PersonForms.PersonForm.constructor | components/form-pages/stagiaire-form.tsx:39-43 | starts with the initial draft, no errors, an unknown CIN and no calls |
| PersonForms.PersonForm.HandleChange | components/form-pages/stagiaire-form.tsx:45-59 | writes the named field only; removes that field's error when one is shown; every other field and error is unchanged |
| PersonForms.PersonForm.CheckCinExists | components/form-pages/stagiaire-form.tsx:62-79 | the flag becomes the CIN check result; a lookup is made exactly for CINs of three or more UTF-16 code units (`cin.length`); draft and errors unchanged |
| PersonForms.PersonForm.ValidateForm | components/form-pages/stagiaire-form.tsx:97-121 | replaces the error map by the described one and returns true iff the form is valid |
| PersonForms.PersonForm.SendCreate | components/form-pages/stagiaire-form.tsx:135-174 | one create call with the draft's fields; on success the draft and the CIN flag are reset and the success toast shown; on failure both are kept and the error toast shown |
| PersonForms.PersonForm.HandleSubmit | components/form-pages/stagiaire-form.tsx:123-175 | an invalid form shows the invalid-form toast and makes no create call; a valid one is sent as in `SendCreate`; errors are replaced in both cases |
| PersonForms.InternFormValidIff | components/form-pages/stagiaire-form.tsx:97-121 | the intern form is valid iff CIN, names, email, password, description and institution are filled, the email matches the pattern and the CIN is not known to exist; the level of study is not required |
| PersonForms.TutorFormValidIff | components/form-pages/tuteur-form.tsx:95-119 | the tutor form is valid iff CIN, names, email, password, company and position are filled, the email matches the pattern and the CIN is not known to exist; the technologies are not required |
| PersonForms.ErrorMessagePrecedence | components/form-pages/stagiaire-form.tsx:101-117 | the email format error appears only for a non-empty email; a known CIN always gets the duplicate message; otherwise a CIN error is the required message |
| PersonForms.CinCheckShortCircuit | components/form-pages/stagiaire-form.tsx:62-79 | a CIN shorter than three UTF-16 code units gives null; a longer one gets the lookup's answer; an exception gives null |
| Text.Lower | components/stagiaires-list.tsx:74 | lower-casing keeps the length and maps each character |
| Text.IntToString | lib/api-evaluation.ts:129 | a number prints as a non-empty string that starts with "-" iff the number is negative |
| Text.ParseFloatOrZero | hooks/handleSubmitForm.ts:99 | a string without leading digits reads as 0 |
| Text.ParseFloatOfNat | hooks/handleSubmitForm.ts:99 | a printed natural number reads back as itself |
| PersonForms.AstralCinIsLookedUp | components/form-pages/stagiaire-form.tsx:63 | a CIN of two characters outside the Basic Multilingual Plane is four code units long and is looked up |
| Text.Utf16Length | components/form-pages/stagiaire-form.tsx:63 | `length` counts between one and two code units per character, exactly one each when all lie in the Basic Multilingual Plane |
| Text.Utf16LengthAstral | components/form-pages/stagiaire-form.tsx:63 | two astral characters have length 4 |
| Text.UnicodeSpacesAreBlank | components/stagiaires-list.tsx:69-72 | the Unicode Zs spaces, the ideographic space among them, count as blank as `trim()` strips them |
| Text.EmailCheckSound | components/form-pages/stagiaire-form.tsx:110 | every email the check accepts matches the regular expression |
| Text.SpaceInEmailRejected | components/form-pages/stagiaire-form.tsx:110 | an email with an ideographic space in its local part is rejected, as `[^\s@]` rejects it |
| Text.EmailCheckComplete | components/form-pages/stagiaire-form.tsx:110 | every email of the regular expression's shape is accepted |
| Text.EmailCheckMatchesPattern | components/form-pages/stagiaire-form.tsx:110 | the check accepts exactly the strings the regular expression matches |
| Seqs.Filter | components/stagiaires-list.tsx:75 | the filtered list is no longer than the list |
| Seqs.FilterMembership | components/stagiaires-list.tsx:75-80 | an element is kept iff it is in the list and satisfies the predicate |
| Seqs.FilterIsSubsequence | components/stagiaires-list.tsx:75-80 | the filtered list is an order-preserving subsequence of the list |
| Seqs.FilterCommutes | components/stagiaires-list.tsx:99-103 | filtering by two conditions in either order gives the same list |
| People.SearchFilter | components/stagiaires-list.tsx:68-82 | a blank or whitespace-only term gives the full list |
| People.SearchFilterSound | components/stagiaires-list.tsx:74-80 | a non-blank term keeps exactly the rows whose lowered CIN, last name or first name contains the lowered, untrimmed term, in their order (the tutor list does the same at components/tuteurs-list.tsx:73-79) |
| People.RemoveByIdSound | components/stagiaires-list.tsx:99-103 | removal keeps exactly the rows with another id, in their order |
| People.RemoveCommutesWithSearch | components/stagiaires-list.tsx:99-103 | removing from the full list and then searching gives what removing from the search result gives |
| PersonLists.PersonList.constructor | components/stagiaires-list.tsx:24-30 | starts with empty lists, an empty term, a closed dialog and no selection |
| PersonLists.PersonList.ApplySearch | components/stagiaires-list.tsx:68-82 | the shown list becomes the search result over the full list; nothing else changes |
| PersonLists.PersonList.ChangeSearchTerm | components/stagiaires-list.tsx:68-82 | the term is set and the shown list is the search result for it |
| PersonLists.PersonList.Load | components/stagiaires-list.tsx:50-51 | the full list becomes the fetched rows, and the shown list their search result |
| PersonLists.PersonList.ConfirmDelete | components/stagiaires-list.tsx:85-88 | selects the row and opens the dialog |
| PersonLists.PersonList.HandleDelete | components/stagiaires-list.tsx:90-128 | without a selected row with an id, nothing changes and no call is made; otherwise one delete call; on success every row with that id leaves both lists; on false or an exception both lists stay; the dialog closes and the selection is cleared (the tutor list: components/tuteurs-list.tsx:89-127) |
| PersonLists.DeleteAgreesWithSearch | components/stagiaires-list.tsx:99-103 | after a successful delete the shown list is the search over the shortened list, and holds no row with the deleted id |
| EvaluationsList.EvaluationFilter | components/evaluations-list.tsx:94-110 | a blank or whitespace-only term keeps every summary |
| EvaluationsList.EvaluationFilterSound | components/evaluations-list.tsx:100-109 | a non-blank term keeps exactly the summaries matching on tutor CIN, intern CIN, company, or the tutor's or intern's "nom prenom", in their order |
| EvaluationsList.NamePartsAreSearched | components/evaluations-list.tsx:106-107 | a term found in a last name or a first name alone is found in the "nom prenom" the search looks at |
| EvaluationsList.EvaluationKeyInjective | components/evaluations-list.tsx:224-226 | distinct id triples of natural numbers give distinct row keys |
| EvaluationsList.LabelOr | components/evaluations-list.tsx:169-170 | the label when there is a non-empty one, otherwise the code itself |
| EvaluationsList.EvaluationTablesNonEmpty | components/evaluations-list.tsx:147-166 | the evaluation lookup tables hold no empty label |
| EvaluationsList.CompetenceTablesNonEmpty | components/evaluations-list.tsx:176-198 | the competence lookup tables hold no empty label |
| EvaluationsList.LabelOrKnownOrCode | components/evaluations-list.tsx:169-170 | on a table without empty labels, a known code gives its label and an unknown one gives itself |
| EvaluationsList.GetEvaluationLabel | components/evaluations-list.tsx:146-172 | each of the two codes gives its label when the table knows it, and itself otherwise |
| EvaluationsList.GetCompetenceLabel | components/evaluations-list.tsx:175-205 | each of the three codes gives its label when the table knows it, and itself otherwise |
| EvaluationsList.RatingLabelsAgree | components/evaluations-list.tsx:153-166 | for ratings 1..5, the label this page shows for the value submitted is the label the recap page showed for the rating |
| EvaluationsList.InvolvementLabelsAgree | components/evaluations-list.tsx:153-166 | the same for involvement alone |
| EvaluationsList.OpennessLabelsAgree | components/evaluations-list.tsx:153-166 | the same for openness alone |
| EvaluationsList.QualityLabelsAgree | components/evaluations-list.tsx:153-166 | the same for quality alone |
| EvaluationsList.UnratedShownAsCode | components/evaluations-list.tsx:170 | an unset rating is sent as "NA", which this page shows as the code itself, where the recap page showed "" |
| EvaluationsList.LevelLabelsAgree | components/evaluations-list.tsx:193-203 | the four levels read the same here as on the recap page; any other value is shown as itself here and as "not evaluated" there |
| EvaluationsList.GetCompetenceLevelColor | components/evaluations-list.tsx:208-221 | the default class is given exactly to values other than the four levels |
| EvaluationsList.LevelColorsDistinct | components/evaluations-list.tsx:209-217 | two different levels get two different classes |
| EvaluationsList.EvaluationsListView.constructor | components/evaluations-list.tsx:41-47 | starts loading, with no summaries, an empty term, no selection and the dialog closed |
| EvaluationsList.EvaluationsListView.ApplySearch | components/evaluations-list.tsx:94-110 | the shown list becomes the search result over the fetched summaries; nothing else changes |
| EvaluationsList.EvaluationsListView.ChangeSearchTerm | components/evaluations-list.tsx:94-110 | the term is set and the shown list is the search result for it |
| EvaluationsList.EvaluationsListView.FetchEvaluations | components/evaluations-list.tsx:60-91 | a successful fetch stores the projected summaries; any failure leaves an empty list; loading ends in every case |
| EvaluationsList.EvaluationsListView.LoadEvaluationDetails | components/evaluations-list.tsx:113-143 | a summary without an id changes nothing and requests nothing; otherwise one detail request; fetched details replace the selection, a failure keeps it; the dialog opens in both cases |
| ApiEvaluation.Summaries | lib/api-evaluation.ts:107-118 | one summary per appreciation, same length, same order |
| ApiEvaluation.GetAllEvaluations | lib/api-evaluation.ts:99-118 | succeeds iff the status is 2xx, with the projected summaries; otherwise fails with the status and status text |
| ApiEvaluation.SummariesCopyFields | lib/api-evaluation.ts:108-117 | each summary copies its appreciation's id, the tutor's CIN and names, the intern's CIN and names, the company and the dates |
| ApiEvaluation.SummariesAppend | lib/api-evaluation.ts:107 | the projection commutes with concatenation |
| ApiEvaluation.DetailPathJoin | lib/api-evaluation.ts:128-130 | the detail path is the collection path followed by the intern periode id, the stage id and the tutor id, joined by "/" |
| ApiEvaluation.DetailPathInjective | lib/api-evaluation.ts:128-130 | different id triples of natural numbers ask for different paths |
| ApiEvaluation.GetEvaluationById | lib/api-evaluation.ts:126-140 | succeeds iff the status is 2xx, with the body; 404 gives "Evaluation not found"; any other status gives the error with status and status text |
| ApiEvaluation.NotFoundIsDistinct | lib/api-evaluation.ts:132-138 | no failure other than 404 gives the not-found error |
| SubmissionPage.LabelTablesShape | components/submission.tsx:15-30 | each label table has six entries: index 0 empty, the five others not |
| SubmissionPage.LabelAt | components/submission.tsx:16 | the entry at a valid index, and "" outside the table |
| SubmissionPage.LabelAtTable | components/submission.tsx:14-32 | on a label table the label is non-empty exactly for ratings 1..5 |
| SubmissionPage.GetRatingLabel | components/submission.tsx:14-17 | non-empty exactly for ratings 1..5, and then the table's entry |
| SubmissionPage.GetInvolvementLabel | components/submission.tsx:19-22 | non-empty exactly for ratings 1..5, and then the table's entry |
| SubmissionPage.GetOpennessLabel | components/submission.tsx:24-27 | non-empty exactly for ratings 1..5, and then the table's entry |
| SubmissionPage.GetQualityLabel | components/submission.tsx:29-32 | non-empty exactly for ratings 1..5, and then the table's entry |
| SubmissionPage.GetCompetencyLevelLabel | components/submission.tsx:34-47 | each of NA, DEBUTANT, AUTONOME and AUTONOME_PLUS has its label; everything else, "" included, reads "Non évalué" |
| SubmissionPage.LevelLabelsDistinct | components/submission.tsx:34-47 | the four levels get four different labels |

## Left out

- HTTP is not modelled. That covers `fetch`, JSON decoding and URL
  encoding in lib/app-service.ts:62-126, lib/api-client.ts and
  lib/api-evaluation.ts. A scripted backend (`Backend`, `Response`) stands
  for the answers.
- The mock fallbacks are not modelled: the list pages' mock data and the
  mocked route handlers of app/api. The list and detail fetches model
  only the real request.
- The 500 ms debounce of the CIN check is not modelled. It depends on
  timers. `CheckCinExists` is the check it eventually runs.
- Date formatting with `toLocaleDateString('fr-FR')` is not modelled. It
  depends on the platform's locale data.
- Lower-casing is ASCII only (`Text.Lower`). Unicode case folding is not
  modelled.
- Grades are whole numbers. `Number(value)` on decimals, signs, exponents
  and text (the "NaN" path) is not modelled. `ParseFloatOrZero` reads
  only the leading digits.
- Text.ParseFloatOrZero: does not model `parseFloat` on decimals, signs
  or exponents.
- Not modelled: the loading toast, the console logs, the page scroll on
  navigation, and JSX rendering beyond the progress bar, the step caption
  and the two buttons.
- The wizard's own submit only shows an alert. Alerts are outside the
  model, so it is left out.
- The single-field setters of the personal-info, global-assessment,
  communication-skills and general-assessment pages are left out. Each
  only sets one field of the draft; the draft datatype already covers
  that.
- CompanyCompetenciesPage.HandleCompetencyChange: when the company block
  is absent, the code's `|| {}` leaves the three unchanged fields
  `undefined`, and the submission then sends those categories without a
  `valeur`. The model fills them with "" instead. The initial draft holds
  both blocks and nothing removes them, so this only concerns drafts
  built some other way.
- Company-competency changes are modelled for the section names the page
  uses ("company", "technical"). An arbitrary section string writing an
  arbitrary key is not modelled.
- An error cleared by the change handler is modelled as removed from the
  error map. The code stores `undefined` under the key. Nothing reads the
  difference except the truthiness test, which treats both the same.
- Network errors thrown by `fetch` are not modelled. Each creation
  failure carries the response's status text, as the thrown message
  does.
- The outer `catch` blocks that only log and rethrow are not modelled
  separately. They change neither the outcome nor the message.
- EvaluationsList.EvaluationKeyInjective: stated for ids made of natural
  numbers.
- ApiEvaluation.DetailPathInjective: stated for ids made of natural
  numbers. Negative ids print with a "-", which the lemma does not cover.
- The key of a summary without an id is not modelled. The code would
  read fields of `undefined`.
- Label lookups use the tables' own keys. Inherited object keys such as
  `constructor` are not modelled.
- The professional-skills page imports the wizard's draft type. The model
  edits `FormTypes.FormData`, whose individual competencies have the same
  shape. This lets edits be connected to the submission.
- The submission lemmas are stated for an arbitrary assessment. They use
  `Attempt(b, f, a)`, and `Submission` is the case where the assessment
  is read from the draft.
- The tutor form and the tutor list are the same class as the intern form
  and the intern list, fixed by a kind value. Their rows cite the intern
  file, and the tutor lines are named in the row.
