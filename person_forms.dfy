/** The intern and tutor creation forms. Both keep the same state (the
    draft, the error messages by field, the CIN check flags and the
    submitting flag) and differ only in their last three fields and in
    the wording of their messages, so one class models both, fixed to a
    `FormKind` at construction. The draft is keyed by field name, as the
    change handler writes it. */
module PersonForms {

  import opened Wrappers
  import opened Text
  import opened Toasts

  datatype FormKind = InternForm | TutorForm

  datatype Field =
    | Cin | Nom | Prenom | Email | Password
    | Description | Institution | Niveau       // intern only
    | Entreprise | Fonction | Technos          // tutor only

  /** Whether a field belongs to a form: the five common fields to both,
      description, institution and level of study to the intern form,
      company, position and technologies to the tutor form. */
  predicate InForm(kind: FormKind, f: Field) {
    match f
    case Description | Institution | Niveau => kind == InternForm
    case Entreprise | Fonction | Technos => kind == TutorForm
    case _ => true
  }

  const AllFields: set<Field> :=
    {Cin, Nom, Prenom, Email, Password, Description, Institution, Niveau, Entreprise, Fonction, Technos}

  /** The fields of each form's draft. */
  function Fields(kind: FormKind): set<Field> {
    set f | f in AllFields && InForm(kind, f)
  }

  /** The fields that must be non-empty: every field but the level of
      study (intern) or the technologies (tutor). */
  function RequiredFields(kind: FormKind): (r: set<Field>)
    ensures r <= Fields(kind)
  {
    match kind
    case InternForm => {Cin, Nom, Prenom, Email, Password, Description, Institution}
    case TutorForm => {Cin, Nom, Prenom, Email, Password, Entreprise, Fonction}
  }

  function RequiredMessage(f: Field): String {
    match f
    case Cin => "Le CIN est requis"
    case Nom => "Le nom est requis"
    case Prenom => "Le prénom est requis"
    case Email => "L'email est requis"
    case Password => "Le mot de passe est requis"
    case Description => "La description est requise"
    case Institution => "L'institution est requise"
    case Entreprise => "L'entreprise est requise"
    case Fonction => "La fonction est requise"
    case Niveau => ""
    case Technos => ""
  }

  const EmailFormatMessage: String := "Format d'email invalide"
  const DuplicateCinMessage: String := "Ce CIN existe déjà dans la base de données"

  type Draft = map<Field, String>

  /** The value of a field; a key the draft does not hold reads as "". */
  function Get(d: Draft, f: Field): String {
    if f in d then d[f] else ""
  }

  /** The initial draft: every field of the form empty. */
  function InitialDraft(kind: FormKind): (d: Draft)
    ensures d.Keys == Fields(kind)
    ensures forall f :: f in d ==> d[f] == ""
  {
    map f | f in Fields(kind) :: ""
  }

  // ----- validation --------------------------------------------------------

  /** The reference condition for a valid form: every required field
      non-empty, the email of the shape `^[^\s@]+@[^\s@]+\.[^\s@]+$`, and
      the CIN not known to exist. */
  ghost predicate FormValid(kind: FormKind, d: Draft, cinExists: Option<bool>) {
    && (forall f :: f in RequiredFields(kind) ==> Get(d, f) != "")
    && MatchesEmailPattern(Get(d, Email))
    && cinExists != Some(true)
  }

  /** Whether field `f` is in error. */
  predicate InError(kind: FormKind, d: Draft, cinExists: Option<bool>, f: Field) {
    || (f in RequiredFields(kind) && Get(d, f) == "")
    || (f == Email && Get(d, Email) != "" && !IsValidEmail(Get(d, Email)))
    || (f == Cin && cinExists == Some(true))
  }

  /** The message shown for a field in error: a known CIN overrides the
      required message, and a malformed (non-empty) email has its own. */
  function ErrorMessage(d: Draft, cinExists: Option<bool>, f: Field): String {
    if f == Cin && cinExists == Some(true) then DuplicateCinMessage
    else if f == Email && Get(d, Email) != "" then EmailFormatMessage
    else RequiredMessage(f)
  }

  /** The error map `validateForm` computes, described field by field. */
  ghost predicate DescribesErrors(kind: FormKind, d: Draft, cinExists: Option<bool>, errs: map<Field, String>) {
    forall f :: (f in errs <==> InError(kind, d, cinExists, f))
      && (f in errs ==> errs[f] == ErrorMessage(d, cinExists, f))
  }

  /** At most one error map fits the description. */
  lemma DescribedErrorsUnique(kind: FormKind, d: Draft, cinExists: Option<bool>, e1: map<Field, String>, e2: map<Field, String>)
    requires DescribesErrors(kind, d, cinExists, e1) && DescribesErrors(kind, d, cinExists, e2)
    ensures e1 == e2
  {
    assert e1.Keys == e2.Keys by {
      forall f ensures f in e1 <==> f in e2 {
        assert f in e1 <==> InError(kind, d, cinExists, f);
      }
    }
    forall f | f in e1 ensures e1[f] == e2[f] {
      assert e1[f] == ErrorMessage(d, cinExists, f);
    }
  }

  /** The form is valid exactly when no field is in error. */
  lemma NoErrorIffValid(kind: FormKind, d: Draft, cinExists: Option<bool>)
    ensures (forall f :: !InError(kind, d, cinExists, f)) <==> FormValid(kind, d, cinExists)
  {
    EmailCheckMatchesPattern(Get(d, Email));
    if FormValid(kind, d, cinExists) {
      assert Get(d, Email) != "" by { assert Email in RequiredFields(kind); }
    } else if !MatchesEmailPattern(Get(d, Email)) {
      if Get(d, Email) == "" {
        assert InError(kind, d, cinExists, Email) by { assert Email in RequiredFields(kind); }
      } else {
        assert InError(kind, d, cinExists, Email);
      }
    } else if cinExists == Some(true) {
      assert InError(kind, d, cinExists, Cin);
    } else {
      var f :| f in RequiredFields(kind) && Get(d, f) == "";
      assert InError(kind, d, cinExists, f);
    }
  }

  /** `errs` holds exactly the required messages of the empty fields
      among `checked`. */
  ghost predicate RequiredSoFar(d: Draft, checked: set<Field>, errs: map<Field, String>) {
    forall f :: (f in errs <==> f in checked && Get(d, f) == "")
      && (f in errs ==> errs[f] == RequiredMessage(f))
  }

  /** One `if (!formData.f) newErrors.f = ...` line. */
  method CheckRequired(d: Draft, f: Field, errs: map<Field, String>, ghost checked: set<Field>)
    returns (r: map<Field, String>)
    requires RequiredSoFar(d, checked, errs)
    ensures RequiredSoFar(d, checked + {f}, r)
  {
    r := errs;
    if Get(d, f) == "" {
      r := r[f := RequiredMessage(f)];
    }
  }

  /** The checks both forms share: CIN, names, email and password. */
  method CommonRequiredErrors(d: Draft) returns (newErrors: map<Field, String>)
    ensures RequiredSoFar(d, {Cin, Nom, Prenom, Email, Password}, newErrors)
  {
    newErrors := CheckRequired(d, Cin, map[], {});
    newErrors := CheckRequired(d, Nom, newErrors, {Cin});
    newErrors := CheckRequired(d, Prenom, newErrors, {Cin, Nom});
    newErrors := CheckRequired(d, Email, newErrors, {Cin, Nom, Prenom});
    newErrors := CheckRequired(d, Password, newErrors, {Cin, Nom, Prenom, Email});
  }

  /** The required-field checks: one message per empty required field. */
  method RequiredErrors(kind: FormKind, d: Draft) returns (newErrors: map<Field, String>)
    ensures RequiredSoFar(d, RequiredFields(kind), newErrors)
  {
    newErrors := CommonRequiredErrors(d);
    ghost var common := {Cin, Nom, Prenom, Email, Password};
    match kind {
      case InternForm =>
        newErrors := CheckRequired(d, Description, newErrors, common);
        newErrors := CheckRequired(d, Institution, newErrors, common + {Description});
        assert common + {Description} + {Institution} == RequiredFields(kind);
      case TutorForm =>
        newErrors := CheckRequired(d, Entreprise, newErrors, common);
        newErrors := CheckRequired(d, Fonction, newErrors, common + {Entreprise});
        assert common + {Entreprise} + {Fonction} == RequiredFields(kind);
    }
  }

  /** The `newErrors` dictionary, filled one check after the other; the
      later email and CIN checks overwrite an earlier required message.
      The form is valid iff the dictionary stays empty. */
  method ComputeErrors(kind: FormKind, d: Draft, cinExists: Option<bool>) returns (newErrors: map<Field, String>)
    ensures DescribesErrors(kind, d, cinExists, newErrors)
    ensures |newErrors| == 0 <==> FormValid(kind, d, cinExists)
  {
    newErrors := RequiredErrors(kind, d);
    if Get(d, Email) != "" && !IsValidEmail(Get(d, Email)) {
      newErrors := newErrors[Email := EmailFormatMessage];
    }
    if cinExists == Some(true) {
      newErrors := newErrors[Cin := DuplicateCinMessage];
    }
    EmptyErrorsIffValid(kind, d, cinExists, newErrors);
  }

  lemma EmptyErrorsIffValid(kind: FormKind, d: Draft, cinExists: Option<bool>, errs: map<Field, String>)
    requires DescribesErrors(kind, d, cinExists, errs)
    ensures |errs| == 0 <==> FormValid(kind, d, cinExists)
  {
    NoErrorIffValid(kind, d, cinExists);
    if |errs| == 0 {
      forall f ensures !InError(kind, d, cinExists, f) {
        assert f !in errs;
      }
    } else {
      var f :| f in errs;
      assert InError(kind, d, cinExists, f);
    }
  }

  // ----- the CIN check and the create call ---------------------------------

  /** What the existence lookup gives: whether a record came back, or an
      exception. */
  datatype LookupReply = Answered(found: bool) | Raised

  /** What the create call gives: resolved or rejected. */
  datatype CreateReply = Created | Rejected

  const InvalidFormToast := Toast("Formulaire invalide", "Veuillez corriger les erreurs dans le formulaire", true)

  function CreatedToast(kind: FormKind): Toast {
    match kind
    case InternForm => Toast("Stagiaire ajouté", "Le stagiaire a été ajouté avec succès", false)
    case TutorForm => Toast("Tuteur ajouté", "Le tuteur a été ajouté avec succès", false)
  }

  function CreateFailedToast(kind: FormKind): Toast {
    match kind
    case InternForm => Toast("Erreur", "Une erreur est survenue lors de l'ajout du stagiaire", true)
    case TutorForm => Toast("Erreur", "Une erreur est survenue lors de l'ajout du tuteur", true)
  }

  /** The record sent to the create call: the form's eight fields. */
  function CreateRequest(kind: FormKind, d: Draft): (r: Draft)
    ensures r.Keys == Fields(kind)
    ensures forall f :: f in r ==> r[f] == Get(d, f)
  {
    map f | f in Fields(kind) :: Get(d, f)
  }

  /** The CIN check result: a CIN shorter than three UTF-16 code units
      (`cin.length < 3`, the empty one included) is not looked up and clears the flag; an exception
      clears it too. */
  function CinCheckResult(cin: String, reply: LookupReply): Option<bool> {
    if Utf16Length(cin) < 3 then None
    else match reply
      case Answered(found) => Some(found)
      case Raised => None
  }

  /** A duplicate CIN both disables the submit button and fails
      validation. */
  lemma DuplicateCinBlocksSubmission(kind: FormKind, d: Draft, isSubmitting: bool)
    ensures SubmitDisabled(isSubmitting, Some(true))
    ensures !FormValid(kind, d, Some(true))
  {
  }

  /** The submit button is disabled while submitting or when the CIN is
      known to exist; an unknown CIN (`null`) does not disable it. */
  predicate SubmitDisabled(isSubmitting: bool, cinExists: Option<bool>) {
    isSubmitting || cinExists == Some(true)
  }

  // ----- the form component ------------------------------------------------

  class PersonForm {
    const kind: FormKind
    var formData: Draft
    var errors: map<Field, String>
    var checkingCin: bool
    var cinExists: Option<bool>
    var isSubmitting: bool
    /** The CINs looked up, in order. */
    ghost var lookups: seq<String>
    /** The records sent to the create call, in order. */
    ghost var created: seq<Draft>

    ghost predicate Valid()
      reads this
    {
      Fields(kind) <= formData.Keys && !isSubmitting && !checkingCin
    }

    constructor (kind: FormKind)
      ensures Valid() && this.kind == kind
      ensures formData == InitialDraft(kind) && errors == map[] && cinExists == None
      ensures lookups == [] && created == []
    {
      this.kind := kind;
      formData := InitialDraft(kind);
      errors := map[];
      checkingCin := false;
      cinExists := None;
      isSubmitting := false;
      lookups := [];
      created := [];
    }

    /** `handleChange`: writes the field, and removes that field's error
        when one is shown (the error map is otherwise untouched). */
    method HandleChange(name: Field, value: String)
      requires Valid()
      modifies this
      ensures Valid()
      ensures formData == old(formData)[name := value]
      ensures forall f :: f != name ==> Get(formData, f) == Get(old(formData), f)
      ensures name !in errors || errors[name] == ""
      ensures forall f :: f != name ==> (f in errors <==> f in old(errors)) && (f in errors ==> errors[f] == old(errors)[f])
      ensures cinExists == old(cinExists) && lookups == old(lookups) && created == old(created)
    {
      formData := formData[name := value];
      if name in errors && errors[name] != "" {
        errors := errors - {name};
      }
    }

    /** `checkCinExists`, with the lookup's reply given. */
    method CheckCinExists(cin: String, reply: LookupReply)
      requires Valid()
      modifies this
      ensures Valid()
      ensures cinExists == CinCheckResult(cin, reply)
      ensures lookups == old(lookups) + (if Utf16Length(cin) < 3 then [] else [cin])
      ensures formData == old(formData) && errors == old(errors) && created == old(created)
    {
      if Utf16Length(cin) < 3 {
        cinExists := None;
        return;
      }
      checkingCin := true;
      lookups := lookups + [cin];
      match reply {
        case Answered(found) => cinExists := Some(found);
        case Raised => cinExists := None;
      }
      checkingCin := false;
    }

    /** `validateForm`: replaces the error map and reports validity. */
    method ValidateForm() returns (valid: bool)
      requires Valid()
      modifies this
      ensures Valid()
      ensures DescribesErrors(kind, formData, cinExists, errors)
      ensures valid <==> FormValid(kind, formData, cinExists)
      ensures formData == old(formData) && cinExists == old(cinExists)
      ensures lookups == old(lookups) && created == old(created)
    {
      var newErrors := ComputeErrors(kind, formData, cinExists);
      errors := newErrors;
      valid := |newErrors| == 0;
    }

    /** The part of `handleSubmit` after a successful validation: one
        create call with the draft; a created record resets the draft and
        the CIN flag; the submitting flag is down again afterwards. */
    method SendCreate(reply: CreateReply) returns (toast: Toast)
      requires Valid()
      modifies this
      ensures Valid()
      ensures created == old(created) + [CreateRequest(kind, old(formData))]
      ensures reply == Created ==> toast == CreatedToast(kind) && formData == InitialDraft(kind) && cinExists == None
      ensures reply == Rejected ==> toast == CreateFailedToast(kind) && formData == old(formData) && cinExists == old(cinExists)
      ensures errors == old(errors) && lookups == old(lookups)
    {
      isSubmitting := true;
      created := created + [CreateRequest(kind, formData)];
      match reply {
        case Created =>
          formData := InitialDraft(kind);
          cinExists := None;
          toast := CreatedToast(kind);
        case Rejected =>
          toast := CreateFailedToast(kind);
      }
      isSubmitting := false;
    }

    /** `handleSubmit`, with the create call's reply given: an invalid form
        makes no call and shows the error toast; a valid one is sent. */
    method HandleSubmit(reply: CreateReply) returns (toast: Toast)
      requires Valid()
      modifies this
      ensures Valid()
      ensures DescribesErrors(kind, old(formData), old(cinExists), errors)
      ensures !FormValid(kind, old(formData), old(cinExists)) ==>
        toast == InvalidFormToast && created == old(created)
        && formData == old(formData) && cinExists == old(cinExists)
      ensures FormValid(kind, old(formData), old(cinExists)) ==>
        created == old(created) + [CreateRequest(kind, old(formData))]
        && (reply == Created ==> toast == CreatedToast(kind) && formData == InitialDraft(kind) && cinExists == None)
        && (reply == Rejected ==> toast == CreateFailedToast(kind) && formData == old(formData) && cinExists == old(cinExists))
      ensures lookups == old(lookups)
    {
      var valid := ValidateForm();
      if !valid {
        toast := InvalidFormToast;
        return;
      }
      toast := SendCreate(reply);
    }
  }

  // ----- the two forms -----------------------------------------------------

  /** The intern form is valid iff CIN, last name, first name, email,
      password, description and institution are filled, the email has the
      required shape, and the CIN is not known to exist; the level of
      study is optional. */
  lemma InternFormValidIff(d: Draft, cinExists: Option<bool>)
    ensures FormValid(InternForm, d, cinExists) <==>
      && Get(d, Cin) != "" && Get(d, Nom) != "" && Get(d, Prenom) != ""
      && Get(d, Email) != "" && Get(d, Password) != ""
      && Get(d, Description) != "" && Get(d, Institution) != ""
      && MatchesEmailPattern(Get(d, Email)) && cinExists != Some(true)
    ensures Niveau !in RequiredFields(InternForm)
  {
  }

  /** The tutor form is valid iff CIN, last name, first name, email,
      password, company and position are filled, the email has the
      required shape, and the CIN is not known to exist; the technologies
      are optional. */
  lemma TutorFormValidIff(d: Draft, cinExists: Option<bool>)
    ensures FormValid(TutorForm, d, cinExists) <==>
      && Get(d, Cin) != "" && Get(d, Nom) != "" && Get(d, Prenom) != ""
      && Get(d, Email) != "" && Get(d, Password) != ""
      && Get(d, Entreprise) != "" && Get(d, Fonction) != ""
      && MatchesEmailPattern(Get(d, Email)) && cinExists != Some(true)
    ensures Technos !in RequiredFields(TutorForm)
  {
  }

  /** The email format error is reported only for a non-empty email, and
      a known CIN is always reported with the duplicate message. */
  lemma ErrorMessagePrecedence(kind: FormKind, d: Draft, cinExists: Option<bool>, errs: map<Field, String>)
    requires DescribesErrors(kind, d, cinExists, errs)
    ensures Email in errs && errs[Email] == EmailFormatMessage ==> Get(d, Email) != ""
    ensures Email in errs && Get(d, Email) == "" ==> errs[Email] == "L'email est requis"
    ensures cinExists == Some(true) ==> Cin in errs && errs[Cin] == DuplicateCinMessage
    ensures cinExists != Some(true) && Cin in errs ==> errs[Cin] == "Le CIN est requis"
  {
    assert Email in errs ==> errs[Email] == ErrorMessage(d, cinExists, Email);
    assert Cin in errs <==> InError(kind, d, cinExists, Cin);
    assert Cin in errs ==> errs[Cin] == ErrorMessage(d, cinExists, Cin);
  }

  /** The check never looks up a CIN shorter than three UTF-16 code units,
      and a CIN of three or more code units gets the lookup's answer unless the
      lookup raised. */
  lemma CinCheckShortCircuit(cin: String, reply: LookupReply)
    ensures Utf16Length(cin) < 3 ==> CinCheckResult(cin, reply) == None
    ensures Utf16Length(cin) >= 3 && reply.Answered? ==> CinCheckResult(cin, reply) == Some(reply.found)
    ensures reply == Raised ==> CinCheckResult(cin, reply) == None
  {
  }

  /** A CIN of two characters outside the Basic Multilingual Plane is four
      code units long, so it is looked up. */
  lemma AstralCinIsLookedUp(reply: LookupReply)
    requires reply.Answered?
    ensures CinCheckResult("\U{1F600}\U{1F600}", reply) == Some(reply.found)
  {
    Utf16LengthAstral();
  }
}
