/**
 * The contact form of the landing page: its field record, the per-field error record,
 * the validator, the reading of the endpoint's answer, and the component state that
 * `handleChange` and `handleSubmit` update. The default page and the formal page carry
 * the same code for all of this, so one model serves both.
 */
module ContactForm {
  import opened Text
  import opened EmailPattern

  const NameRequired := "Le nom est requis"
  const EmailRequired := "L'email est requis"
  const EmailInvalid := "L'email n'est pas valide"
  const MessageRequired := "Le message est requis"
  const SuccessMessage := "Votre message a été envoyé avec succès ! Nous vous répondrons bientôt."
  const GenericFailure := "Une erreur s'est produite. Veuillez réessayer."
  const ConnectionFailure := "Erreur de connexion. Veuillez vérifier que le serveur est démarré."

  /** The `name` attribute of the input that raised a change event. */
  datatype Field = Name | Email | Message

  /** `FormData`: the three text fields. */
  datatype FormData = FormData(name: string, email: string, message: string)
  {
    function Get(f: Field): string
    {
      match f
      case Name => name
      case Email => email
      case Message => message
    }

    /** `{ ...prev, [f]: v }` */
    function With(f: Field, v: string): (d: FormData)
      ensures d.Get(f) == v
      ensures forall g :: g != f ==> d.Get(g) == Get(g)
    {
      match f
      case Name => this.(name := v)
      case Email => this.(email := v)
      case Message => this.(message := v)
    }
  }

  const EmptyForm := FormData("", "", "")

  /** `FormErrors`: an optional message per field. */
  datatype FormErrors = FormErrors(name: Option<string>, email: Option<string>, message: Option<string>)
  {
    function Get(f: Field): Option<string>
    {
      match f
      case Name => name
      case Email => email
      case Message => message
    }

    /** `{ ...prev, [f]: undefined }` */
    function Without(f: Field): (e: FormErrors)
      ensures e.Get(f) == None
      ensures forall g :: g != f ==> e.Get(g) == Get(g)
    {
      match f
      case Name => this.(name := None)
      case Email => this.(email := None)
      case Message => this.(message := None)
    }

    /** `Object.keys(errors).length === 0` for a freshly built record. */
    predicate IsEmpty()
    {
      name.None? && email.None? && message.None?
    }

    /** Every message that is present is a non-empty string, so it renders and is truthy. */
    predicate WellFormed()
    {
      (name.Some? ==> name.value != "") && (email.Some? ==> email.value != "")
      && (message.Some? ==> message.value != "")
    }
  }

  const NoErrors := FormErrors(None, None, None)

  /**
   * The error record `validateForm` builds: every field is examined on every call, and
   * every entry it records is a non-empty message.
   */
  function ValidateForm(d: FormData): (e: FormErrors)
    ensures e.WellFormed()
  {
    FormErrors(
      if IsBlank(d.name) then Some(NameRequired) else None,
      if IsBlank(d.email) then Some(EmailRequired)
      else if !Matches(d.email) then Some(EmailInvalid)
      else None,
      if IsBlank(d.message) then Some(MessageRequired) else None)
  }

  /**
   * What the error record says: a field is in error exactly when it is all whitespace,
   * except that the e-mail is also in error, with the other message, when it is not
   * blank but does not have the e-mail shape; the shape is checked on the untrimmed
   * value. The record is empty exactly when all three fields pass.
   */
  lemma ValidateFormMeaning(d: FormData)
    ensures var e := ValidateForm(d);
      && (e.name.Some? <==> AllSpace(d.name))
      && (e.name.Some? ==> e.name.value == NameRequired)
      && (e.email == Some(EmailRequired) <==> AllSpace(d.email))
      && (e.email == Some(EmailInvalid) <==> !AllSpace(d.email) && !EmailShape(d.email))
      && (e.email.None? <==> EmailShape(d.email))
      && (e.message.Some? <==> AllSpace(d.message))
      && (e.message.Some? ==> e.message.value == MessageRequired)
      && (e.IsEmpty() <==> !AllSpace(d.name) && EmailShape(d.email) && !AllSpace(d.message))
  {
    GateIffShape(d.email);
    MatchesIffShape(d.email);
  }

  /** A blank field (after trimming) always has an entry in the error record. */
  lemma BlankFieldFlagged(d: FormData, f: Field)
    requires IsBlank(d.Get(f))
    ensures ValidateForm(d).Get(f).Some?
  {
    ValidateFormMeaning(d);
  }

  /** `submitStatus`: `null`, `'success'` or `'error'`. */
  datatype Status = NoStatus | Succeeded | Failed

  /**
   * What `fetch` and `response.json()` produced: a thrown error, or the response's
   * `ok` bit and the body's `success` flag and optional `errors` list.
   */
  datatype FetchOutcome =
    | TransportFailure
    | Responded(ok: bool, success: bool, errors: Option<seq<string>>)

  /** The status, the message and whether the fields are reset, as `handleSubmit` decides them. */
  datatype Resolution = Resolution(status: Status, message: string, clearFields: bool)

  /**
   * `data.errors?.join(' ') || <generic message>`: the joined list, unless the list is
   * missing or its join is the empty string, which with a one-space separator happens
   * for `[]` and `[""]` only.
   */
  function FailureMessage(errors: Option<seq<string>>): (m: string)
    ensures m != ""
    ensures errors.None? || errors.value in {[], [""]} ==> m == GenericFailure
    ensures errors.Some? && errors.value !in {[], [""]} ==> m == Join(errors.value, " ")
  {
    match errors
    case None => GenericFailure
    case Some(xs) =>
      JoinEmptyIff(xs, " ");
      var joined := Join(xs, " ");
      if joined != "" then joined else GenericFailure
  }

  /**
   * How `handleSubmit` reads the endpoint's answer: success exactly for an `ok`
   * response whose body says `success`, with the fields reset only then; otherwise an
   * error carrying the joined `errors`, the generic message when that join is empty,
   * or the connection message when the request itself failed.
   */
  function Resolve(o: FetchOutcome): (r: Resolution)
    ensures r.status != NoStatus && r.message != ""
    ensures r.status == Succeeded <==> o.Responded? && o.ok && o.success
    ensures r.clearFields <==> r.status == Succeeded
    ensures r.status == Succeeded ==> r.message == SuccessMessage
    ensures o.TransportFailure? ==> r.message == ConnectionFailure
    ensures o.Responded? && !(o.ok && o.success) && (o.errors.None? || o.errors.value in {[], [""]})
      ==> r.message == GenericFailure
    ensures o.Responded? && !(o.ok && o.success) && o.errors.Some? && o.errors.value !in {[], [""]}
      ==> r.message == Join(o.errors.value, " ")
  {
    match o
    case TransportFailure => Resolution(Failed, ConnectionFailure, false)
    case Responded(ok, success, errors) =>
      if ok && success then Resolution(Succeeded, SuccessMessage, true)
      else Resolution(Failed, FailureMessage(errors), false)
  }

  /** An error body listing `A` and `B` is shown as `A B`. */
  lemma JoinedErrorsShown()
    ensures Resolve(Responded(true, false, Some(["A", "B"]))).message == "A B"
  {
    assert Join(["A", "B"], " ") == "A" + " " + Join(["B"], " ");
  }

  /** The state cells of the contact form. */
  class ContactForm {
    var formData: FormData
    var errors: FormErrors
    var isSubmitting: bool
    var submitStatus: Status
    var submitMessage: string

    /** Error entries are non-empty, and a message is shown exactly when a status is. */
    ghost predicate Valid()
      reads this
    {
      errors.WellFormed() && (submitStatus == NoStatus <==> submitMessage == "")
    }

    constructor ()
      ensures Valid()
      ensures formData == EmptyForm && errors == NoErrors
      ensures !isSubmitting && submitStatus == NoStatus && submitMessage == ""
    {
      formData := EmptyForm;
      errors := NoErrors;
      isSubmitting := false;
      submitStatus := NoStatus;
      submitMessage := "";
    }

    /**
     * `handleChange`: stores the edited value, clears that field's error only, and
     * clears a shown status; an in-flight submission is not affected.
     */
    method HandleChange(f: Field, value: string)
      requires Valid()
      modifies this
      ensures Valid()
      ensures formData == old(formData).With(f, value)
      ensures errors == old(errors).Without(f)
      ensures submitStatus == NoStatus && submitMessage == ""
      ensures isSubmitting == old(isSubmitting)
    {
      formData := formData.With(f, value);
      var current := errors.Get(f);
      if current.Some? && current.value != "" {
        errors := errors.Without(f);
      } else {
        assert current.None?;
        assert errors == errors.Without(f);
      }
      if submitStatus != NoStatus {
        submitStatus := NoStatus;
        submitMessage := "";
      }
    }

    /** `validateForm`: replaces the error record and reports whether it is empty. */
    method Validate() returns (ok: bool)
      modifies this`errors
      ensures errors == ValidateForm(formData)
      ensures ok <==> errors.IsEmpty()
    {
      errors := ValidateForm(formData);
      ok := errors.IsEmpty();
    }

    /**
     * The part of `handleSubmit` before the `await`: after an invalid validation
     * nothing but the error record changes and no request is made; otherwise the
     * request carries the current fields, the form is pending and the status cleared.
     */
    method BeginSubmit() returns (request: Option<FormData>)
      requires Valid()
      modifies this
      ensures Valid()
      ensures formData == old(formData)
      ensures errors == ValidateForm(old(formData))
      ensures request.Some? <==> errors.IsEmpty()
      ensures request.None? ==>
        isSubmitting == old(isSubmitting) && submitStatus == old(submitStatus) && submitMessage == old(submitMessage)
      ensures request.Some? ==>
        request.value == formData && isSubmitting && submitStatus == NoStatus && submitMessage == ""
    {
      var ok := Validate();
      if !ok {
        return None;
      }
      isSubmitting := true;
      submitStatus := NoStatus;
      submitMessage := "";
      request := Some(formData);
    }

    /**
     * The part of `handleSubmit` after the `await`: records the resolution of the
     * answer, resets the fields only on success, and in every case ends not pending.
     */
    method FinishSubmit(outcome: FetchOutcome)
      requires Valid()
      modifies this
      ensures Valid()
      ensures submitStatus == Resolve(outcome).status && submitMessage == Resolve(outcome).message
      ensures formData == if Resolve(outcome).clearFields then EmptyForm else old(formData)
      ensures errors == old(errors) && !isSubmitting
    {
      match outcome {
        case TransportFailure =>
          submitStatus := Failed;
          submitMessage := ConnectionFailure;
        case Responded(ok, success, bodyErrors) =>
          if ok && success {
            submitStatus := Succeeded;
            submitMessage := SuccessMessage;
            formData := EmptyForm;
          } else {
            submitStatus := Failed;
            submitMessage := FailureMessage(bodyErrors);
          }
      }
      isSubmitting := false;
    }

    /**
     * `handleSubmit` with no edit during the request: an invalid form makes no request
     * and keeps the fields and status; a valid one sends its fields and ends in the
     * resolution of the answer, not pending.
     */
    method HandleSubmit(outcome: FetchOutcome) returns (request: Option<FormData>)
      requires Valid()
      modifies this
      ensures Valid()
      ensures errors == ValidateForm(old(formData))
      ensures request.Some? <==> errors.IsEmpty()
      ensures request.None? ==>
        formData == old(formData) && isSubmitting == old(isSubmitting)
        && submitStatus == old(submitStatus) && submitMessage == old(submitMessage)
      ensures request.Some? ==>
        request.value == old(formData) && !isSubmitting
        && submitStatus == Resolve(outcome).status && submitMessage == Resolve(outcome).message
        && formData == (if Resolve(outcome).status == Succeeded then EmptyForm else old(formData))
    {
      request := BeginSubmit();
      if request.Some? {
        FinishSubmit(outcome);
      }
    }
  }

  /** A blank name and `a@b` give a name error and an "invalid" e-mail error, and no message error. */
  lemma ScenarioBlankNameShortEmail()
    ensures ValidateForm(FormData("", "a@b", "hi")) == FormErrors(Some(NameRequired), Some(EmailInvalid), None)
  {
    ValidateFormMeaning(FormData("", "a@b", "hi"));
    NoDotAfterAtRejected();
    MatchesIffShape("a@b");
    assert !AllSpace("a@b") by { assert !IsSpace("a@b"[0]); }
    assert !AllSpace("hi") by { assert !IsSpace("hi"[0]); }
  }

  /** A leading space makes the e-mail invalid although it is not blank. */
  lemma ScenarioLeadingSpaceEmail()
    ensures ValidateForm(FormData("Jo", " a@b.c", "hi")).email == Some(EmailInvalid)
  {
    ValidateFormMeaning(FormData("Jo", " a@b.c", "hi"));
    LeadingSpaceRejected(" a@b.c");
    MatchesIffShape(" a@b.c");
    assert !IsSpace(" a@b.c"[1]);
  }
}
