/**
 * The contact endpoint `contact_view`: it reads the JSON body, strips the three
 * fields, collects the field errors in a fixed order, and answers with a status code,
 * a `success` flag and, on failure, a list of error messages. Sending the mail is an
 * oracle bit.
 */
module ContactViews {
  import opened Text

  const NameRequired := "Le nom est requis."
  const EmailRequired := "L'email est requis."
  const EmailInvalid := "L'email n'est pas valide."
  const MessageRequired := "Le message est requis."
  const SendFailed := "Erreur lors de l'envoi de l'email. Veuillez réessayer plus tard."
  const InvalidFormat := "Format de données invalide."
  const Unexpected := "Une erreur inattendue s'est produite."

  /** A JSON value as far as the view looks at it: a string, or anything else (null included). */
  datatype Json = JString(text: string) | JOther

  /** What `json.loads` made of the body: an object, or any other JSON value. */
  datatype Doc = Object(fields: map<string, Json>) | NonObject

  /**
   * The request body: not JSON (`JSONDecodeError`), bytes in no JSON encoding (a
   * decoding error that is not a `JSONDecodeError`), or a parsed document.
   */
  datatype Body = NotJson | BadEncoding | Parsed(doc: Doc)

  /** The `JsonResponse`: status code, `success`, and the `errors` key when there is one. */
  datatype Response = Response(status: int, success: bool, errors: Option<seq<string>>)

  /**
   * `data.get(key, '').strip()`: a missing key reads as the empty string, a string is
   * stripped so that it neither starts nor ends with whitespace, and any other value
   * (`None` here) makes `.strip()` raise.
   */
  function Stripped(fields: map<string, Json>, key: string): (r: Option<string>)
    ensures r.Some? <==> key !in fields || fields[key].JString?
    ensures key !in fields ==> r == Some("")
    ensures r.Some? && r.value != [] ==> !IsSpace(r.value[0]) && !IsSpace(r.value[|r.value| - 1])
    ensures key in fields && fields[key].JString? ==> r.Some? && IsStripOf(r.value, fields[key].text)
  {
    if key !in fields then Some(Trim(""))
    else match fields[key]
      case JString(s) => Some(Trim(s))
      case JOther => None
  }

  /** The position of a field's message in the error list. */
  function Rank(e: string): int
  {
    if e == NameRequired then 0
    else if e == EmailRequired || e == EmailInvalid then 1
    else 2
  }

  /**
   * The error list for stripped values: at most one entry per field, in the order
   * name, e-mail, message; the e-mail entry says "required" when it is empty and
   * "not valid" when it has no `@`.
   */
  function FieldErrors(name: string, email: string, message: string): (errs: seq<string>)
    ensures |errs| <= 3
    ensures forall i :: 0 <= i < |errs| ==> errs[i] in {NameRequired, EmailRequired, EmailInvalid, MessageRequired}
    ensures forall i, j :: 0 <= i < j < |errs| ==> Rank(errs[i]) < Rank(errs[j])
    ensures NameRequired in errs <==> name == ""
    ensures EmailRequired in errs <==> email == ""
    ensures EmailInvalid in errs <==> email != "" && '@' !in email
    ensures MessageRequired in errs <==> message == ""
    ensures errs == [] <==> name != "" && email != "" && '@' in email && message != ""
  {
    (if name == "" then [NameRequired] else [])
    + (if email == "" then [EmailRequired] else if '@' !in email then [EmailInvalid] else [])
    + (if message == "" then [MessageRequired] else [])
  }

  /** How far reading the body gets: the decode fails, reading a field raises, or three stripped values. */
  datatype Reading = Undecodable | Unreadable | Values(name: string, email: string, message: string)

  /**
   * `json.loads(request.body)` followed by `data.get(key, '').strip()` for the three
   * keys. Decoding fails only for a body that is not JSON; three values come out
   * exactly when the document is an object whose three keys each read, and they are
   * those reads.
   */
  function Read(body: Body): (v: Reading)
    ensures v.Undecodable? <==> body.NotJson?
    ensures v.Values? <==>
      body.Parsed? && body.doc.Object? && Stripped(body.doc.fields, "name").Some?
      && Stripped(body.doc.fields, "email").Some? && Stripped(body.doc.fields, "message").Some?
    ensures v.Values? ==>
      Stripped(body.doc.fields, "name") == Some(v.name) && Stripped(body.doc.fields, "email") == Some(v.email)
      && Stripped(body.doc.fields, "message") == Some(v.message)
  {
    match body
    case NotJson => Undecodable
    case BadEncoding => Unreadable
    case Parsed(NonObject) => Unreadable
    case Parsed(Object(fields)) =>
      var name, email, message := Stripped(fields, "name"), Stripped(fields, "email"), Stripped(fields, "message");
      if name.None? || email.None? || message.None? then Unreadable
      else Values(name.value, email.value, message.value)
  }

  /** The body reads to three values that pass the checks, so the mail is sent. */
  predicate Accepted(body: Body)
  {
    var v := Read(body);
    v.Values? && FieldErrors(v.name, v.email, v.message) == []
  }

  /**
   * The answer to a body, given whether sending the mail succeeds. Success comes only
   * with status 200 and no error list; every failure has `success` false, status 400
   * or 500, and a non-empty list of non-empty messages.
   */
  function Respond(body: Body, sendOk: bool): (r: Response)
    ensures r.success <==> Accepted(body) && sendOk
    ensures r.success ==> r == Response(200, true, None)
    ensures !r.success ==> r.status in {400, 500} && r.errors.Some? && r.errors.value != []
    ensures !r.success ==> forall i :: 0 <= i < |r.errors.value| ==> r.errors.value[i] != ""
    ensures body.NotJson? ==> r == Response(400, false, Some([InvalidFormat]))
    ensures Read(body).Unreadable? ==> r == Response(500, false, Some([Unexpected]))
    ensures Read(body).Values? && !Accepted(body) ==>
      r == Response(400, false, Some(FieldErrors(Read(body).name, Read(body).email, Read(body).message)))
    ensures Accepted(body) && !sendOk ==> r == Response(500, false, Some([SendFailed]))
  {
    Answer(Read(body), sendOk)
  }

  /**
   * The answer once the body is read: 400 with the format error, 500 with the
   * unexpected error, 400 with the field errors, or else by the send.
   */
  function Answer(v: Reading, sendOk: bool): (r: Response)
    ensures r.success <==> v.Values? && FieldErrors(v.name, v.email, v.message) == [] && sendOk
    ensures v.Undecodable? ==> r == Response(400, false, Some([InvalidFormat]))
    ensures v.Unreadable? ==> r == Response(500, false, Some([Unexpected]))
    ensures v.Values? && FieldErrors(v.name, v.email, v.message) != [] ==>
      r == Response(400, false, Some(FieldErrors(v.name, v.email, v.message)))
    ensures v.Values? && FieldErrors(v.name, v.email, v.message) == [] ==>
      r == if sendOk then Response(200, true, None) else Response(500, false, Some([SendFailed]))
  {
    match v
    case Undecodable => Response(400, false, Some([InvalidFormat]))
    case Unreadable => Response(500, false, Some([Unexpected]))
    case Values(name, email, message) =>
      var errs := FieldErrors(name, email, message);
      if errs != [] then Response(400, false, Some(errs))
      else if sendOk then Response(200, true, None)
      else Response(500, false, Some([SendFailed]))
  }

  /**
   * The error list as the view builds it: start empty and append each field's message
   * in turn, the name's, then the e-mail's, then the message's.
   */
  method CollectErrors(name: string, email: string, message: string) returns (errors: seq<string>)
    ensures errors == FieldErrors(name, email, message)
  {
    errors := [];
    if name == "" {
      errors := errors + [NameRequired];
    }
    if email == "" {
      errors := errors + [EmailRequired];
    } else if '@' !in email {
      errors := errors + [EmailInvalid];
    }
    if message == "" {
      errors := errors + [MessageRequired];
    }
  }

  /**
   * `contact_view`: reads and strips the fields, collects their errors, and picks the response through the same branches as the view's `try`/`except`.
   * `sent` says whether the mail was handed to the mailer.
   */
  method ContactView(body: Body, sendOk: bool) returns (resp: Response, sent: bool)
    ensures resp == Respond(body, sendOk)
    ensures sent <==> Accepted(body)
  {
    sent := false;
    if body.NotJson? {
      resp := Response(400, false, Some([InvalidFormat]));
      return;
    }
    if body.BadEncoding? || body.doc.NonObject? {
      resp := Response(500, false, Some([Unexpected]));
      return;
    }
    var data := body.doc.fields;
    var name := Stripped(data, "name");
    var email := Stripped(data, "email");
    var message := Stripped(data, "message");
    if name.None? || email.None? || message.None? {
      resp := Response(500, false, Some([Unexpected]));
      return;
    }
    assert Read(body) == Values(name.value, email.value, message.value);
    var errors := CollectErrors(name.value, email.value, message.value);
    if errors != [] {
      resp := Response(400, false, Some(errors));
      return;
    }
    sent := true;
    if sendOk {
      resp := Response(200, true, None);
    } else {
      resp := Response(500, false, Some([SendFailed]));
    }
  }

  /** A missing key reads as a value holding only whitespace. */
  lemma StrippedMissingLikeBlank(fields: map<string, Json>, key: string, w: string, k: string)
    requires AllSpace(w)
    ensures Stripped(fields - {key}, k) == Stripped(fields[key := JString(w)], k)
  {
    TrimEmptyIffAllSpace(w);
    TrimEmptyIffAllSpace("");
  }

  /** A missing field is answered exactly as a field holding only whitespace. */
  lemma MissingLikeBlank(fields: map<string, Json>, key: string, w: string, sendOk: bool)
    requires AllSpace(w)
    ensures Respond(Parsed(Object(fields - {key})), sendOk) == Respond(Parsed(Object(fields[key := JString(w)])), sendOk)
  {
    StrippedMissingLikeBlank(fields, key, w, "name");
    StrippedMissingLikeBlank(fields, key, w, "email");
    StrippedMissingLikeBlank(fields, key, w, "message");
  }
}
