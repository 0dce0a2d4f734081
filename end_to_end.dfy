/**
 * The contact form and the contact endpoint together: the JSON the page posts, how the
 * page reads the endpoint's answer, and what each side accepts of the other.
 */
module EndToEnd {
  import opened Text
  import opened EmailPattern
  import CF = ContactForm
  import CV = ContactViews

  /**
   * `JSON.stringify(formData)`, as the view's `json.loads` sees it: an object with
   * exactly the three keys, each holding its field's string.
   */
  function Payload(d: CF.FormData): (b: CV.Body)
    ensures b.Parsed? && b.doc.Object? && b.doc.fields.Keys == {"name", "email", "message"}
    ensures b.doc.fields["name"] == CV.JString(d.name) && b.doc.fields["email"] == CV.JString(d.email)
      && b.doc.fields["message"] == CV.JString(d.message)
  {
    CV.Parsed(CV.Object(map["name" := CV.JString(d.name), "email" := CV.JString(d.email), "message" := CV.JString(d.message)]))
  }

  /**
   * The page's view of a response: the body always decodes, `response.ok` holds for a
   * 2xx status only, so never for the view's 400 and 500 answers, and `success` and
   * `errors` pass through unchanged.
   */
  function Delivered(r: CV.Response): (o: CF.FetchOutcome)
    ensures o.Responded? && (o.ok <==> 200 <= r.status < 300)
    ensures r.status in {400, 500} ==> !o.ok
    ensures o.success == r.success && o.errors == r.errors
  {
    CF.Responded(200 <= r.status < 300, r.success, r.errors)
  }

  /** The view reads a posted form as its three values, stripped. */
  lemma PayloadReads(d: CF.FormData)
    ensures CV.Read(Payload(d)) == CV.Values(Trim(d.name), Trim(d.email), Trim(d.message))
  {
    var fields := map["name" := CV.JString(d.name), "email" := CV.JString(d.email), "message" := CV.JString(d.message)];
    assert CV.Stripped(fields, "name") == Some(Trim(d.name));
    assert CV.Stripped(fields, "email") == Some(Trim(d.email));
    assert CV.Stripped(fields, "message") == Some(Trim(d.message));
  }

  /** Every form the page lets through also passes the view's checks. */
  lemma FrontendValidBackendAccepts(d: CF.FormData)
    requires CF.ValidateForm(d).IsEmpty()
    ensures CV.Accepted(Payload(d))
    ensures CV.Respond(Payload(d), true) == CV.Response(200, true, None)
  {
    CF.ValidateFormMeaning(d);
    MatchesIffShape(d.email);
    MatchesIsTrimmed(d.email);
    MatchesHasAt(d.email);
    PayloadReads(d);
  }

  /** A valid form ends in the page's success state exactly when the mail goes out. */
  lemma ValidSubmitSucceedsIffSent(d: CF.FormData, sendOk: bool)
    requires CF.ValidateForm(d).IsEmpty()
    ensures CF.Resolve(Delivered(CV.Respond(Payload(d), sendOk))).status == CF.Succeeded <==> sendOk
  {
    FrontendValidBackendAccepts(d);
  }

  /**
   * Every failure the view reports reaches the user as its own joined messages: never
   * the page's generic fallback, which only an empty join would select.
   */
  lemma BackendFailureShownVerbatim(body: CV.Body, sendOk: bool)
    requires !CV.Respond(body, sendOk).success
    ensures var r := CV.Respond(body, sendOk);
      CF.Resolve(Delivered(r)).status == CF.Failed
      && CF.Resolve(Delivered(r)).message == Join(r.errors.value, " ")
      && Join(r.errors.value, " ") != ""
  {
    var r := CV.Respond(body, sendOk);
    JoinOfNonEmpty(r.errors.value, " ");
    assert r.errors.value != [""] by {
      assert r.errors.value[0] != "";
    }
  }

  /** The view is laxer than the page: `a@b` has an `@`, which is all the view asks. */
  lemma BackendLaxerThanFrontend()
    ensures CV.Accepted(Payload(CF.FormData("Jo", "a@b", "hi")))
    ensures !CF.ValidateForm(CF.FormData("Jo", "a@b", "hi")).IsEmpty()
  {
    var d := CF.FormData("Jo", "a@b", "hi");
    assert NoSpace("Jo") && NoSpace("a@b") && NoSpace("hi");
    TrimNoSpace("Jo");
    TrimNoSpace("a@b");
    TrimNoSpace("hi");
    PayloadReads(d);
    assert "a@b"[1] == '@';
    assert CV.FieldErrors("Jo", "a@b", "hi") == [];
    NoDotAfterAtRejected();
    assert !AllSpace("a@b") by {
      assert !IsSpace("a@b"[0]);
    }
    assert CF.ValidateForm(d).email == Some(CF.EmailInvalid);
  }
}
