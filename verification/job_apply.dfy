/** The `POST /api/jobs/apply` handler
    (layers/portal-prueba/server/api/jobs/apply.post.ts): required fields,
    then the email pattern, then the saved record. The generated id and the
    clock reading are parameters. */
module JobApply {
  import opened Wrappers
  import opened Text
  import opened JobTypes

  datatype HttpError = HttpError(statusCode: int, message: string)

  datatype ApplyResponse = ApplyResponse(success: bool, message: string, application: JobApplication)

  const MissingFieldsMessage := "Faltan campos requeridos"
  const InvalidEmailMessage := "Email inválido"
  const SuccessMessage := "Postulación enviada exitosamente"

  /** A field is given when it is truthy: present and non-empty. */
  predicate Given(f: Option<string>) {
    f.Some? && f.value != ""
  }

  predicate HasRequiredFields(app: JobApplication) {
    Given(app.jobId) && Given(app.applicantName) && Given(app.email) && Given(app.phone)
  }

  /** A character of the class `[^\s@]`. */
  predicate PlainChar(c: char) {
    !IsWhitespace(c) && c != '@'
  }

  /** Every character of `s[lo..hi]` is plain. */
  predicate PlainRun(s: string, lo: int, hi: int)
    requires 0 <= lo <= hi <= |s|
  {
    forall k :: lo <= k < hi ==> PlainChar(s[k])
  }

  /** `e` splits as `e[..at]`, `@`, `e[at+1..dot]`, `.`, `e[dot+1..]` with each
      of the three runs non-empty and plain. */
  predicate EmailSplit(e: string, at: int, dot: int) {
    && 0 < at && at + 1 < dot && dot + 1 < |e|
    && e[at] == '@' && e[dot] == '.'
    && PlainRun(e, 0, at) && PlainRun(e, at + 1, dot) && PlainRun(e, dot + 1, |e|)
  }

  /** The shape the pattern accepts, described without the pattern's runs: a
      single `@`, not first, no whitespace anywhere, and in the part after the
      `@` a dot with text on both sides. */
  predicate EmailShape(e: string) {
    && (forall k :: 0 <= k < |e| ==> !IsWhitespace(e[k]))
    && exists at | 0 <= at < |e| ::
         && 0 < at && e[at] == '@'
         && (forall k :: 0 <= k < |e| && k != at ==> e[k] != '@')
         && (exists dot | at + 1 < dot < |e| - 1 :: e[dot] == '.')
  }

  /** A split into the pattern's three runs exists exactly for the strings of
      that shape. */
  lemma EmailPatternIsShape(e: string)
    ensures (exists at, dot | 0 <= at < |e| && 0 <= dot < |e| :: EmailSplit(e, at, dot)) <==> EmailShape(e)
  {
    if exists at, dot | 0 <= at < |e| && 0 <= dot < |e| :: EmailSplit(e, at, dot) {
      var at, dot :| 0 <= at < |e| && 0 <= dot < |e| && EmailSplit(e, at, dot);
      forall k | 0 <= k < |e|
        ensures !IsWhitespace(e[k])
        ensures k != at ==> e[k] != '@'
      {
        if k < at {
          assert PlainChar(e[k]);
        } else if at < k < dot {
          assert PlainChar(e[k]);
        } else if dot < k {
          assert PlainChar(e[k]);
        }
      }
      assert e[dot] == '.';
    }
    if EmailShape(e) {
      var at :| 0 <= at < |e| && 0 < at && e[at] == '@'
        && (forall k :: 0 <= k < |e| && k != at ==> e[k] != '@')
        && (exists dot | at + 1 < dot < |e| - 1 :: e[dot] == '.');
      var dot :| at + 1 < dot < |e| - 1 && e[dot] == '.';
      assert EmailSplit(e, at, dot);
    }
  }

  /** `/^[^\s@]+@[^\s@]+\.[^\s@]+$/.test(e)`: the three runs of the pattern
      split `e`. It accepts exactly the strings of `EmailShape`. */
  function EmailPatternMatches(e: string): (ok: bool)
    ensures ok <==> EmailShape(e)
  {
    EmailPatternIsShape(e);
    exists at, dot | 0 <= at < |e| && 0 <= dot < |e| :: EmailSplit(e, at, dot)
  }

  /** Sample addresses: `a@b.c` passes; `a@b`, `a@@b.c` and `a b@c.d` fail. */
  lemma EmailExamples()
    ensures EmailPatternMatches("a@b.c")
    ensures !EmailPatternMatches("a@b")
    ensures !EmailPatternMatches("a@@b.c")
    ensures !EmailPatternMatches("a b@c.d")
  {
    assert EmailSplit("a@b.c", 1, 3);
    EmailPatternIsShape("a@b.c");
    var twoAts := "a@@b.c";
    forall at | 0 <= at < |twoAts| && twoAts[at] == '@'
      ensures exists k :: 0 <= k < |twoAts| && k != at && twoAts[k] == '@'
    {
      if at == 1 {
        assert twoAts[2] == '@';
      } else {
        assert twoAts[1] == '@';
      }
    }
    assert IsWhitespace("a b@c.d"[1]);
  }

  /** The saved record: `{ ...application, id, appliedDate, status: 'pending' }`. */
  function SavedApplication(app: JobApplication, newId: string, isoNow: string): (s: JobApplication)
    ensures s.jobId == app.jobId && s.applicantName == app.applicantName
    ensures s.email == app.email && s.phone == app.phone
    ensures s.resume == app.resume && s.coverLetter == app.coverLetter
    ensures s.linkedIn == app.linkedIn && s.portfolio == app.portfolio
    ensures s.id == Some(newId) && s.appliedDate == Some(isoNow) && s.status == Some(Pending)
  {
    app.(id := Some(newId), appliedDate := Some(isoNow), status := Some(Pending))
  }

  /** The handler. `newId` stands for the random id and `isoNow` for
      `new Date().toISOString()`. */
  function SubmitApplication(app: JobApplication, newId: string, isoNow: string)
    : (r: Result<ApplyResponse, HttpError>)
    ensures r.Failure? ==> r.error.statusCode == 400
    ensures r == Failure(HttpError(400, MissingFieldsMessage)) <==> !HasRequiredFields(app)
    ensures r == Failure(HttpError(400, InvalidEmailMessage)) <==>
      HasRequiredFields(app) && !EmailPatternMatches(app.email.value)
    ensures r.Success? <==> HasRequiredFields(app) && EmailPatternMatches(app.email.value)
    ensures r.Success? ==>
      r.value == ApplyResponse(true, SuccessMessage, SavedApplication(app, newId, isoNow))
  {
    if !HasRequiredFields(app) then
      Failure(HttpError(400, MissingFieldsMessage))
    else if !EmailPatternMatches(app.email.value) then
      Failure(HttpError(400, InvalidEmailMessage))
    else
      Success(ApplyResponse(true, SuccessMessage, SavedApplication(app, newId, isoNow)))
  }

  /** The required-field check runs first: an empty or missing email is
      reported as a missing field, never as an invalid email. */
  lemma MissingEmailIsMissingField(app: JobApplication, newId: string, isoNow: string)
    requires !Given(app.email)
    ensures SubmitApplication(app, newId, isoNow) == Failure(HttpError(400, MissingFieldsMessage))
  {
  }

  /** An accepted application is saved as pending whatever status it carried,
      and keeps every field the applicant sent apart from the three the server
      fills in. */
  lemma AcceptedIsPending(app: JobApplication, newId: string, isoNow: string)
    requires SubmitApplication(app, newId, isoNow).Success?
    ensures SubmitApplication(app, newId, isoNow).value.application.status == Some(Pending)
    ensures SubmitApplication(app, newId, isoNow).value.application.(id := app.id, appliedDate := app.appliedDate, status := app.status) == app
  {
  }
}
