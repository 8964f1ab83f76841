/**
 * The intake form (frontend/src/pages/InputForm.js): it collects name, company, role and a
 * résumé, posts them as a multipart form, and then polls the question status until the
 * backend reports the questions generated.
 */
module InputForm {
  import opened Wrappers
  import Backend
  import Client
  import App

  /** The signed-in user as the session gives it. */
  datatype SessionUser = SessionUser(id: string, fullName: Option<string>, primaryEmail: Option<string>)

  /** The form's fields, in the order their keys were created. */
  datatype FormData = FormData(userId: string, name: string, company: string, role: string)

  /** The text inputs; each one's `name` attribute names the field it edits. */
  datatype TextField = NameField | CompanyField | RoleField

  datatype File = File(name: string)

  /**
   * The page's state. `chosen` is what the file input currently holds, `resume` the file kept
   * in state; `polling` is true while a status check is pending or scheduled.
   */
  datatype FormState = FormState(
    data: FormData, resume: Option<File>, chosen: Option<File>,
    loading: bool, error: string, success: bool, polling: bool)

  const Initial := FormState(FormData("", "", "", ""), None, None, false, "", false, false)

  const SubmitErrorMessage := "An error occurred while submitting the form. Please try again."
  const PollErrorMessage := "Failed to check question status. Please try again."

  /** The effect that copies the user's id and full name into the form. */
  function Prefill(s: FormState, user: Option<SessionUser>): (t: FormState)
    ensures user.None? ==> t == s
    ensures user.Some? ==>
              && t.data == s.data.(userId := user.value.id, name := user.value.fullName.GetOr(""))
              && t.(data := s.data) == s
  {
    if user.None? then s
    else s.(data := s.data.(userId := user.value.id, name := user.value.fullName.GetOr("")))
  }

  /** handleInputChange: the edited field takes the input's value, and nothing else changes. */
  function InputChange(s: FormState, field: TextField, value: string): (t: FormState)
    ensures field == NameField ==> t.data == s.data.(name := value)
    ensures field == CompanyField ==> t.data == s.data.(company := value)
    ensures field == RoleField ==> t.data == s.data.(role := value)
    ensures t.(data := s.data) == s && t.data.userId == s.data.userId
  {
    match field
    case NameField => s.(data := s.data.(name := value))
    case CompanyField => s.(data := s.data.(company := value))
    case RoleField => s.(data := s.data.(role := value))
  }

  /**
   * handleFileChange: the input holds the new selection; the state keeps a chosen file and
   * ignores an emptied selection.
   */
  function FileChange(s: FormState, file: Option<File>): (t: FormState)
    ensures t.chosen == file
    ensures t.resume == if file.Some? then file else s.resume
    ensures t.(chosen := s.chosen, resume := s.resume) == s
  {
    s.(chosen := file, resume := if file.Some? then file else s.resume)
  }

  /** Whenever the file input holds a file, the state holds the same one. */
  predicate FileInv(s: FormState) {
    s.chosen.Some? ==> s.resume == s.chosen
  }

  lemma FileInvPreserved(s: FormState, user: Option<SessionUser>, field: TextField, value: string, file: Option<File>)
    requires FileInv(s)
    ensures FileInv(Prefill(s, user)) && FileInv(InputChange(s, field, value)) && FileInv(FileChange(s, file))
  {
  }

  /** The browser submits only when every `required` input is filled: three text fields and the file input. */
  predicate Validates(s: FormState) {
    s.data.name != "" && s.data.company != "" && s.data.role != "" && s.chosen.Some?
  }

  // ---------------------------------------------------------------------------------------
  // The multipart payload

  datatype Part = FieldPart(key: string, value: string) | FilePart(key: string, file: File)

  /** The form's entries in key order. */
  function Entries(d: FormData): seq<(string, string)> {
    [("userId", d.userId), ("name", d.name), ("company", d.company), ("role", d.role)]
  }

  function FieldParts(entries: seq<(string, string)>): (parts: seq<Part>)
    ensures |parts| == |entries|
    ensures forall i :: 0 <= i < |entries| ==> parts[i] == FieldPart(entries[i].0, entries[i].1)
  {
    if entries == [] then [] else FieldParts(entries[..|entries| - 1]) + [FieldPart(entries[|entries| - 1].0, entries[|entries| - 1].1)]
  }

  /** The parts in the order handleSubmit appends them. */
  function Payload(d: FormData, email: Option<string>, resume: Option<File>): seq<Part> {
    FieldParts(Entries(d)) + [FieldPart("email", App.EmailParam(email))]
    + (if resume.Some? then [FilePart("resume", resume.value)] else [])
  }

  /** Builds the payload as handleSubmit does: one append per form key, then the email, then the file. */
  method BuildPayload(d: FormData, email: Option<string>, resume: Option<File>) returns (parts: seq<Part>)
    ensures parts == Payload(d, email, resume)
  {
    var entries := Entries(d);
    parts := [];
    var i := 0;
    while i < |entries|
      invariant 0 <= i <= |entries|
      invariant parts == FieldParts(entries[..i])
    {
      assert entries[..i + 1][..i] == entries[..i];
      parts := parts + [FieldPart(entries[i].0, entries[i].1)];
      i := i + 1;
    }
    assert entries[..i] == entries;
    parts := parts + [FieldPart("email", App.EmailParam(email))];
    if resume.Some? {
      parts := parts + [FilePart("resume", resume.value)];
    }
  }

  /** request.form.get: the value of the first field part with the key. */
  function FormGet(parts: seq<Part>, key: string): Option<string> {
    if parts == [] then None
    else if parts[0].FieldPart? && parts[0].key == key then Some(parts[0].value)
    else FormGet(parts[1..], key)
  }

  /** request.files.get: the file of the first file part with the key, as the backend sees it. */
  function FileGet(parts: seq<Part>, key: string): Option<Backend.Upload> {
    if parts == [] then None
    else if parts[0].FilePart? && parts[0].key == key then Some(Backend.Upload(parts[0].file.name))
    else FileGet(parts[1..], key)
  }

  /** The request user_input reads from a payload. */
  function RequestOf(parts: seq<Part>): Backend.IntakeRequest {
    Backend.IntakeRequest(
      FormGet(parts, "userId"), FormGet(parts, "name"), FormGet(parts, "email"),
      FormGet(parts, "company"), FormGet(parts, "role"), FileGet(parts, "resume"))
  }

  /** Parts before the first one with the key do not matter to the lookups. */
  lemma {:induction false} SkipParts(parts: seq<Part>, key: string, k: nat)
    requires k <= |parts|
    requires forall i :: 0 <= i < k ==> parts[i].key != key
    ensures FormGet(parts, key) == FormGet(parts[k..], key)
    ensures FileGet(parts, key) == FileGet(parts[k..], key)
  {
    if k > 0 {
      SkipParts(parts[1..], key, k - 1);
      assert parts[1..][k - 1..] == parts[k..];
    }
  }

  /** The backend reads back exactly what the form sent: each field, the email and the file's name. */
  lemma PayloadRoundTrip(d: FormData, email: Option<string>, resume: Option<File>)
    ensures RequestOf(Payload(d, email, resume)) ==
              Backend.IntakeRequest(
                Some(d.userId), Some(d.name), Some(App.EmailParam(email)), Some(d.company), Some(d.role),
                if resume.Some? then Some(Backend.Upload(resume.value.name)) else None)
  {
    var p := Payload(d, email, resume);
    var tail := if resume.Some? then [FilePart("resume", resume.value)] else [];
    assert p == [FieldPart("userId", d.userId), FieldPart("name", d.name), FieldPart("company", d.company),
                 FieldPart("role", d.role), FieldPart("email", App.EmailParam(email))] + tail;
    SkipParts(p, "name", 1);
    SkipParts(p, "company", 2);
    SkipParts(p, "role", 3);
    SkipParts(p, "email", 4);
    SkipParts(p, "resume", 5);
    assert p[5..] == tail;
  }

  /** A form the browser lets through, from a user with an id, passes the backend's field check. */
  lemma ValidatedFormHasAllFields(s: FormState, email: Option<string>)
    requires Validates(s) && s.data.userId != "" && App.EmailParam(email) != ""
    ensures Backend.AllFieldsGiven(RequestOf(Payload(s.data, email, s.resume)))
  {
    PayloadRoundTrip(s.data, email, s.resume);
  }

  // ---------------------------------------------------------------------------------------
  // handleSubmit and pollQuestionStatus

  /** How the awaited submit call ends. */
  datatype SubmitOutcome = Submitted | SubmitThrew

  /**
   * handleSubmit, from the submit event to the first poll (or the error). While loading, the
   * spinner replaces the form, so the file input is unmounted; a form rendered again after an
   * error has an empty file input, while the résumé kept in state stays.
   */
  function Submit(s: FormState, outcome: SubmitOutcome): (t: FormState)
    requires !s.loading && !s.polling
    ensures !Validates(s) ==> t == s
    ensures Validates(s) && outcome.Submitted? ==> t == s.(error := "", loading := true, polling := true, chosen := None)
    ensures Validates(s) && outcome.SubmitThrew? ==> t == s.(error := SubmitErrorMessage, chosen := None)
  {
    if !Validates(s) then s
    else
      var started := s.(error := "", loading := true, chosen := None);
      match outcome
      case Submitted => started.(polling := true)
      case SubmitThrew => started.(error := SubmitErrorMessage, loading := false)
  }

  /** The status call as the poller sees it: `success` and `questionsGenerated` (None when absent), or a thrown error. */
  datatype StatusReply = StatusReply(success: bool, questionsGenerated: Option<int>) | StatusThrew

  /**
   * One pollQuestionStatus round: done, failed, or another round scheduled with nothing changed.
   * The form is not on screen while polling, so a form rendered after a failed poll has an
   * empty file input.
   */
  function Poll(s: FormState, reply: StatusReply): (t: FormState)
    requires s.polling
    ensures reply.StatusReply? && reply.success && reply.questionsGenerated == Some(1) ==>
              t == s.(loading := false, success := true, polling := false)
    ensures reply.StatusThrew? ==> t == s.(error := PollErrorMessage, loading := false, polling := false, chosen := None)
    ensures reply.StatusReply? && !(reply.success && reply.questionsGenerated == Some(1)) ==> t == s
  {
    match reply
    case StatusThrew => s.(error := PollErrorMessage, loading := false, polling := false, chosen := None)
    case StatusReply(success, generated) =>
      if success && generated == Some(1) then s.(loading := false, success := true, polling := false)
      else s
  }

  datatype View = Processing | Done | Form(error: string)

  /** What the page renders: the spinner while loading, then the success card, then the form. */
  function Screen(s: FormState): View {
    if s.loading then Processing else if s.success then Done else Form(s.error)
  }

  /** The form stays on the spinner exactly while a poll is pending, once it has been submitted. */
  predicate PollInv(s: FormState) {
    s.polling <==> s.loading
  }

  lemma PollInvPreserved(s: FormState, outcome: SubmitOutcome, reply: StatusReply)
    requires PollInv(s)
    ensures !s.loading ==> PollInv(Submit(s, outcome))
    ensures s.polling ==> PollInv(Poll(s, reply))
    ensures s.polling ==> Screen(Poll(s, reply)) == Processing || !Poll(s, reply).polling
  {
  }

  /**
   * After a failed submit or a failed poll the form is back, but the browser blocks the next
   * submit until a file is chosen again, even though the label still names the kept résumé.
   */
  lemma RetryNeedsFileAgain(s: FormState, p: FormState, reply: StatusReply, f: File)
    requires !s.loading && !s.polling && Validates(s)
    requires p.polling && PollInv(p) && reply.StatusThrew?
    ensures var t := Submit(s, SubmitThrew);
            !Validates(t) && t.resume == s.resume && Validates(FileChange(t, Some(f)))
    ensures var t := Poll(p, reply);
            && !Validates(t) && t.resume == p.resume
            && (Validates(FileChange(t, Some(f))) <==> p.data.name != "" && p.data.company != "" && p.data.role != "")
  {
  }

  // ---------------------------------------------------------------------------------------
  // Against the backend

  function SubmitOutcomeOf(r: Backend.Response): SubmitOutcome {
    if Client.Ok(r) then Submitted else SubmitThrew
  }

  function StatusReplyOf(reply: Option<Backend.Body>): StatusReply {
    match reply
    case None => StatusThrew
    case Some(body) =>
      if body.StatusBody? then StatusReply(true, Some(body.questionsGenerated))
      else StatusReply(Client.SuccessField(body), None)
  }

  /**
   * The whole intake against the backend: the form reaches the poller exactly when user_input
   * accepts it. After the background generation step, one poll shows the success card exactly
   * when generation stored all three question sets; otherwise the page keeps polling.
   */
  lemma IntakeFlow(db: Backend.Db, s: FormState, email: Option<string>, extraction: Result<string, string>,
                   generated: Option<Backend.GeneratedSets>, analysis: Option<Backend.AnalysisResult>)
    requires Validates(s) && FileInv(s) && !s.loading && !s.polling && !s.success
    requires s.data.userId != "" && App.EmailParam(email) != ""
    ensures var out := Backend.UserInput(db, RequestOf(Payload(s.data, email, s.resume)), extraction);
            var t := Submit(s, SubmitOutcomeOf(out.response));
            && (t.polling <==> out.response.code == 202)
            && (!t.polling ==> t.error == SubmitErrorMessage && Screen(t) == Form(SubmitErrorMessage))
            && (t.polling ==>
                  var id := s.data.userId;
                  var after := Backend.ProcessQuestions(out.db, id, generated, analysis);
                  var done := Poll(t, StatusReplyOf(Client.Receive(Backend.QuestionStatus(after, Some(id)))));
                  && (done.success <==> generated.Some? && generated.value.resume != []
                                        && generated.value.role != [] && generated.value.company != [])
                  && (done.success ==> Screen(done) == Done)
                  && (!done.success ==> done == t))
  {
    PayloadRoundTrip(s.data, email, s.resume);
    var req := RequestOf(Payload(s.data, email, s.resume));
    assert Backend.AllFieldsGiven(req);
  }

  /** Before the background step finishes, the status is pending and a poll changes nothing. */
  lemma PendingKeepsPolling(db: Backend.Db, s: FormState, id: string)
    requires s.polling && id != "" && id in db.users && !db.users[id].questionsGenerated
    ensures Poll(s, StatusReplyOf(Client.Receive(Backend.QuestionStatus(db, Some(id))))) == s
  {
  }
}

/** The form's state as a component object whose handlers update it in place. */
module InputFormComponent {
  import opened Wrappers
  import opened InputForm

  class IntakePage {
    var formData: FormData
    var resume: Option<File>
    var chosen: Option<File>
    var loading: bool
    var error: string
    var success: bool
    var polling: bool

    function State(): FormState
      reads this
    {
      FormState(formData, resume, chosen, loading, error, success, polling)
    }

    constructor ()
      ensures State() == Initial
    {
      formData := FormData("", "", "", "");
      resume, chosen := None, None;
      loading, error, success, polling := false, "", false, false;
    }

    method PrefillFromUser(user: Option<SessionUser>)
      modifies this
      ensures State() == Prefill(old(State()), user)
    {
      if user.Some? {
        formData := formData.(userId := user.value.id, name := user.value.fullName.GetOr(""));
      }
    }

    method HandleInputChange(field: TextField, value: string)
      modifies this
      ensures State() == InputChange(old(State()), field, value)
    {
      match field {
        case NameField => formData := formData.(name := value);
        case CompanyField => formData := formData.(company := value);
        case RoleField => formData := formData.(role := value);
      }
    }

    method HandleFileChange(file: Option<File>)
      modifies this
      ensures State() == FileChange(old(State()), file)
    {
      chosen := file;
      if file.Some? {
        resume := file;
      }
    }

    /** handleSubmit, with the awaited call's outcome as input; returns the payload it sent (None when the browser blocked it). */
    method HandleSubmit(email: Option<string>, outcome: SubmitOutcome) returns (sent: Option<seq<Part>>)
      requires !loading && !polling
      modifies this
      ensures State() == Submit(old(State()), outcome)
      ensures sent.Some? <==> Validates(old(State()))
      ensures sent.Some? ==> sent.value == Payload(old(formData), email, old(resume))
    {
      if !Validates(State()) {
        return None;
      }
      error := "";
      loading := true;
      chosen := None;
      var parts := BuildPayload(formData, email, resume);
      sent := Some(parts);
      match outcome {
        case Submitted =>
          polling := true;
        case SubmitThrew =>
          error := SubmitErrorMessage;
          loading := false;
      }
    }

    method PollQuestionStatus(reply: StatusReply)
      requires polling
      modifies this
      ensures State() == Poll(old(State()), reply)
    {
      match reply {
        case StatusThrew =>
          error := PollErrorMessage;
          loading := false;
          polling := false;
          chosen := None;
        case StatusReply(ok, generated) =>
          if ok && generated == Some(1) {
            loading := false;
            success := true;
            polling := false;
          }
      }
    }
  }
}
