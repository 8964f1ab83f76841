/**
 * The request-decision logic of the Flask backend (backend/app.py) over an in-memory store.
 *
 * The database is the datatype Db: users keyed by id, and question, analysis and quiz rows in
 * insertion order (for analyses, insertion order stands for timestamp order). Each endpoint is a
 * function from the store and the request to an Outcome: the new store, the JSON reply with its
 * HTTP status, and the background job the handler starts (if any). Background threads are
 * separate explicit steps on the store. Everything the handlers obtain from language models, web
 * searches or file parsers is a parameter: an oracle value chosen by the caller.
 *
 * The class Database at the end holds the same state in fields and performs each handler as a
 * method, proved to change the fields exactly as the corresponding function says.
 */
module Backend {
  import opened Wrappers
  import opened Text

  // ---------------------------------------------------------------------------------------
  // Files

  const AllowedExtensions: set<string> := {"pdf", "doc", "docx"}
  const UploadFolder := "uploads/"

  /** allowed_file: the text after the last '.', lower-cased, is an allowed extension. */
  function AllowedFile(filename: string): (ok: bool)
    ensures ok <==> exists i :: LastAt(filename, '.', i) && Lower(filename[i + 1..]) in AllowedExtensions
  {
    LastIndexOfExact(filename, '.');
    match LastIndexOf(filename, '.')
    case None => false
    case Some(i) => Lower(filename[i + 1..]) in AllowedExtensions
  }

  datatype Extractor = PdfExtractor | DocxExtractor

  /** file_path.split('.')[-1]: the text after the last '.', or the whole path without one. */
  function FinalSegment(path: string): string {
    match LastIndexOf(path, '.')
    case None => path
    case Some(i) => path[i + 1..]
  }

  /** extract_text_from_file: which extractor the path is sent to, or the ValueError raised. */
  function ExtractorFor(path: string): (r: Result<Extractor, string>)
    ensures r == Success(PdfExtractor) <==> Lower(FinalSegment(path)) == "pdf"
    ensures r == Success(DocxExtractor) <==> Lower(FinalSegment(path)) in {"doc", "docx"}
    ensures r.Failure? <==> Lower(FinalSegment(path)) !in AllowedExtensions
    ensures r.Failure? ==> r.error == "Unsupported file type: " + Lower(FinalSegment(path))
  {
    var ext := Lower(FinalSegment(path));
    if ext == "pdf" then Success(PdfExtractor)
    else if ext in ["doc", "docx"] then Success(DocxExtractor)
    else Failure("Unsupported file type: " + ext)
  }

  /** The path user_input saves an upload to (secure_filename is not modelled). */
  function UploadPath(userId: string, filename: string): string {
    UploadFolder + userId + "_" + filename
  }

  /**
   * A file that passes allowed_file is never refused by the extractor dispatch once saved
   * under its upload path: both look at the same extension.
   */
  lemma AllowedUploadHasExtractor(userId: string, filename: string)
    requires AllowedFile(filename)
    ensures ExtractorFor(UploadPath(userId, filename)).Success?
    ensures ExtractorFor(UploadPath(userId, filename)) == Success(PdfExtractor)
            <==> Lower(FinalSegment(filename)) == "pdf"
  {
    var i :| LastAt(filename, '.', i) && Lower(filename[i + 1..]) in AllowedExtensions;
    LastIndexOfAt(filename, '.', i);
    UploadKeepsFinalSegment(userId, filename, i);
  }

  /** Saving under the upload path keeps the text after the last '.' of a name that has one. */
  lemma UploadKeepsFinalSegment(userId: string, filename: string, i: nat)
    requires LastIndexOf(filename, '.') == Some(i)
    ensures FinalSegment(UploadPath(userId, filename)) == FinalSegment(filename) == filename[i + 1..]
  {
    var prefix := UploadFolder + userId + "_";
    LastIndexOfAppend(prefix, filename, '.', i);
    assert UploadPath(userId, filename) == prefix + filename;
    assert (prefix + filename)[|prefix| + i + 1..] == filename[i + 1..];
  }

  /** For a name with a '.', allowed_file and the extractor dispatch accept the same names. */
  lemma AllowedFileAgreesWithDispatch(filename: string)
    requires '.' in filename
    ensures AllowedFile(filename) <==> ExtractorFor(filename).Success?
  {
    LastIndexOfExact(filename, '.');
    var k := LastIndexOf(filename, '.');
    assert k.Some? by {
      var i :| 0 <= i < |filename| && filename[i] == '.';
    }
    assert LastAt(filename, '.', k.value);
  }

  // ---------------------------------------------------------------------------------------
  // Search-result links (generate_questions, lines 171-182)

  const BlockedLinkPrefix := "https://www.geeksforgeeks.org/"

  /** A link the question generator keeps: present, non-empty and not on the blocked site. */
  predicate UsableLink(link: Option<string>) {
    Truthy(link) && !StartsWith(link.value, BlockedLinkPrefix)
  }

  datatype KnowledgeGraph = KnowledgeGraph(website: Option<string>)

  /** The parts of a search response that are read: each organic result's link, and the graph. */
  datatype SearchResponse = SearchResponse(organic: seq<Option<string>>, knowledgeGraph: Option<KnowledgeGraph>)

  /** The usable organic links, in their order. */
  function KeptLinks(links: seq<Option<string>>): (kept: seq<string>)
    ensures |kept| <= |links|
    ensures forall k :: 0 <= k < |kept| ==> kept[k] != "" && !StartsWith(kept[k], BlockedLinkPrefix)
  {
    if links == [] then []
    else KeptLinks(links[..|links| - 1])
         + (if UsableLink(links[|links| - 1]) then [links[|links| - 1].value] else [])
  }

  /** The knowledge-graph website, kept under the same rule. */
  function GraphLink(graph: Option<KnowledgeGraph>): seq<string> {
    if graph.Some? && UsableLink(graph.value.website) then [graph.value.website.value] else []
  }

  /** Filtering distributes over concatenation, so the kept links keep the search order. */
  lemma {:induction false} KeptLinksAppend(a: seq<Option<string>>, b: seq<Option<string>>)
    ensures KeptLinks(a + b) == KeptLinks(a) + KeptLinks(b)
  {
    if b != [] {
      assert (a + b)[..|a + b| - 1] == a + b[..|b| - 1];
      KeptLinksAppend(a, b[..|b| - 1]);
    } else {
      assert a + b == a;
    }
  }

  /** Every kept link comes from the results, and every usable result is kept. */
  lemma {:induction false} KeptLinksExact(links: seq<Option<string>>, l: string)
    ensures l in KeptLinks(links) <==> Some(l) in links && UsableLink(Some(l))
  {
    if links != [] {
      var init := links[..|links| - 1];
      KeptLinksExact(init, l);
      assert links == init + [links[|links| - 1]];
    }
  }

  /** The link-collection loops of generate_questions. */
  method CollectLinks(response: SearchResponse) returns (links: seq<string>)
    ensures links == KeptLinks(response.organic) + GraphLink(response.knowledgeGraph)
  {
    links := [];
    var i := 0;
    while i < |response.organic|
      invariant 0 <= i <= |response.organic|
      invariant links == KeptLinks(response.organic[..i])
    {
      var link := response.organic[i];
      if Truthy(link) && !StartsWith(link.value, BlockedLinkPrefix) {
        links := links + [link.value];
      }
      assert response.organic[..i + 1][..i] == response.organic[..i];
      i := i + 1;
    }
    assert response.organic[..i] == response.organic;
    if response.knowledgeGraph.Some? {
      var website := response.knowledgeGraph.value.website;
      if Truthy(website) && !StartsWith(website.value, BlockedLinkPrefix) {
        links := links + [website.value];
      }
    }
  }

  // ---------------------------------------------------------------------------------------
  // The store

  datatype User = User(
    id: string, email: string, name: string, company: Option<string>, role: Option<string>,
    resumeText: Option<string>, isPro: bool, questionsGenerated: bool)

  datatype Question = Question(id: nat, userId: string, questionType: string, text: string, answer: Option<string>)

  datatype AnalysisStatus = Pending | Completed | Failed

  /** A ResumeAnalysis row; the score is the model's integer score (the Float column is not modelled). */
  datatype Analysis = Analysis(
    userId: string, score: Option<int>, improvements: seq<string>, strongPoints: seq<string>,
    status: AnalysisStatus)

  datatype QuizItem = QuizItem(id: nat, userId: string, question: string, options: map<string, string>, correctAnswer: string)

  /**
   * The database, plus `inProgress`: the users whose loaded User object carries the undeclared
   * attribute generation_in_progress in the current request's session.
   */
  datatype Db = Db(
    users: map<string, User>, questions: seq<Question>, analyses: seq<Analysis>,
    quizzes: seq<QuizItem>, nextQuestionId: nat, nextQuizId: nat, inProgress: set<string>)

  /** Primary keys: question and quiz ids increase with insertion and stay below the next id. */
  ghost predicate ValidDb(db: Db) {
    && (forall i :: 0 <= i < |db.questions| ==> db.questions[i].id < db.nextQuestionId)
    && (forall i, j :: 0 <= i < j < |db.questions| ==> db.questions[i].id < db.questions[j].id)
    && (forall i :: 0 <= i < |db.quizzes| ==> db.quizzes[i].id < db.nextQuizId)
    && (forall i, j :: 0 <= i < j < |db.quizzes| ==> db.quizzes[i].id < db.quizzes[j].id)
  }

  const EmptyDb := Db(map[], [], [], [], 1, 1, {})

  // ---------------------------------------------------------------------------------------
  // Replies

  datatype AnalysisView = AnalysisView(score: Option<int>, improvements: seq<string>, strengths: seq<string>)
  datatype QuestionView = QuestionView(id: nat, question: string, answer: Option<string>)

  datatype Body =
    | ErrorBody(error: string)                      // {'success': False, 'error': ...}
    | MessageBody(success: bool, message: string)   // the replies of user_input
    | StatusBody(questionsGenerated: int, status: string)
    | ProfileBody(isNewUser: bool, user: User)
    | QuestionsBody(questions: seq<QuestionView>)
    | AnswerBody(answer: string)
    | AnalysisPendingBody                           // {'success': True, 'status': 'pending'}
    | AnalysisBody(analysis: AnalysisView)          // status 'completed'
    | QuizListBody(items: seq<QuizItem>)            // status 'completed'
    | QuizNoticeBody(status: string, message: string)
    | InternalError                                 // an uncaught exception: Flask answers 500

  datatype Response = Response(code: int, body: Body)

  /** The work a handler hands to a background thread. */
  datatype Job = NoJob | ProcessQuestionsJob(userId: string) | ResumeAnalysisJob(userId: string) | QuizJob(userId: string)

  datatype Outcome = Outcome(db: Db, response: Response, job: Job)

  // ---------------------------------------------------------------------------------------
  // user_input (lines 385-442)

  datatype Upload = Upload(filename: string)

  /** The multipart form; a field is None when absent. `resume` is None when no file part is sent. */
  datatype IntakeRequest = IntakeRequest(
    userId: Option<string>, name: Option<string>, email: Option<string>,
    company: Option<string>, role: Option<string>, resume: Option<Upload>)

  const MissingFieldsMessage := "Missing required fields"
  const InvalidFileMessage := "Invalid file format or no file uploaded"
  const DuplicateEmailMessage := "UNIQUE constraint failed: user.email"
  const IntakeAcceptedMessage := "Input received and question generation started"

  predicate AllFieldsGiven(req: IntakeRequest) {
    Truthy(req.userId) && Truthy(req.name) && Truthy(req.email) && Truthy(req.company) && Truthy(req.role)
  }

  /** A FileStorage is truthy when it has a file name. */
  predicate UploadAccepted(upload: Upload) {
    upload.filename != "" && AllowedFile(upload.filename)
  }

  /** The email column is unique: another user already holds this address. */
  predicate EmailTaken(users: map<string, User>, id: string, email: string) {
    exists other :: other in users && other != id && users[other].email == email
  }

  /** The user record after the upsert of lines 402-412, before the résumé is read. */
  function UpsertUser(users: map<string, User>, id: string, name: string, email: string, company: string, role: string): (u: User)
    ensures u.name == name && u.email == email && u.company == Some(company) && u.role == Some(role)
    ensures !u.questionsGenerated
    ensures id in users ==> u.(name := users[id].name, email := users[id].email, company := users[id].company,
                               role := users[id].role, questionsGenerated := users[id].questionsGenerated) == users[id]
    ensures id !in users ==> u.id == id && u.resumeText.None? && !u.isPro
  {
    var base := if id in users then users[id].(name := name, email := email)
                else User(id, email, name, None, None, None, false, false);
    base.(company := Some(company), role := Some(role), questionsGenerated := false)
  }

  function Rejected(message: string): Response {
    Response(400, MessageBody(false, message))
  }

  /**
   * user_input. `extraction` is what the text extractor returns for the saved file, or the
   * message of the exception it raises. Every failure rolls the session back.
   */
  function UserInput(db: Db, req: IntakeRequest, extraction: Result<string, string>): (out: Outcome)
    ensures !AllFieldsGiven(req) ==> out == Outcome(db, Rejected(MissingFieldsMessage), NoJob)
    ensures out.response.code == 202 || out.response.code == 400
    ensures out.response.code == 400 ==> out.db == db && out.job == NoJob
    ensures out.response.code == 202 <==>
              && AllFieldsGiven(req)
              && (req.resume.Some? ==> UploadAccepted(req.resume.value) && extraction.Success?)
              && !EmailTaken(db.users, req.userId.value, req.email.value)
    ensures out.response.code == 202 ==>
              var id := req.userId.value;
              && out.job == ProcessQuestionsJob(id)
              && id in out.db.users
              && out.db.users[id].name == req.name.value
              && out.db.users[id].email == req.email.value
              && out.db.users[id].company == req.company
              && out.db.users[id].role == req.role
              && !out.db.users[id].questionsGenerated
              && out.db.users[id].resumeText ==
                   (if req.resume.Some? then Some(extraction.value)
                    else if id in db.users then db.users[id].resumeText else None)
              && (forall other :: other in db.users && other != id ==>
                    other in out.db.users && out.db.users[other] == db.users[other])
              && out.db.users.Keys == db.users.Keys + {id}
              && out.db.(users := db.users) == db
  {
    if !AllFieldsGiven(req) then Outcome(db, Rejected(MissingFieldsMessage), NoJob)
    else
      var id := req.userId.value;
      var user := UpsertUser(db.users, id, req.name.value, req.email.value, req.company.value, req.role.value);
      if req.resume.Some? && !UploadAccepted(req.resume.value) then
        Outcome(db, Rejected(InvalidFileMessage), NoJob)
      else if req.resume.Some? && extraction.Failure? then
        Outcome(db, Rejected(extraction.error), NoJob)
      else if EmailTaken(db.users, id, user.email) then
        Outcome(db, Rejected(DuplicateEmailMessage), NoJob)
      else
        var user' := if req.resume.Some? then user.(resumeText := Some(extraction.value)) else user;
        Outcome(db.(users := db.users[id := user']), Response(202, MessageBody(true, IntakeAcceptedMessage)),
                ProcessQuestionsJob(id))
  }

  // ---------------------------------------------------------------------------------------
  // process_questions and save_questions_to_db (lines 247-252, 351-383)

  /** The three question lists the generator returns for one user, in the order they are saved. */
  datatype GeneratedSets = GeneratedSets(resume: seq<string>, role: seq<string>, company: seq<string>)

  /** What the résumé analyser returns when it succeeds. */
  datatype AnalysisResult = AnalysisResult(score: Option<int>, improvements: seq<string>, strongPoints: seq<string>)

  /** The rows added for one question type, with ids from `firstId` on. */
  function TypedRows(userId: string, questionType: string, texts: seq<string>, firstId: nat): (rows: seq<Question>)
    ensures |rows| == |texts|
  {
    if texts == [] then []
    else TypedRows(userId, questionType, texts[..|texts| - 1], firstId)
         + [Question(firstId + |texts| - 1, userId, questionType, texts[|texts| - 1], None)]
  }

  /** Row `k` is the unanswered `k`-th question of the type, with id `firstId + k`. */
  lemma {:induction false} TypedRowsAt(userId: string, questionType: string, texts: seq<string>, firstId: nat, k: nat)
    requires k < |texts|
    ensures TypedRows(userId, questionType, texts, firstId)[k] == Question(firstId + k, userId, questionType, texts[k], None)
    decreases |texts|
  {
    var init := texts[..|texts| - 1];
    if k < |texts| - 1 {
      TypedRowsAt(userId, questionType, init, firstId, k);
      assert init[k] == texts[k];
    }
  }

  /** The (type, questions) groups save_questions_to_db walks through, in its order. */
  function Groups(sets: GeneratedSets): seq<(string, seq<string>)> {
    [("resume", sets.resume), ("role", sets.role), ("company", sets.company)]
  }

  /** The rows for a list of groups, numbered consecutively from `firstId`. */
  function GroupRows(userId: string, groups: seq<(string, seq<string>)>, firstId: nat): seq<Question> {
    if groups == [] then []
    else
      var init := GroupRows(userId, groups[..|groups| - 1], firstId);
      var last := groups[|groups| - 1];
      init + TypedRows(userId, last.0, last.1, firstId + |init|)
  }

  lemma GroupRowsSnoc(userId: string, groups: seq<(string, seq<string>)>, g: (string, seq<string>), firstId: nat)
    ensures GroupRows(userId, groups + [g], firstId)
            == GroupRows(userId, groups, firstId) + TypedRows(userId, g.0, g.1, firstId + |GroupRows(userId, groups, firstId)|)
  {
    var gs := groups + [g];
    assert gs[..|gs| - 1] == groups;
    assert gs[|gs| - 1] == g;
  }

  /** The rows save_questions_to_db adds: résumé, then role, then company questions. */
  function SavedRows(userId: string, sets: GeneratedSets, firstId: nat): seq<Question> {
    GroupRows(userId, Groups(sets), firstId)
  }

  /** Every question of every group is saved once: the rows have exactly the groups' sizes. */
  function GroupsSize(groups: seq<(string, seq<string>)>): nat {
    if groups == [] then 0 else GroupsSize(groups[..|groups| - 1]) + |groups[|groups| - 1].1|
  }

  /** The rows are numbered consecutively from `firstId`, belong to the user and are unanswered. */
  lemma {:induction false} GroupRowsNumbered(userId: string, groups: seq<(string, seq<string>)>, firstId: nat)
    ensures var rows := GroupRows(userId, groups, firstId);
            && |rows| == GroupsSize(groups)
            && forall k :: 0 <= k < |rows| ==> rows[k].id == firstId + k && rows[k].userId == userId && rows[k].answer.None?
  {
    if groups != [] {
      var init := GroupRows(userId, groups[..|groups| - 1], firstId);
      GroupRowsNumbered(userId, groups[..|groups| - 1], firstId);
      var last := groups[|groups| - 1];
      var tail := TypedRows(userId, last.0, last.1, firstId + |init|);
      var rows := init + tail;
      forall k | |init| <= k < |rows|
        ensures rows[k].id == firstId + k && rows[k].userId == userId && rows[k].answer.None?
      {
        assert rows[k] == tail[k - |init|];
        TypedRowsAt(userId, last.0, last.1, firstId + |init|, k - |init|);
      }
    }
  }

  /** save_questions_to_db stores as many rows as the three sets hold questions. */
  lemma SavedRowsCount(userId: string, sets: GeneratedSets, firstId: nat)
    ensures |SavedRows(userId, sets, firstId)| == |sets.resume| + |sets.role| + |sets.company|
  {
    var a, b, c := ("resume", sets.resume), ("role", sets.role), ("company", sets.company);
    assert [a, b, c][..2] == [a, b] && [a, b][..1] == [a] && [a][..0] == [];
    assert GroupsSize([a]) == |sets.resume|;
    assert GroupsSize([a, b]) == |sets.resume| + |sets.role|;
    assert GroupsSize([a, b, c]) == |sets.resume| + |sets.role| + |sets.company|;
    GroupRowsNumbered(userId, [a, b, c], firstId);
  }

  /** save_questions_to_db stores the résumé questions, then the role ones, then the company ones. */
  lemma SavedRowsBlocks(userId: string, sets: GeneratedSets, firstId: nat)
    ensures SavedRows(userId, sets, firstId)
            == TypedRows(userId, "resume", sets.resume, firstId)
               + TypedRows(userId, "role", sets.role, firstId + |sets.resume|)
               + TypedRows(userId, "company", sets.company, firstId + |sets.resume| + |sets.role|)
  {
    var a, b, c := ("resume", sets.resume), ("role", sets.role), ("company", sets.company);
    FirstTwoGroups(userId, a, b, firstId);
    GroupRowsSnoc(userId, [a, b], c, firstId);
    assert [a, b] + [c] == [a, b, c] == Groups(sets);
  }

  lemma FirstTwoGroups(userId: string, a: (string, seq<string>), b: (string, seq<string>), firstId: nat)
    ensures GroupRows(userId, [a, b], firstId)
            == TypedRows(userId, a.0, a.1, firstId) + TypedRows(userId, b.0, b.1, firstId + |a.1|)
  {
    var one := GroupRows(userId, [a], firstId);
    assert one == TypedRows(userId, a.0, a.1, firstId) by {
      GroupRowsSnoc(userId, [], a, firstId);
      assert [] + [a] == [a];
    }
    assert |one| == |a.1|;
    GroupRowsSnoc(userId, [a], b, firstId);
    assert [a] + [b] == [a, b];
  }

  /** Appending rows numbered from the next id keeps question ids increasing and below the next id. */
  lemma AppendQuestionRows(rows: seq<Question>, next: nat, db: Db)
    requires next == db.nextQuestionId
    requires forall k :: 0 <= k < |rows| ==> rows[k].id == next + k
    ensures ValidDb(db) ==> ValidDb(db.(questions := db.questions + rows, nextQuestionId := next + |rows|))
  {
  }

  /** save_questions_to_db: the new rows are the generated questions, each unanswered. */
  function SaveQuestions(db: Db, userId: string, sets: GeneratedSets): (db': Db)
    ensures ValidDb(db) ==> ValidDb(db')
    ensures db'.questions == db.questions + SavedRows(userId, sets, db.nextQuestionId)
    ensures forall k :: |db.questions| <= k < |db'.questions| ==>
              db'.questions[k].userId == userId && db'.questions[k].answer.None?
    ensures db'.(questions := db.questions, nextQuestionId := db.nextQuestionId) == db
  {
    var rows := SavedRows(userId, sets, db.nextQuestionId);
    GroupRowsNumbered(userId, Groups(sets), db.nextQuestionId);
    AppendQuestionRows(rows, db.nextQuestionId, db);
    db.(questions := db.questions + rows, nextQuestionId := db.nextQuestionId + |rows|)
  }

  /** The analysis a background job stores when the analyser succeeds. */
  function CompletedAnalysis(userId: string, result: AnalysisResult): Analysis {
    Analysis(userId, result.score, result.improvements, result.strongPoints, Completed)
  }

  /** analyze_resume returns nothing unless the user has résumé text and a role. */
  predicate CanAnalyse(user: User) {
    Truthy(user.resumeText) && Truthy(user.role)
  }

  /**
   * The background step process_questions. `generated` is None when a generator call raises;
   * `analysis` is None when analyze_resume returns None or raises.
   */
  function ProcessQuestions(db: Db, userId: string, generated: Option<GeneratedSets>, analysis: Option<AnalysisResult>): (db': Db)
    ensures ValidDb(db) ==> ValidDb(db')
    ensures db'.users.Keys == db.users.Keys && db'.quizzes == db.quizzes
    ensures db' != db <==> userId in db.users && generated.Some? && generated.value.resume != []
                           && generated.value.role != [] && generated.value.company != []
    ensures db' != db ==> db'.users == db.users[userId := db.users[userId].(questionsGenerated := true)]
    ensures db' != db ==> db'.questions == db.questions + SavedRows(userId, generated.value, db.nextQuestionId)
    ensures db' != db ==>
              db'.analyses == db.analyses +
                (if CanAnalyse(db.users[userId]) && analysis.Some? then [CompletedAnalysis(userId, analysis.value)] else [])
  {
    if userId !in db.users || generated.None? then db
    else
      var sets := generated.value;
      if sets.resume == [] || sets.role == [] || sets.company == [] then db
      else
        var saved := SaveQuestions(db, userId, sets);
        var flagged := saved.(users := saved.users[userId := saved.users[userId].(questionsGenerated := true)]);
        assert |flagged.questions| > |db.questions|;
        if CanAnalyse(flagged.users[userId]) && analysis.Some? then
          flagged.(analyses := flagged.analyses + [CompletedAnalysis(userId, analysis.value)])
        else flagged
  }

  // ---------------------------------------------------------------------------------------
  // check_question_status (lines 445-459) and get_user_profile (lines 497-524)

  /** The 'questionsGenerated' and 'status' fields for a questions_generated flag. */
  function StatusFields(generated: bool): (body: Body)
    ensures body.StatusBody?
    ensures body.questionsGenerated == 1 <==> generated
    ensures body.questionsGenerated == 0 <==> !generated
    ensures body.status == "complete" <==> generated
    ensures body.status == "pending" <==> !generated
  {
    StatusBody(if generated then 1 else 0, if generated then "complete" else "pending")
  }

  function QuestionStatus(db: Db, userId: Option<string>): (r: Response)
    ensures !Truthy(userId) ==> r == Response(400, ErrorBody("User ID is required"))
    ensures Truthy(userId) && userId.value !in db.users ==> r == Response(404, ErrorBody("User not found"))
    ensures Truthy(userId) && userId.value in db.users ==>
              r.code == 200 && r.body == StatusFields(db.users[userId.value].questionsGenerated)
  {
    if !Truthy(userId) then Response(400, ErrorBody("User ID is required"))
    else if userId.value !in db.users then Response(404, ErrorBody("User not found"))
    else Response(200, StatusFields(db.users[userId.value].questionsGenerated))
  }

  function UserProfile(db: Db, userId: Option<string>, email: Option<string>): (r: Response)
    ensures !Truthy(userId) || !Truthy(email) ==> r == Response(400, ErrorBody("User ID and email are required."))
    ensures Truthy(userId) && Truthy(email) && userId.value !in db.users ==> r == Response(404, ErrorBody("User not found."))
    ensures r.code == 200 <==> Truthy(userId) && Truthy(email) && userId.value in db.users
    ensures r.code == 200 ==> r.body.ProfileBody? && r.body.user == db.users[userId.value]
                              && (r.body.isNewUser <==> !db.users[userId.value].questionsGenerated)
  {
    if !Truthy(userId) || !Truthy(email) then Response(400, ErrorBody("User ID and email are required."))
    else if userId.value !in db.users then Response(404, ErrorBody("User not found."))
    else
      var user := db.users[userId.value];
      Response(200, ProfileBody(!user.questionsGenerated, user))
  }

  // ---------------------------------------------------------------------------------------
  // get_questions (lines 614-640)

  const QuestionTypes: set<string> := {"resume", "company", "role"}

  /** The rows of one user and one type, in row order, as the reply lists them. */
  function Matching(questions: seq<Question>, userId: string, questionType: string): (views: seq<QuestionView>)
    ensures |views| <= |questions|
  {
    if questions == [] then []
    else
      var q := questions[|questions| - 1];
      Matching(questions[..|questions| - 1], userId, questionType)
      + (if q.userId == userId && q.questionType == questionType then [QuestionView(q.id, q.text, q.answer)] else [])
  }

  /** A row is listed exactly when it belongs to the user and has the requested type. */
  lemma {:induction false} MatchingExact(questions: seq<Question>, userId: string, questionType: string, v: QuestionView)
    ensures v in Matching(questions, userId, questionType) <==>
              exists q :: q in questions && q.userId == userId && q.questionType == questionType
                          && v == QuestionView(q.id, q.text, q.answer)
  {
    if questions != [] {
      var init := questions[..|questions| - 1];
      MatchingExact(init, userId, questionType, v);
      assert questions == init + [questions[|questions| - 1]];
    }
  }

  function GetQuestions(db: Db, questionType: string, userId: Option<string>): (r: Response)
    ensures !Truthy(userId) ==> r == Response(400, ErrorBody("User ID is required."))
    ensures Truthy(userId) && questionType !in QuestionTypes ==> r == Response(400, ErrorBody("Invalid question type."))
    ensures r.code == 200 <==> Truthy(userId) && questionType in QuestionTypes && userId.value in db.users
    ensures r.code == 200 ==> r.body == QuestionsBody(Matching(db.questions, userId.value, questionType))
  {
    if !Truthy(userId) then Response(400, ErrorBody("User ID is required."))
    else if questionType !in QuestionTypes then Response(400, ErrorBody("Invalid question type."))
    else if userId.value !in db.users then Response(404, ErrorBody("User not found."))
    else Response(200, QuestionsBody(Matching(db.questions, userId.value, questionType)))
  }

  // ---------------------------------------------------------------------------------------
  // generate_answer (lines 565-580)

  /** Question.query.get: the index of the row with this id. */
  function FindQuestion(questions: seq<Question>, id: Option<nat>): (k: Option<nat>)
    ensures k.Some? ==> k.value < |questions| && id.Some? && questions[k.value].id == id.value
    ensures k.None? ==> id.None? || forall i :: 0 <= i < |questions| ==> questions[i].id != id.value
  {
    if id.None? || questions == [] then None
    else if questions[0].id == id.value then Some(0)
    else match FindQuestion(questions[1..], id)
      case None => None
      case Some(k) => Some(k + 1)
  }

  /** Only the answer of one row changes, so every lookup finds the same row as before. */
  lemma {:induction false} FindQuestionAfterAnswer(questions: seq<Question>, id: Option<nat>, k: nat, a: Option<string>)
    requires k < |questions|
    ensures FindQuestion(questions[k := questions[k].(answer := a)], id) == FindQuestion(questions, id)
  {
    if id.Some? && |questions| > 0 && questions[0].id != id.value && k > 0 {
      assert questions[k := questions[k].(answer := a)][1..] == questions[1..][k - 1 := questions[k].(answer := a)];
      FindQuestionAfterAnswer(questions[1..], id, k - 1, a);
    }
  }

  /**
   * generate_answer. `llmAnswer` is what the language model would say, None when the call
   * raises. A stored truthy answer is returned unchanged; otherwise the new answer is stored.
   * A raising generator, like a missing owner, ends in a 500 with nothing stored.
   */
  function GenerateAnswer(db: Db, questionId: Option<nat>, llmAnswer: Option<string>): (out: Outcome)
    ensures out.job == NoJob
    ensures FindQuestion(db.questions, questionId).None? ==> out == Outcome(db, Response(404, ErrorBody("Question not found")), NoJob)
    ensures FindQuestion(db.questions, questionId).Some? ==>
              var k := FindQuestion(db.questions, questionId).value;
              var q := db.questions[k];
              if Truthy(q.answer) then out == Outcome(db, Response(200, AnswerBody(q.answer.value)), NoJob)
              else if q.userId !in db.users || llmAnswer.None? then out == Outcome(db, Response(500, InternalError), NoJob)
              else out == Outcome(db.(questions := db.questions[k := q.(answer := llmAnswer)]),
                                  Response(200, AnswerBody(llmAnswer.value)), NoJob)
    ensures ValidDb(db) ==> ValidDb(out.db)
  {
    match FindQuestion(db.questions, questionId)
    case None => Outcome(db, Response(404, ErrorBody("Question not found")), NoJob)
    case Some(k) =>
      var q := db.questions[k];
      if Truthy(q.answer) then Outcome(db, Response(200, AnswerBody(q.answer.value)), NoJob)
      else if q.userId !in db.users || llmAnswer.None? then Outcome(db, Response(500, InternalError), NoJob)
      else
        var db' := db.(questions := db.questions[k := q.(answer := llmAnswer)]);
        assert forall i :: 0 <= i < |db.questions| ==> db'.questions[i].id == db.questions[i].id;
        Outcome(db', Response(200, AnswerBody(llmAnswer.value)), NoJob)
  }

  /**
   * Answers are memoised: once a non-empty answer has been returned, every later call for the
   * same question returns it again and changes nothing, whatever the model would say now.
   */
  lemma AnswerIsMemoised(db: Db, questionId: Option<nat>, first: Option<string>, later: Option<string>)
    requires GenerateAnswer(db, questionId, first).response.body.AnswerBody?
    requires GenerateAnswer(db, questionId, first).response.body.answer != ""
    ensures var out := GenerateAnswer(db, questionId, first);
            GenerateAnswer(out.db, questionId, later) == Outcome(out.db, out.response, NoJob)
  {
    var k := FindQuestion(db.questions, questionId).value;
    FindQuestionAfterAnswer(db.questions, questionId, k, first);
  }

  // ---------------------------------------------------------------------------------------
  // get_resume_analysis and process_resume_analysis (lines 642-699)

  /** The index of the user's most recent analysis. */
  function LatestAnalysis(analyses: seq<Analysis>, userId: string): (k: Option<nat>)
    ensures k.Some? ==> k.value < |analyses| && analyses[k.value].userId == userId
    ensures k.Some? ==> forall j :: k.value < j < |analyses| ==> analyses[j].userId != userId
    ensures k.None? ==> forall j :: 0 <= j < |analyses| ==> analyses[j].userId != userId
  {
    if analyses == [] then None
    else if analyses[|analyses| - 1].userId == userId then Some(|analyses| - 1)
    else LatestAnalysis(analyses[..|analyses| - 1], userId)
  }

  /** The analysis status the reply reports: none yet, or the status of the most recent row. */
  function AnalysisState(db: Db, userId: string): Option<AnalysisStatus> {
    match LatestAnalysis(db.analyses, userId)
    case None => None
    case Some(k) => Some(db.analyses[k].status)
  }

  const PendingAnalysis := Response(202, AnalysisPendingBody)
  const FailedAnalysis := Response(500, ErrorBody("Failed to generate resume analysis"))

  function GetResumeAnalysis(db: Db, userId: Option<string>): (out: Outcome)
    ensures !Truthy(userId) ==> out == Outcome(db, Response(400, ErrorBody("User ID is required")), NoJob)
    ensures Truthy(userId) && userId.value !in db.users ==> out == Outcome(db, Response(404, ErrorBody("User not found")), NoJob)
    ensures Truthy(userId) && userId.value in db.users ==>
              match AnalysisState(db, userId.value)
              case None =>
                && out.response == PendingAnalysis && out.job == ResumeAnalysisJob(userId.value)
                && out.db == db.(analyses := db.analyses + [Analysis(userId.value, None, [], [], Pending)])
              case Some(Pending) => out == Outcome(db, PendingAnalysis, NoJob)
              case Some(Failed) => out == Outcome(db, FailedAnalysis, NoJob)
              case Some(Completed) =>
                var a := db.analyses[LatestAnalysis(db.analyses, userId.value).value];
                out == Outcome(db, Response(200, AnalysisBody(AnalysisView(a.score, a.improvements, a.strongPoints))), NoJob)
    ensures ValidDb(db) ==> ValidDb(out.db)
  {
    if !Truthy(userId) then Outcome(db, Response(400, ErrorBody("User ID is required")), NoJob)
    else if userId.value !in db.users then Outcome(db, Response(404, ErrorBody("User not found")), NoJob)
    else
      var id := userId.value;
      match LatestAnalysis(db.analyses, id)
      case None =>
        Outcome(db.(analyses := db.analyses + [Analysis(id, None, [], [], Pending)]), PendingAnalysis, ResumeAnalysisJob(id))
      case Some(k) =>
        var a := db.analyses[k];
        if a.status == Pending then Outcome(db, PendingAnalysis, NoJob)
        else if a.status == Failed then Outcome(db, FailedAnalysis, NoJob)
        else Outcome(db, Response(200, AnalysisBody(AnalysisView(a.score, a.improvements, a.strongPoints))), NoJob)
  }

  /** Marks the user's most recent analysis as failed, if there is one. */
  function MarkLatestFailed(db: Db, userId: string): (r: Db)
    ensures r == db.(analyses := r.analyses) && |r.analyses| == |db.analyses|
    ensures AnalysisState(r, userId) == if AnalysisState(db, userId).None? then None else Some(Failed)
    ensures forall other :: other != userId ==> AnalysisState(r, other) == AnalysisState(db, other)
  {
    match LatestAnalysis(db.analyses, userId)
    case None => db
    case Some(k) =>
      var analyses := db.analyses[k := db.analyses[k].(status := Failed)];
      LatestSameOwners(db.analyses, analyses);
      db.(analyses := analyses)
  }

  /** The most recent analysis of a user depends only on whose each row is. */
  lemma {:induction false} LatestSameOwners(a: seq<Analysis>, b: seq<Analysis>)
    requires |a| == |b| && forall i :: 0 <= i < |a| ==> a[i].userId == b[i].userId
    ensures forall u :: LatestAnalysis(a, u) == LatestAnalysis(b, u)
    decreases |a|
  {
    if a != [] {
      LatestSameOwners(a[..|a| - 1], b[..|b| - 1]);
    }
  }

  /** The background step process_resume_analysis; `result` is None when the analyser fails. */
  function ProcessResumeAnalysis(db: Db, userId: string, result: Option<AnalysisResult>): (db': Db)
    ensures db'.users == db.users && db'.questions == db.questions && db'.quizzes == db.quizzes
    ensures userId in db.users && CanAnalyse(db.users[userId]) && result.Some? ==>
              db'.analyses == db.analyses + [CompletedAnalysis(userId, result.value)]
    ensures !(userId in db.users && CanAnalyse(db.users[userId]) && result.Some?) ==> db' == MarkLatestFailed(db, userId)
  {
    if userId in db.users && CanAnalyse(db.users[userId]) && result.Some? then
      db.(analyses := db.analyses + [CompletedAnalysis(userId, result.value)])
    else MarkLatestFailed(db, userId)
  }

  lemma LatestAfterAppend(analyses: seq<Analysis>, a: Analysis)
    ensures LatestAnalysis(analyses + [a], a.userId) == Some(|analyses|)
  {
  }

  /**
   * The résumé-analysis status machine for a user with no analysis yet: the first request
   * stores a pending row and starts the job; while the job has not run, every request answers
   * pending and changes nothing; after the job, the reply is the completed analysis (200) when
   * the analyser succeeded for a user with résumé text and role, and the failure reply (500)
   * otherwise; it stays so on every later request.
   */
  lemma {:induction false} ResumeAnalysisLifecycle(db: Db, id: string, result: Option<AnalysisResult>)
    requires id != "" && id in db.users && AnalysisState(db, id).None?
    ensures var first := GetResumeAnalysis(db, Some(id));
            && first.response == PendingAnalysis && first.job == ResumeAnalysisJob(id)
            && GetResumeAnalysis(first.db, Some(id)) == Outcome(first.db, PendingAnalysis, NoJob)
    ensures var first := GetResumeAnalysis(db, Some(id));
            var after := ProcessResumeAnalysis(first.db, id, result);
            var reply := GetResumeAnalysis(after, Some(id));
            && reply.db == after && reply.job == NoJob
            && (reply.response.code == 200 <==> CanAnalyse(db.users[id]) && result.Some?)
            && (reply.response.code != 200 ==> reply.response == FailedAnalysis)
            && (reply.response.code == 200 ==>
                  reply.response.body == AnalysisBody(AnalysisView(result.value.score, result.value.improvements, result.value.strongPoints)))
  {
    var pendingRow := Analysis(id, None, [], [], Pending);
    var first := GetResumeAnalysis(db, Some(id));
    assert first.db == db.(analyses := db.analyses + [pendingRow]);
    LatestAfterAppend(db.analyses, pendingRow);
    var after := ProcessResumeAnalysis(first.db, id, result);
    if CanAnalyse(db.users[id]) && result.Some? {
      LatestAfterAppend(first.db.analyses, CompletedAnalysis(id, result.value));
    } else {
      assert after.analyses == first.db.analyses[|db.analyses| := pendingRow.(status := Failed)];
      assert after.analyses == db.analyses + [pendingRow.(status := Failed)];
      LatestAfterAppend(db.analyses, pendingRow.(status := Failed));
    }
  }

  // ---------------------------------------------------------------------------------------
  // api_generate_quiz_questions and generate_quiz_questions_background (lines 775-848)

  const InProgressMessage := "Quiz generation is in progress. Please check back in a few moments."
  const StartedMessage := "Quiz generation has been started. Please check back in a few moments."

  /** The user's quiz rows, in row order. */
  function QuizzesOf(quizzes: seq<QuizItem>, userId: string): (mine: seq<QuizItem>)
    ensures |mine| <= |quizzes|
    ensures forall k :: 0 <= k < |mine| ==> mine[k].userId == userId && mine[k] in quizzes
    ensures mine == [] <==> forall k :: 0 <= k < |quizzes| ==> quizzes[k].userId != userId
  {
    if quizzes == [] then []
    else
      var init := QuizzesOf(quizzes[..|quizzes| - 1], userId);
      assert forall q :: q in quizzes[..|quizzes| - 1] ==> q in quizzes;
      init + (if quizzes[|quizzes| - 1].userId == userId then [quizzes[|quizzes| - 1]] else [])
  }

  function GenerateQuizQuestions(db: Db, userId: Option<string>): (out: Outcome)
    ensures !Truthy(userId) ==> out == Outcome(db, Response(400, ErrorBody("User ID is required")), NoJob)
    ensures Truthy(userId) && userId.value !in db.users ==> out == Outcome(db, Response(404, ErrorBody("User not found")), NoJob)
    ensures Truthy(userId) && userId.value in db.users ==>
              var id := userId.value;
              var mine := QuizzesOf(db.quizzes, id);
              if db.users[id].questionsGenerated && mine != [] then
                out == Outcome(db, Response(200, QuizListBody(mine)), NoJob)
              else
                var reset := if db.users[id].questionsGenerated
                             then db.(users := db.users[id := db.users[id].(questionsGenerated := false)])
                             else db;
                if id in db.inProgress then
                  out == Outcome(reset, Response(200, QuizNoticeBody("in_progress", InProgressMessage)), NoJob)
                else
                  out == Outcome(reset.(inProgress := reset.inProgress + {id}),
                                 Response(200, QuizNoticeBody("started", StartedMessage)), QuizJob(id))
  {
    if !Truthy(userId) then Outcome(db, Response(400, ErrorBody("User ID is required")), NoJob)
    else if userId.value !in db.users then Outcome(db, Response(404, ErrorBody("User not found")), NoJob)
    else
      var id := userId.value;
      var mine := QuizzesOf(db.quizzes, id);
      if db.users[id].questionsGenerated && mine != [] then
        Outcome(db, Response(200, QuizListBody(mine)), NoJob)
      else
        var reset := if db.users[id].questionsGenerated
                     then db.(users := db.users[id := db.users[id].(questionsGenerated := false)])
                     else db;
        if id in reset.inProgress then
          Outcome(reset, Response(200, QuizNoticeBody("in_progress", InProgressMessage)), NoJob)
        else
          Outcome(reset.(inProgress := reset.inProgress + {id}), Response(200, QuizNoticeBody("started", StartedMessage)), QuizJob(id))
  }

  /** A question as the quiz model produces it. */
  datatype QuizSpec = QuizSpec(question: string, options: map<string, string>, correctAnswer: string)

  function QuizRows(userId: string, specs: seq<QuizSpec>, firstId: nat): (rows: seq<QuizItem>)
    ensures |rows| == |specs|
    ensures forall k :: 0 <= k < |rows| ==> rows[k].id == firstId + k && rows[k].userId == userId
  {
    if specs == [] then []
    else
      var s := specs[|specs| - 1];
      QuizRows(userId, specs[..|specs| - 1], firstId) + [QuizItem(firstId + |specs| - 1, userId, s.question, s.options, s.correctAnswer)]
  }

  /**
   * The background step generate_quiz_questions_background; `generated` is None when the model
   * call or its parsing fails. The flag it clears lives on the thread's own User object, so the
   * request session's `inProgress` is untouched.
   */
  function QuizBackground(db: Db, userId: string, generated: Option<seq<QuizSpec>>): (db': Db)
    ensures ValidDb(db) ==> ValidDb(db')
    ensures db'.inProgress == db.inProgress && db'.questions == db.questions && db'.analyses == db.analyses
    ensures userId !in db.users || generated.None? ==> db' == db
    ensures userId in db.users && generated.Some? ==>
              && db'.quizzes == db.quizzes + QuizRows(userId, generated.value, db.nextQuizId)
              && db'.users == (if generated.value != [] then db.users[userId := db.users[userId].(questionsGenerated := true)] else db.users)
  {
    if userId !in db.users || generated.None? then db
    else
      var rows := QuizRows(userId, generated.value, db.nextQuizId);
      var db1 := db.(quizzes := db.quizzes + rows, nextQuizId := db.nextQuizId + |rows|);
      if generated.value != [] then db1.(users := db1.users[userId := db1.users[userId].(questionsGenerated := true)])
      else db1
  }

  /** The request's session is discarded when the request ends, with the attributes set on it. */
  function EndRequest(db: Db): (db': Db)
    ensures db'.inProgress == {} && db'.(inProgress := db.inProgress) == db
  {
    db.(inProgress := {})
  }

  /**
   * An observation about the source rather than a modelled fix: in a fresh request the
   * undeclared generation_in_progress attribute never reads true, so the endpoint's
   * in_progress reply is unreachable.
   */
  lemma FreshRequestNeverInProgress(db: Db, userId: Option<string>)
    ensures GenerateQuizQuestions(EndRequest(db), userId).response.body != QuizNoticeBody("in_progress", InProgressMessage)
  {
  }

  /**
   * The quiz endpoint shares the questions_generated flag with the interview questions: for a
   * user whose questions are generated but who has no quiz rows yet, asking for the quiz
   * resets the flag, so the profile check then reports the user as new and the app sends a
   * user who has a profile back to the intake form. This is an observation about the source;
   * the model keeps the behaviour as written.
   */
  lemma QuizRequestResetsProfile(db: Db, id: string, email: string)
    requires id in db.users && db.users[id].questionsGenerated && QuizzesOf(db.quizzes, id) == []
    requires id != "" && email != ""
    ensures var out := GenerateQuizQuestions(db, Some(id));
            && UserProfile(db, Some(id), Some(email)).body.isNewUser == false
            && UserProfile(out.db, Some(id), Some(email)).body.isNewUser == true
            && QuestionStatus(out.db, Some(id)).body == StatusFields(false)
  {
  }

  /** Once a user has quiz rows and the flag, the quiz endpoint lists them and changes nothing. */
  lemma QuizCompletedIsStable(db: Db, id: string, specs: seq<QuizSpec>)
    requires id != "" && id in db.users && specs != []
    ensures var after := QuizBackground(db, id, Some(specs));
            GenerateQuizQuestions(after, Some(id)) ==
              Outcome(after, Response(200, QuizListBody(QuizzesOf(after.quizzes, id))), NoJob)
  {
    var after := QuizBackground(db, id, Some(specs));
    var rows := QuizRows(id, specs, db.nextQuizId);
    assert after.quizzes[|after.quizzes| - 1] == rows[|rows| - 1];
    assert QuizzesOf(after.quizzes, id) != [];
  }

}
