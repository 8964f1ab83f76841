/**
 * The backend's store as one object whose handlers update it in place, as the SQLAlchemy
 * session does: each method is proved to leave exactly the state the corresponding function
 * of module Backend computes.
 */
module BackendStore {
  import opened Wrappers
  import opened Backend


  class Database {
    var users: map<string, User>
    var questions: seq<Question>
    var analyses: seq<Analysis>
    var quizzes: seq<QuizItem>
    var nextQuestionId: nat
    var nextQuizId: nat
    var inProgress: set<string>

    function Snapshot(): Db
      reads this
    {
      Db(users, questions, analyses, quizzes, nextQuestionId, nextQuizId, inProgress)
    }

    ghost predicate Valid()
      reads this
    {
      ValidDb(Snapshot())
    }

    constructor ()
      ensures Valid() && Snapshot() == EmptyDb
    {
      users, questions, analyses, quizzes := map[], [], [], [];
      nextQuestionId, nextQuizId, inProgress := 1, 1, {};
    }

    method UserInput(req: IntakeRequest, extraction: Result<string, string>) returns (resp: Response, job: Job)
      requires Valid()
      modifies this
      ensures Valid()
      ensures Outcome(Snapshot(), resp, job) == Backend.UserInput(old(Snapshot()), req, extraction)
    {
      if !AllFieldsGiven(req) {
        return Rejected(MissingFieldsMessage), NoJob;
      }
      var id := req.userId.value;
      var user := UpsertUser(users, id, req.name.value, req.email.value, req.company.value, req.role.value);
      if req.resume.Some? {
        if !UploadAccepted(req.resume.value) {
          return Rejected(InvalidFileMessage), NoJob;
        }
        if extraction.Failure? {
          return Rejected(extraction.error), NoJob;
        }
        user := user.(resumeText := Some(extraction.value));
      }
      if EmailTaken(users, id, user.email) {
        return Rejected(DuplicateEmailMessage), NoJob;
      }
      users := users[id := user];
      resp, job := Response(202, MessageBody(true, IntakeAcceptedMessage)), ProcessQuestionsJob(id);
    }

    /** The inner loop of save_questions_to_db: one row per question of one type. */
    method AddTypedRows(userId: string, questionType: string, texts: seq<string>)
      modifies this
      ensures questions == old(questions) + TypedRows(userId, questionType, texts, old(nextQuestionId))
      ensures nextQuestionId == old(nextQuestionId) + |texts|
      ensures users == old(users) && analyses == old(analyses) && quizzes == old(quizzes)
      ensures nextQuizId == old(nextQuizId) && inProgress == old(inProgress)
    {
      var i := 0;
      while i < |texts|
        invariant 0 <= i <= |texts|
        invariant questions == old(questions) + TypedRows(userId, questionType, texts[..i], old(nextQuestionId))
        invariant nextQuestionId == old(nextQuestionId) + i
        invariant users == old(users) && analyses == old(analyses) && quizzes == old(quizzes)
        invariant nextQuizId == old(nextQuizId) && inProgress == old(inProgress)
      {
        questions := questions + [Question(nextQuestionId, userId, questionType, texts[i], None)];
        nextQuestionId := nextQuestionId + 1;
        assert texts[..i + 1][..i] == texts[..i];
        i := i + 1;
      }
      assert texts[..i] == texts;
    }

    /** save_questions_to_db: the groups in order, each through the inner loop. */
    method SaveQuestionsToDb(userId: string, sets: GeneratedSets)
      requires Valid()
      modifies this
      ensures Valid()
      ensures Snapshot() == SaveQuestions(old(Snapshot()), userId, sets)
    {
      var groups := Groups(sets);
      var g := 0;
      while g < |groups|
        invariant 0 <= g <= |groups|
        invariant questions == old(questions) + GroupRows(userId, groups[..g], old(nextQuestionId))
        invariant nextQuestionId == old(nextQuestionId) + |GroupRows(userId, groups[..g], old(nextQuestionId))|
        invariant users == old(users) && analyses == old(analyses) && quizzes == old(quizzes)
        invariant nextQuizId == old(nextQuizId) && inProgress == old(inProgress)
      {
        var (questionType, texts) := groups[g];
        AddTypedRows(userId, questionType, texts);
        assert groups[..g + 1] == groups[..g] + [groups[g]];
        GroupRowsSnoc(userId, groups[..g], groups[g], old(nextQuestionId));
        g := g + 1;
      }
      assert groups[..g] == groups;
      assert questions == old(questions) + SavedRows(userId, sets, old(nextQuestionId));
      GroupRowsNumbered(userId, groups, old(nextQuestionId));
      assert Snapshot() == SaveQuestions(old(Snapshot()), userId, sets);
    }

    method ProcessQuestions(userId: string, generated: Option<GeneratedSets>, analysis: Option<AnalysisResult>)
      requires Valid()
      modifies this
      ensures Valid()
      ensures Snapshot() == Backend.ProcessQuestions(old(Snapshot()), userId, generated, analysis)
    {
      if userId !in users || generated.None? {
        return;
      }
      var sets := generated.value;
      if sets.resume == [] || sets.role == [] || sets.company == [] {
        return;
      }
      SaveQuestionsToDb(userId, sets);
      users := users[userId := users[userId].(questionsGenerated := true)];
      if CanAnalyse(users[userId]) && analysis.Some? {
        analyses := analyses + [CompletedAnalysis(userId, analysis.value)];
      }
    }

    method GenerateAnswer(questionId: Option<nat>, llmAnswer: Option<string>) returns (resp: Response)
      requires Valid()
      modifies this
      ensures Valid()
      ensures Outcome(Snapshot(), resp, NoJob) == Backend.GenerateAnswer(old(Snapshot()), questionId, llmAnswer)
    {
      var k := FindQuestion(questions, questionId);
      if k.None? {
        return Response(404, ErrorBody("Question not found"));
      }
      var q := questions[k.value];
      if Truthy(q.answer) {
        return Response(200, AnswerBody(q.answer.value));
      }
      if q.userId !in users || llmAnswer.None? {
        return Response(500, InternalError);
      }
      questions := questions[k.value := q.(answer := llmAnswer)];
      resp := Response(200, AnswerBody(llmAnswer.value));
    }

    method GetResumeAnalysis(userId: Option<string>) returns (resp: Response, job: Job)
      requires Valid()
      modifies this
      ensures Valid()
      ensures Outcome(Snapshot(), resp, job) == Backend.GetResumeAnalysis(old(Snapshot()), userId)
    {
      if !Truthy(userId) {
        return Response(400, ErrorBody("User ID is required")), NoJob;
      }
      if userId.value !in users {
        return Response(404, ErrorBody("User not found")), NoJob;
      }
      var id := userId.value;
      var latest := LatestAnalysis(analyses, id);
      if latest.None? {
        analyses := analyses + [Analysis(id, None, [], [], Pending)];
        return PendingAnalysis, ResumeAnalysisJob(id);
      }
      var a := analyses[latest.value];
      if a.status == Pending {
        return PendingAnalysis, NoJob;
      }
      if a.status == Failed {
        return FailedAnalysis, NoJob;
      }
      resp, job := Response(200, AnalysisBody(AnalysisView(a.score, a.improvements, a.strongPoints))), NoJob;
    }

    method ProcessResumeAnalysis(userId: string, result: Option<AnalysisResult>)
      requires Valid()
      modifies this
      ensures Valid()
      ensures Snapshot() == Backend.ProcessResumeAnalysis(old(Snapshot()), userId, result)
    {
      if userId in users && CanAnalyse(users[userId]) && result.Some? {
        analyses := analyses + [CompletedAnalysis(userId, result.value)];
        return;
      }
      var latest := LatestAnalysis(analyses, userId);
      if latest.Some? {
        analyses := analyses[latest.value := analyses[latest.value].(status := Failed)];
      }
    }

    method GenerateQuizQuestions(userId: Option<string>) returns (resp: Response, job: Job)
      requires Valid()
      modifies this
      ensures Valid()
      ensures Outcome(Snapshot(), resp, job) == Backend.GenerateQuizQuestions(old(Snapshot()), userId)
    {
      if !Truthy(userId) {
        return Response(400, ErrorBody("User ID is required")), NoJob;
      }
      if userId.value !in users {
        return Response(404, ErrorBody("User not found")), NoJob;
      }
      var id := userId.value;
      if users[id].questionsGenerated {
        var mine := QuizzesOf(quizzes, id);
        if mine != [] {
          return Response(200, QuizListBody(mine)), NoJob;
        }
        users := users[id := users[id].(questionsGenerated := false)];
      }
      if id in inProgress {
        return Response(200, QuizNoticeBody("in_progress", InProgressMessage)), NoJob;
      }
      inProgress := inProgress + {id};
      resp, job := Response(200, QuizNoticeBody("started", StartedMessage)), QuizJob(id);
    }

    method GenerateQuizQuestionsBackground(userId: string, generated: Option<seq<QuizSpec>>)
      requires Valid()
      modifies this
      ensures Valid()
      ensures Snapshot() == QuizBackground(old(Snapshot()), userId, generated)
    {
      if userId !in users || generated.None? {
        return;
      }
      var specs := generated.value;
      var i := 0;
      while i < |specs|
        invariant 0 <= i <= |specs|
        invariant quizzes == old(quizzes) + QuizRows(userId, specs[..i], old(nextQuizId))
        invariant nextQuizId == old(nextQuizId) + i
        invariant users == old(users) && questions == old(questions) && analyses == old(analyses)
        invariant nextQuestionId == old(nextQuestionId) && inProgress == old(inProgress)
      {
        var s := specs[i];
        quizzes := quizzes + [QuizItem(nextQuizId, userId, s.question, s.options, s.correctAnswer)];
        nextQuizId := nextQuizId + 1;
        assert specs[..i + 1][..i] == specs[..i];
        i := i + 1;
      }
      assert specs[..i] == specs;
      if specs != [] {
        users := users[userId := users[userId].(questionsGenerated := true)];
      }
    }

    method EndRequest()
      modifies this
      ensures Snapshot() == Backend.EndRequest(old(Snapshot()))
    {
      inProgress := {};
    }
  }
}
