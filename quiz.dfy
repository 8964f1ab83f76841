/**
 * The quiz page (frontend/src/pages/Quiz.js): it fetches the user's quiz once, keeps at most
 * ten questions, and walks through them one answer at a time, counting correct answers.
 */
module Quiz {
  import opened Wrappers
  import Backend
  import Client

  datatype QuizQuestion = QuizQuestion(id: nat, question: string, options: map<string, string>, correctAnswer: string)

  datatype QuizState = QuizState(
    questions: seq<QuizQuestion>, current: nat, score: nat, showScore: bool,
    loading: bool, error: string, selected: Option<string>, submitted: bool)

  const Initial := QuizState([], 0, 0, false, true, "", None, false)

  const MaxQuestions := 10
  const FetchFailedMessage := "Failed to fetch quiz questions."
  const FetchErrorMessage := "An error occurred while fetching quiz questions."

  /** The quiz call as the page sees it: `success` and the `questions` field (None when absent), or a thrown error. */
  datatype QuizReply = QuizReply(success: bool, questions: Option<seq<QuizQuestion>>) | QuizThrew

  function Min(a: nat, b: nat): nat {
    if a <= b then a else b
  }

  /** How many questions have been answered or passed: all of them once the score is shown. */
  function Attempted(s: QuizState): nat {
    if s.showScore then |s.questions| else s.current + (if s.submitted then 1 else 0)
  }

  /** What every reachable state satisfies. */
  predicate Inv(s: QuizState) {
    && (s.loading ==> s == Initial)
    && |s.questions| <= MaxQuestions
    && (s.questions == [] ==> s.current == 0 && !s.submitted && !s.showScore)
    && (s.questions != [] ==> s.current < |s.questions|)
    && (!s.loading && s.error == "" ==> s.questions != [])
    && (s.submitted <==> s.selected.Some?)
    && s.score <= Attempted(s) <= |s.questions|
  }

  /** The question screen is rendered: the answer and next buttons exist only there. */
  predicate Showing(s: QuizState) {
    !s.loading && s.error == "" && !s.showScore
  }

  /** fetchQuizQuestions: `signedIn` stands for `user && user.id`. */
  function Fetch(s: QuizState, signedIn: bool, reply: QuizReply): (t: QuizState)
    requires Inv(s) && s.loading
    ensures Inv(t)
    ensures !signedIn ==> t == s
    ensures signedIn ==> !t.loading
    ensures signedIn && reply.QuizReply? && reply.success && reply.questions.Some? && reply.questions.value != [] ==>
              t == s.(questions := reply.questions.value[..Min(MaxQuestions, |reply.questions.value|)], loading := false)
    ensures signedIn && reply.QuizReply? && (!reply.success || reply.questions == Some([])) ==>
              t == s.(error := FetchFailedMessage, loading := false)
    ensures signedIn && (reply.QuizThrew? || (reply.success && reply.questions.None?)) ==>
              t == s.(error := FetchErrorMessage, loading := false)
  {
    if !signedIn then s
    else match reply
      case QuizThrew => s.(error := FetchErrorMessage, loading := false)
      case QuizReply(success, questions) =>
        if !success then s.(error := FetchFailedMessage, loading := false)
        else if questions.None? then s.(error := FetchErrorMessage, loading := false)   // reading .length of undefined throws
        else if questions.value == [] then s.(error := FetchFailedMessage, loading := false)
        else s.(questions := questions.value[..Min(MaxQuestions, |questions.value|)], loading := false)
  }

  /** handleAnswerSubmit: the first answer to a question is recorded and scored; later ones are ignored. */
  function Submit(s: QuizState, key: string): (t: QuizState)
    requires Inv(s) && Showing(s)
    ensures Inv(t) && Showing(t) && t.submitted
    ensures s.submitted ==> t == s
    ensures !s.submitted ==>
              && t.selected == Some(key)
              && t.score == s.score + (if key == s.questions[s.current].correctAnswer then 1 else 0)
              && t.(score := s.score, selected := s.selected, submitted := s.submitted) == s
  {
    if s.submitted then s
    else
      var gained := if key == s.questions[s.current].correctAnswer then 1 else 0;
      s.(selected := Some(key), submitted := true, score := s.score + gained)
  }

  /** handleNextQuestion: the selection is cleared and the next question, or the score, is shown. */
  function Next(s: QuizState): (t: QuizState)
    requires Inv(s) && Showing(s) && s.submitted
    ensures Inv(t) && t.selected.None? && !t.submitted && t.score == s.score
    ensures s.current + 1 < |s.questions| ==> t.current == s.current + 1 && !t.showScore
    ensures s.current + 1 >= |s.questions| ==> t.current == s.current && t.showScore
    ensures t.questions == s.questions && t.loading == s.loading && t.error == s.error
  {
    var cleared := s.(selected := None, submitted := false);
    if s.current + 1 < |s.questions| then cleared.(current := s.current + 1)
    else cleared.(showScore := true)
  }

  /** The number of picks that name the correct option of the question at the same position. */
  function Correct(qs: seq<QuizQuestion>, picks: seq<string>): (n: nat)
    requires |qs| == |picks|
    ensures n <= |picks|
  {
    if picks == [] then 0
    else (if picks[0] == qs[0].correctAnswer then 1 else 0) + Correct(qs[1..], picks[1..])
  }

  /** Answering every remaining question with `picks`, pressing Next after each. */
  function Play(s: QuizState, picks: seq<string>): (t: QuizState)
    requires Inv(s) && Showing(s) && !s.submitted
    requires |picks| == |s.questions| - s.current
    decreases |picks|
  {
    var t := Next(Submit(s, picks[0]));
    if |picks| == 1 then t else Play(t, picks[1..])
  }

  /** A full run ends on the score screen with one point per correct pick. */
  lemma {:induction false} PlayScores(s: QuizState, picks: seq<string>)
    requires Inv(s) && Showing(s) && !s.submitted
    requires |picks| == |s.questions| - s.current
    ensures Play(s, picks).showScore
    ensures Play(s, picks).score == s.score + Correct(s.questions[s.current..], picks)
    decreases |picks|
  {
    var t := Next(Submit(s, picks[0]));
    if |picks| > 1 {
      PlayScores(t, picks[1..]);
      assert s.questions[s.current..][1..] == t.questions[t.current..];
    }
  }

  lemma {:induction false} AllCorrectCounts(qs: seq<QuizQuestion>, picks: seq<string>)
    requires |qs| == |picks|
    requires forall i :: 0 <= i < |qs| ==> picks[i] == qs[i].correctAnswer
    ensures Correct(qs, picks) == |qs|
  {
    if picks != [] {
      AllCorrectCounts(qs[1..], picks[1..]);
    }
  }

  /**
   * After a successful fetch of n questions, answering each kept question correctly ends at a
   * score of min(10, n) out of min(10, n): a quiz of twelve gives 10 out of 10.
   */
  lemma PerfectRun(qs: seq<QuizQuestion>, picks: seq<string>)
    requires qs != [] && |picks| == Min(MaxQuestions, |qs|)
    requires forall i :: 0 <= i < |picks| ==> picks[i] == qs[i].correctAnswer
    ensures var fetched := Fetch(Initial, true, QuizReply(true, Some(qs)));
            var done := Play(fetched, picks);
            done.showScore && done.score == |fetched.questions| == Min(MaxQuestions, |qs|)
  {
    var fetched := Fetch(Initial, true, QuizReply(true, Some(qs)));
    PlayScores(fetched, picks);
    assert fetched.questions[0..] == fetched.questions;
    AllCorrectCounts(fetched.questions, picks);
  }

  // ---------------------------------------------------------------------------------------
  // Against the backend

  function ToQuizQuestions(items: seq<Backend.QuizItem>): (qs: seq<QuizQuestion>)
    ensures |qs| == |items|
    ensures forall i :: 0 <= i < |items| ==>
              qs[i] == QuizQuestion(items[i].id, items[i].question, items[i].options, items[i].correctAnswer)
  {
    if items == [] then []
    else [QuizQuestion(items[0].id, items[0].question, items[0].options, items[0].correctAnswer)] + ToQuizQuestions(items[1..])
  }

  /** How the page reads a reply: only the completed list carries a `questions` field. */
  function QuizReplyOf(reply: Option<Backend.Body>): QuizReply {
    match reply
    case None => QuizThrew
    case Some(body) =>
      if body.QuizListBody? then QuizReply(true, Some(ToQuizQuestions(body.items)))
      else QuizReply(Client.SuccessField(body), None)
  }

  /**
   * The backend answers a first visit with 'started' (or 'in_progress'), a reply that has no
   * question list: the page then shows the generic error rather than waiting for the quiz.
   */
  lemma FirstVisitShowsError(db: Backend.Db, id: string)
    requires id != "" && id in db.users && Backend.QuizzesOf(db.quizzes, id) == []
    ensures var out := Backend.GenerateQuizQuestions(db, Some(id));
            var t := Fetch(Initial, true, QuizReplyOf(Client.Receive(out.response)));
            t.error == FetchErrorMessage && !t.loading && t.questions == []
  {
  }

  /** Once the backend has quiz rows for a generated user, the page keeps the first ten of them in row order. */
  lemma StoredQuizIsShown(db: Backend.Db, id: string)
    requires id != "" && id in db.users && db.users[id].questionsGenerated && Backend.QuizzesOf(db.quizzes, id) != []
    ensures var mine := ToQuizQuestions(Backend.QuizzesOf(db.quizzes, id));
            var t := Fetch(Initial, true, QuizReplyOf(Client.Receive(Backend.GenerateQuizQuestions(db, Some(id)).response)));
            t.error == "" && t.questions == mine[..Min(MaxQuestions, |mine|)]
  {
  }
}

/** The quiz page's state as a component object whose handlers update it in place. */
module QuizComponent {
  import opened Wrappers
  import opened Quiz

  class QuizPage {
    var questions: seq<QuizQuestion>
    var currentQuestion: nat
    var score: nat
    var showScore: bool
    var loading: bool
    var error: string
    var selectedOption: Option<string>
    var isAnswerSubmitted: bool

    function State(): QuizState
      reads this
    {
      QuizState(questions, currentQuestion, score, showScore, loading, error, selectedOption, isAnswerSubmitted)
    }

    constructor ()
      ensures State() == Initial
    {
      questions, currentQuestion, score, showScore := [], 0, 0, false;
      loading, error, selectedOption, isAnswerSubmitted := true, "", None, false;
    }

    method FetchQuizQuestions(signedIn: bool, reply: QuizReply)
      requires Inv(State()) && loading
      modifies this
      ensures State() == Fetch(old(State()), signedIn, reply)
    {
      if !signedIn {
        return;
      }
      match reply {
        case QuizThrew =>
          error := FetchErrorMessage;
          loading := false;
        case QuizReply(success, qs) =>
          if success && qs.Some? && |qs.value| > 0 {
            questions := qs.value[..Min(MaxQuestions, |qs.value|)];
            loading := false;
          } else if success && qs.None? {
            error := FetchErrorMessage;
            loading := false;
          } else {
            error := FetchFailedMessage;
            loading := false;
          }
      }
    }

    method HandleAnswerSubmit(optionKey: string)
      requires Inv(State()) && Showing(State())
      modifies this
      ensures State() == Submit(old(State()), optionKey)
    {
      if !isAnswerSubmitted {
        selectedOption := Some(optionKey);
        isAnswerSubmitted := true;
        if optionKey == questions[currentQuestion].correctAnswer {
          score := score + 1;
        }
      }
    }

    method HandleNextQuestion()
      requires Inv(State()) && Showing(State()) && isAnswerSubmitted
      modifies this
      ensures State() == Next(old(State()))
    {
      var nextQuestion := currentQuestion + 1;
      selectedOption := None;
      isAnswerSubmitted := false;
      if nextQuestion < |questions| {
        currentQuestion := nextQuestion;
      } else {
        showScore := true;
      }
    }
  }
}
