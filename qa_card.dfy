/**
 * One question card (frontend/src/components/QACard.js): it shows the stored answer behind a
 * toggle, or offers to generate one, and reports a freshly generated answer to its page.
 */
module QACard {
  import opened Wrappers
  import Backend
  import Client

  datatype CardState = CardState(answer: Option<string>, loading: bool, error: string, showAnswer: bool)

  /** The state a card mounts with, from the question's stored answer. */
  function Mount(questionAnswer: Option<string>): (c: CardState)
    ensures c.answer == questionAnswer && !c.loading && c.error == ""
    ensures c.showAnswer <==> Truthy(questionAnswer)
  {
    CardState(questionAnswer, false, "", Truthy(questionAnswer))
  }

  /** The generate button is rendered only while the card has no answer. */
  predicate OffersGenerate(c: CardState) {
    !Truthy(c.answer)
  }

  /** ... and it is disabled while a request is running. */
  predicate GenerateEnabled(c: CardState) {
    OffersGenerate(c) && !c.loading
  }

  /** The show/hide toggle exists only when there is an answer, and the answer text shows only when toggled on. */
  predicate AnswerShown(c: CardState) {
    Truthy(c.answer) && c.showAnswer
  }

  /** A mounted card offers exactly one of the two controls: the toggle with the answer shown, or the generate button. */
  lemma MountedControls(questionAnswer: Option<string>)
    ensures AnswerShown(Mount(questionAnswer)) <==> !OffersGenerate(Mount(questionAnswer))
    ensures GenerateEnabled(Mount(questionAnswer)) <==> !Truthy(questionAnswer)
  {
  }

  /** What the awaited generate call gives the card. */
  datatype GenerateResult = Generated(answer: Option<string>) | Failed(message: string)

  const DefaultError := "Failed to generate answer."

  /** The card after a generate attempt, and whether the page's callback ran. */
  datatype Finished = Finished(card: CardState, notified: bool)

  /** The part of handleGenerateAnswer before the await. */
  function Start(c: CardState): (t: CardState)
    ensures t.loading && t.error == ""
    ensures t.answer == c.answer && t.showAnswer == c.showAnswer
  {
    c.(loading := true, error := "")
  }

  /** The part after the await: success or failure, then `finally`. */
  function Finish(c: CardState, result: GenerateResult, hasCallback: bool): (f: Finished)
    ensures !f.card.loading
    ensures result.Generated? ==>
              && f.card.answer == result.answer && f.card.showAnswer && f.card.error == c.error
              && f.notified == hasCallback
    ensures result.Failed? ==>
              && f.card.answer == c.answer && f.card.showAnswer == c.showAnswer && !f.notified
              && f.card.error == (if result.message != "" then result.message else DefaultError)
              && f.card.error != ""
  {
    match result
    case Generated(answer) => Finished(c.(answer := answer, showAnswer := true, loading := false), hasCallback)
    case Failed(message) =>
      Finished(c.(error := if message != "" then message else DefaultError, loading := false), false)
  }

  /** toggleAnswerVisibility changes nothing but the visibility flag, and undoes itself. */
  function Toggle(c: CardState): (t: CardState)
    ensures t.showAnswer == !c.showAnswer
    ensures t.(showAnswer := c.showAnswer) == c
    ensures OffersGenerate(t) == OffersGenerate(c)
  {
    c.(showAnswer := !c.showAnswer)
  }

  lemma ToggleTwice(c: CardState)
    ensures Toggle(Toggle(c)) == c
  {
  }

  /**
   * Generating a non-empty answer leaves the card showing it, with the generate button gone
   * and the error of this attempt cleared.
   */
  lemma GeneratedAnswerShown(c: CardState, a: string, hasCallback: bool)
    requires a != ""
    ensures var f := Finish(Start(c), Generated(Some(a)), hasCallback);
            AnswerShown(f.card) && !OffersGenerate(f.card) && f.card.error == "" && f.notified == hasCallback
  {
  }

  // ---------------------------------------------------------------------------------------
  // Against the backend

  const ApiFallbackError := "Failed to generate answer"

  /**
   * How the awaited call ends (frontend/src/utils/api.js): a 2xx reply gives its `answer` field;
   * otherwise the call throws with the reply's `error` text, or the fallback, or - when the
   * reply is not JSON - the parser's message `parseError`.
   */
  function AnswerResult(r: Backend.Response, parseError: string): (res: GenerateResult)
    ensures res.Generated? <==> Client.Ok(r)
    ensures Client.Ok(r) ==> res.answer == if r.body.AnswerBody? then Some(r.body.answer) else None
    ensures !Client.Ok(r) && r.body.ErrorBody? && r.body.error != "" ==> res == Failed(r.body.error)
    ensures !Client.Ok(r) && r.body.InternalError? ==> res == Failed(parseError)
    ensures !Client.Ok(r) && !r.body.InternalError? && !(r.body.ErrorBody? && r.body.error != "") ==> res == Failed(ApiFallbackError)
  {
    match Client.Receive(r)
    case Some(body) => if body.AnswerBody? then Generated(Some(body.answer)) else Generated(None)
    case None =>
      if r.body.ErrorBody? then Failed(if r.body.error != "" then r.body.error else ApiFallbackError)
      else if r.body.InternalError? then Failed(parseError)
      else Failed(ApiFallbackError)
  }

  /**
   * Against the backend: when the question exists and the backend answers, the card ends up
   * holding exactly the answer the backend now stores for it (a stored one, or the fresh one it
   * saved). When the generator raises or the question's owner is gone, nothing is stored and the
   * card keeps its answer and shows an error. An unknown question leaves the answer alone and
   * shows the backend's "Question not found".
   */
  lemma CardHoldsStoredAnswer(db: Backend.Db, c: CardState, questionId: nat, llmAnswer: Option<string>, parseError: string)
    requires OffersGenerate(c)
    ensures var out := Backend.GenerateAnswer(db, Some(questionId), llmAnswer);
            var f := Finish(Start(c), AnswerResult(out.response, parseError), true);
            var k := Backend.FindQuestion(db.questions, Some(questionId));
            var refused := k.Some? && !Truthy(db.questions[k.value].answer)
                           && (db.questions[k.value].userId !in db.users || llmAnswer.None?);
            && (k.Some? && !refused ==> f.card.answer == out.db.questions[k.value].answer && f.notified)
            && (refused ==> out.db == db && f.card.answer == c.answer && f.card.error != "" && !f.notified)
            && (k.None? ==> f.card.answer == c.answer && f.card.error == "Question not found" && !f.notified)
  {
    var out := Backend.GenerateAnswer(db, Some(questionId), llmAnswer);
    var k := Backend.FindQuestion(db.questions, Some(questionId));
    if k.Some? {
      var q := db.questions[k.value];
      if !Truthy(q.answer) && q.userId in db.users && llmAnswer.Some? {
        assert out.db.questions[k.value].answer == llmAnswer;
      }
    }
  }
}

/** A card's state as a component object whose handlers update it in place. */
module QACardComponent {
  import opened Wrappers
  import opened QACard

  class Card {
    var answer: Option<string>
    var loading: bool
    var error: string
    var showAnswer: bool

    function State(): CardState
      reads this
    {
      CardState(answer, loading, error, showAnswer)
    }

    constructor (questionAnswer: Option<string>)
      ensures State() == Mount(questionAnswer)
    {
      answer := questionAnswer;
      loading := false;
      error := "";
      showAnswer := Truthy(questionAnswer);
    }

    /** handleGenerateAnswer, with the awaited call's outcome as input; returns whether the callback ran. */
    method HandleGenerateAnswer(result: GenerateResult, hasCallback: bool) returns (notified: bool)
      modifies this
      ensures Finished(State(), notified) == Finish(Start(old(State())), result, hasCallback)
    {
      loading := true;
      error := "";
      notified := false;
      match result {
        case Generated(a) =>
          answer := a;
          showAnswer := true;
          if hasCallback {
            notified := true;
          }
        case Failed(message) =>
          error := if message != "" then message else DefaultError;
      }
      loading := false;
    }

    method ToggleAnswerVisibility()
      modifies this
      ensures State() == Toggle(old(State()))
    {
      showAnswer := !showAnswer;
    }
  }
}
