/**
 * The role questions page (frontend/src/pages/RoleQA.js): it lists the user's role questions in
 * one card each, filters them, and keeps an answered count that it mirrors into the browser's
 * storage and announces to the dashboard.
 */
module RoleQA {
  import opened Wrappers
  import opened Storage
  import Backend
  import Client
  import QACard

  type QuestionView = Backend.QuestionView

  datatype Filter = All | Answered | Unanswered

  /**
   * The page's state. `cards` holds the state of every mounted card, keyed as the list keys
   * them, by question id; `store` is the browser's storage and `events` the names of the
   * window events dispatched so far.
   */
  datatype Page = Page(
    questions: seq<QuestionView>, loading: bool, error: string, answeredCount: nat, filter: Filter,
    cards: map<nat, QACard.CardState>, store: Store, events: seq<string>)

  function Initial(store: Store): Page {
    Page([], true, "", 0, All, map[], store, [])
  }

  const CountKey := "roleAnsweredCount"
  const CountEvent := "roleAnsweredCountUpdated"
  const FetchFailedMessage := "Failed to fetch questions."
  const FetchErrorMessage := "An error occurred while fetching questions."

  /** The question list is on screen (neither the spinner nor the error message). */
  predicate Showing(s: Page) {
    !s.loading && s.error == ""
  }

  // ---------------------------------------------------------------------------------------
  // The list, the filter and the counts

  function CountAnswered(qs: seq<QuestionView>): (n: nat)
    ensures n <= |qs|
  {
    if qs == [] then 0
    else CountAnswered(qs[..|qs| - 1]) + (if Truthy(qs[|qs| - 1].answer) then 1 else 0)
  }

  predicate Shows(f: Filter, q: QuestionView) {
    match f
    case All => true
    case Answered => Truthy(q.answer)
    case Unanswered => !Truthy(q.answer)
  }

  /** The questions the filter lets through, in list order. */
  function Visible(qs: seq<QuestionView>, f: Filter): (v: seq<QuestionView>)
    ensures |v| <= |qs|
  {
    if qs == [] then []
    else Visible(qs[..|qs| - 1], f) + (if Shows(f, qs[|qs| - 1]) then [qs[|qs| - 1]] else [])
  }

  /** A question is visible exactly when it is in the list and the filter lets it through. */
  lemma {:induction false} VisibleExact(qs: seq<QuestionView>, f: Filter, q: QuestionView)
    ensures q in Visible(qs, f) <==> q in qs && Shows(f, q)
  {
    if qs != [] {
      VisibleExact(qs[..|qs| - 1], f, q);
      assert qs == qs[..|qs| - 1] + [qs[|qs| - 1]];
    }
  }

  /** The three counts the list could show: all of it, its answered part and its unanswered part. */
  lemma {:induction false} FilterSizes(qs: seq<QuestionView>)
    ensures Visible(qs, All) == qs
    ensures |Visible(qs, Answered)| == CountAnswered(qs)
    ensures |Visible(qs, Unanswered)| == |qs| - CountAnswered(qs)
  {
    if qs != [] {
      var init, last := qs[..|qs| - 1], qs[|qs| - 1];
      FilterSizes(init);
      assert qs == init + [last];
      assert Visible(qs, All) == Visible(init, All) + [last];
      if Truthy(last.answer) {
        assert CountAnswered(qs) == CountAnswered(init) + 1;
        assert Visible(qs, Answered) == Visible(init, Answered) + [last];
        assert Visible(qs, Unanswered) == Visible(init, Unanswered);
      } else {
        assert CountAnswered(qs) == CountAnswered(init);
        assert Visible(qs, Answered) == Visible(init, Answered);
        assert Visible(qs, Unanswered) == Visible(init, Unanswered) + [last];
      }
    }
  }

  /** The ids of a list of questions. */
  function Ids(qs: seq<QuestionView>): set<nat> {
    if qs == [] then {} else Ids(qs[..|qs| - 1]) + {qs[|qs| - 1].id}
  }

  /**
   * The cards mounted for the visible list: one per listed id; a card whose key was already
   * mounted keeps its state.
   */
  function MountCards(visible: seq<QuestionView>, prev: map<nat, QACard.CardState>): (cards: map<nat, QACard.CardState>)
    ensures cards.Keys == Ids(visible)
    ensures forall id :: id in cards && id in prev ==> cards[id] == prev[id]
  {
    if visible == [] then map[]
    else
      var q := visible[|visible| - 1];
      MountCards(visible[..|visible| - 1], prev)[q.id := if q.id in prev then prev[q.id] else QACard.Mount(q.answer)]
  }

  /** A card that was not mounted before mounts from a visible question with its id. */
  lemma {:induction false} NewCardsMountFromList(visible: seq<QuestionView>, prev: map<nat, QACard.CardState>, id: nat)
    requires id in MountCards(visible, prev) && id !in prev
    ensures exists i :: 0 <= i < |visible| && visible[i].id == id && MountCards(visible, prev)[id] == QACard.Mount(visible[i].answer)
  {
    var init := visible[..|visible| - 1];
    if id != visible[|visible| - 1].id {
      NewCardsMountFromList(init, prev, id);
      var i :| 0 <= i < |init| && init[i].id == id && MountCards(init, prev)[id] == QACard.Mount(init[i].answer);
      assert visible[i] == init[i];
    }
  }

  // ---------------------------------------------------------------------------------------
  // fetchQuestions

  /** The questions call as the page sees it: `success`, the `questions` field (None when absent) and `error`; or a thrown error. */
  datatype QuestionsReply = QuestionsReply(success: bool, questions: Option<seq<QuestionView>>, error: string) | QuestionsThrew

  /** The page once the list is set: count, storage and a card for each visible question. */
  function Loaded(s: Page, qs: seq<QuestionView>): Page {
    var n := CountAnswered(qs);
    s.(questions := qs, answeredCount := n, store := s.store[CountKey := NumberToString(n)],
       cards := MountCards(Visible(qs, s.filter), map[]), loading := false)
  }

  /** fetchQuestions: `signedIn` stands for `user && user.id`. */
  function Fetch(s: Page, signedIn: bool, reply: QuestionsReply): (t: Page)
    requires s.loading && s.error == "" && s.cards == map[]
    ensures !signedIn ==> t == s
    ensures signedIn ==> !t.loading && t.events == s.events && t.filter == s.filter
    ensures signedIn && reply.QuestionsReply? && reply.success && reply.questions.Some? ==>
              && t.error == "" && t.questions == reply.questions.value
              && t.answeredCount == CountAnswered(reply.questions.value)
              && ReadNumber(t.store, CountKey) == t.answeredCount
              && t.store == s.store[CountKey := NumberToString(t.answeredCount)]
              && t.cards.Keys == Ids(Visible(t.questions, t.filter))
    ensures signedIn && reply.QuestionsReply? && !reply.success ==>
              t == s.(error := if reply.error != "" then reply.error else FetchFailedMessage, loading := false)
    ensures signedIn && (reply.QuestionsThrew? || (reply.success && reply.questions.None?)) ==>
              t == s.(error := FetchErrorMessage, loading := false)
  {
    if !signedIn then s
    else match reply
      case QuestionsThrew => s.(error := FetchErrorMessage, loading := false)
      case QuestionsReply(success, questions, error) =>
        if !success then s.(error := if error != "" then error else FetchFailedMessage, loading := false)
        else if questions.None? then s.(error := FetchErrorMessage, loading := false)   // filtering undefined throws
        else
          StoredCountReadsBack(s.store, CountKey, CountAnswered(questions.value));
          Loaded(s, questions.value)
  }

  /** The filter buttons: the list is filtered anew and the cards that leave it unmount. */
  function SetFilter(s: Page, f: Filter): (t: Page)
    requires Showing(s)
    ensures t.filter == f && t.cards.Keys == Ids(Visible(s.questions, f))
    ensures t.(cards := s.cards, filter := s.filter) == s
  {
    s.(filter := f, cards := MountCards(Visible(s.questions, f), s.cards))
  }

  /** handleAnswerGenerated: one more answer, stored and announced. */
  function AnswerGenerated(s: Page): (t: Page)
    ensures t.answeredCount == s.answeredCount + 1
    ensures ReadNumber(t.store, CountKey) == t.answeredCount
    ensures t.events == s.events + [CountEvent]
    ensures t.(answeredCount := s.answeredCount, store := s.store, events := s.events) == s
  {
    var n := s.answeredCount + 1;
    StoredCountReadsBack(s.store, CountKey, n);
    s.(answeredCount := n, store := s.store[CountKey := NumberToString(n)], events := s.events + [CountEvent])
  }

  /** A click on a card's generate button, with the awaited call's outcome: the card updates and, on success, reports to the page. */
  function GenerateOnCard(s: Page, id: nat, result: QACard.GenerateResult): (t: Page)
    requires Showing(s) && id in s.cards && QACard.GenerateEnabled(s.cards[id])
    ensures Showing(t) && t.questions == s.questions && t.filter == s.filter
    ensures t.cards == s.cards[id := QACard.Finish(QACard.Start(s.cards[id]), result, true).card]
    ensures t.answeredCount == s.answeredCount + (if result.Generated? then 1 else 0)
    ensures result.Generated? ==> ReadNumber(t.store, CountKey) == t.answeredCount && t.events == s.events + [CountEvent]
  {
    var f := QACard.Finish(QACard.Start(s.cards[id]), result, true);
    var withCard := s.(cards := s.cards[id := f.card]);
    if f.notified then AnswerGenerated(withCard) else withCard
  }

  // ---------------------------------------------------------------------------------------
  // The corrected page: the generated answer is written into the list and the count recounted

  /** The list with the answer of question `id` replaced. */
  function SetAnswer(qs: seq<QuestionView>, id: nat, a: Option<string>): (r: seq<QuestionView>)
    ensures |r| == |qs|
    ensures forall i :: 0 <= i < |qs| ==> r[i] == if qs[i].id == id then qs[i].(answer := a) else qs[i]
  {
    if qs == [] then []
    else [if qs[0].id == id then qs[0].(answer := a) else qs[0]] + SetAnswer(qs[1..], id, a)
  }

  /** handleAnswerGenerated, corrected: it takes the question and its answer, and recounts the list. */
  function FixedAnswerGenerated(s: Page, id: nat, a: Option<string>): (t: Page)
    ensures t.questions == SetAnswer(s.questions, id, a)
    ensures t.answeredCount == CountAnswered(t.questions)
    ensures ReadNumber(t.store, CountKey) == t.answeredCount
    ensures t.events == s.events + [CountEvent]
    ensures t.(questions := s.questions, answeredCount := s.answeredCount, store := s.store, events := s.events) == s
  {
    var qs := SetAnswer(s.questions, id, a);
    var n := CountAnswered(qs);
    StoredCountReadsBack(s.store, CountKey, n);
    s.(questions := qs, answeredCount := n, store := s.store[CountKey := NumberToString(n)], events := s.events + [CountEvent])
  }

  function FixedGenerateOnCard(s: Page, id: nat, result: QACard.GenerateResult): (t: Page)
    requires Showing(s) && id in s.cards && QACard.GenerateEnabled(s.cards[id])
    ensures Showing(t) && t.filter == s.filter
    ensures t.cards == s.cards[id := QACard.Finish(QACard.Start(s.cards[id]), result, true).card]
    ensures result.Generated? ==> t == FixedAnswerGenerated(s.(cards := t.cards), id, result.answer)
    ensures result.Failed? ==> t == s.(cards := t.cards)
  {
    var f := QACard.Finish(QACard.Start(s.cards[id]), result, true);
    var withCard := s.(cards := s.cards[id := f.card]);
    if f.notified then FixedAnswerGenerated(withCard, id, result.answer) else withCard
  }

  // ---------------------------------------------------------------------------------------
  // Runs of user actions

  /** A user action on the list. */
  datatype Action = PickFilter(f: Filter) | Generate(id: nat, result: QACard.GenerateResult)

  /** The action's control is on screen and enabled. */
  predicate Allowed(s: Page, a: Action) {
    Showing(s) && (a.Generate? ==> a.id in s.cards && QACard.GenerateEnabled(s.cards[a.id]))
  }

  /** One action, on the page as written or on the corrected page. */
  function Step(s: Page, a: Action, fixed: bool): Page
    requires Allowed(s, a)
  {
    match a
    case PickFilter(f) => SetFilter(s, f)
    case Generate(id, result) => if fixed then FixedGenerateOnCard(s, id, result) else GenerateOnCard(s, id, result)
  }

  /** The state after a run of actions, or None if some action was not available. */
  function Run(s: Page, actions: seq<Action>, fixed: bool): Option<Page>
    decreases |actions|
  {
    if actions == [] then Some(s)
    else if !Allowed(s, actions[0]) then None
    else Run(Step(s, actions[0], fixed), actions[1..], fixed)
  }

  /** While the list shows, the count is the list's answered count, and storage holds it. */
  predicate CountInv(s: Page) {
    Showing(s) ==> s.answeredCount == CountAnswered(s.questions) && ReadNumber(s.store, CountKey) == s.answeredCount
  }

  lemma FetchEstablishesCountInv(store: Store, signedIn: bool, reply: QuestionsReply)
    ensures CountInv(Fetch(Initial(store), signedIn, reply))
  {
  }

  /**
   * Corrected, the page never miscounts: after any run of filter changes and generated
   * answers, the count is the number of answered questions in the list (so at most the number
   * of questions, and the size of the 'answered' filter), and storage reads back the same
   * number for the dashboard.
   */
  lemma {:induction false} FixedCountIsExact(s: Page, actions: seq<Action>)
    requires CountInv(s)
    requires Run(s, actions, true).Some?
    ensures var t := Run(s, actions, true).value;
            && CountInv(t)
            && (Showing(t) ==> t.answeredCount <= |t.questions| && t.answeredCount == |Visible(t.questions, Answered)|)
    decreases |actions|
  {
    if actions == [] {
      FilterSizes(s.questions);
    } else {
      FixedCountIsExact(Step(s, actions[0], true), actions[1..]);
    }
  }

  // ---------------------------------------------------------------------------------------
  // The miscount, as written and corrected

  /** A generate click on question `q`'s card whose call returns the answer `a`. */
  function GenerateWith(q: QuestionView, a: string): Action {
    Generate(q.id, QACard.Generated(Some(a)))
  }

  /** Generate, filter on 'answered', back to 'all' ... */
  function Stale(q: QuestionView, a: string): seq<Action> {
    [GenerateWith(q, a), PickFilter(Answered), PickFilter(All)]
  }

  /** ... and generate again. */
  function Trace(q: QuestionView, a: string): seq<Action> {
    Stale(q, a) + [GenerateWith(q, a)]
  }

  /** The page after loading a list that holds the one question `q`. */
  function LoadedWith(store: Store, q: QuestionView): Page {
    Fetch(Initial(store), true, QuestionsReply(true, Some([q]), ""))
  }

  /** The list operations on a one-question list. */
  lemma OneQuestion(q: QuestionView, f: Filter, prev: map<nat, QACard.CardState>)
    ensures Visible([q], f) == if Shows(f, q) then [q] else []
    ensures CountAnswered([q]) == if Truthy(q.answer) then 1 else 0
    ensures MountCards([q], prev) == map[q.id := if q.id in prev then prev[q.id] else QACard.Mount(q.answer)]
  {
    VisibleOne(q, f);
    CountOne(q);
    MountOne(q, prev);
  }

  lemma VisibleOne(q: QuestionView, f: Filter)
    ensures Visible([q], f) == if Shows(f, q) then [q] else []
  {
    assert [q][..0] == [];
    assert Visible([q], f) == Visible([], f) + (if Shows(f, q) then [q] else []);
  }

  lemma CountOne(q: QuestionView)
    ensures CountAnswered([q]) == if Truthy(q.answer) then 1 else 0
  {
    assert [q][..0] == [];
  }

  lemma MountOne(q: QuestionView, prev: map<nat, QACard.CardState>)
    ensures MountCards([q], prev) == map[q.id := if q.id in prev then prev[q.id] else QACard.Mount(q.answer)]
  {
    assert [q][..0] == [];
    assert MountCards([q], prev) == MountCards([], prev)[q.id := if q.id in prev then prev[q.id] else QACard.Mount(q.answer)];
  }

  /** A page loaded with one unanswered question shows it, uncounted, with its generate button enabled. */
  lemma FetchOne(store: Store, q: QuestionView)
    requires !Truthy(q.answer)
    ensures var s0 := LoadedWith(store, q);
            && Showing(s0) && s0.questions == [q] && s0.filter == All && s0.answeredCount == 0
            && s0.cards == map[q.id := QACard.Mount(q.answer)]
            && Allowed(s0, GenerateWith(q, "x"))
  {
    OneQuestion(q, All, map[]);
  }

  /** A question the list still reads as unanswered loses its card under 'answered' and gets a fresh one under 'all'. */
  lemma StaleRemount(s: Page, q: QuestionView)
    requires Showing(s) && s.questions == [q] && !Truthy(q.answer)
    ensures SetFilter(SetFilter(s, Answered), All) == s.(filter := All, cards := map[q.id := QACard.Mount(q.answer)])
  {
    VisibleOne(q, Answered);
    MountOne(q, s.cards);
    var t := SetFilter(s, Answered);
    assert t.cards == map[];
    VisibleOne(q, All);
    MountOne(q, t.cards);
  }

  /** As written, the first generate on the loaded page counts one answer and leaves the list as it was. */
  lemma FirstGenerate(s0: Page, q: QuestionView, a: string) returns (s1: Page)
    requires Showing(s0) && s0.questions == [q] && s0.answeredCount == 0
    requires s0.cards == map[q.id := QACard.Mount(q.answer)] && !Truthy(q.answer)
    ensures Allowed(s0, GenerateWith(q, a)) && s1 == Step(s0, GenerateWith(q, a), false)
    ensures Showing(s1) && s1.answeredCount == 1 && s1.questions == [q]
  {
    s1 := GenerateOnCard(s0, q.id, QACard.Generated(Some(a)));
  }

  /**
   * As written, the count can exceed the number of questions. Generating an answer does not
   * update the page's list, so the question still reads as unanswered there: filtering on
   * 'answered' unmounts its card, 'all' mounts it again without its answer, and generating once
   * more (the backend returns the stored answer) counts the same question a second time.
   * The runs here assume one fetch per mount; in the program the fetch effect also runs after
   * renders and reloads the list with the stored answer, so this trace is a race that ends at
   * the next reload.
   */
  lemma DoubleCount(store: Store, q: QuestionView, a: string)
    requires !Truthy(q.answer)
    ensures var run := Run(LoadedWith(store, q), Trace(q, a), false);
            && run.Some? && run.value.answeredCount == 2 && |run.value.questions| == 1
            && ReadNumber(run.value.store, CountKey) == 2
  {
    var s0 := LoadedWith(store, q);
    var s3 := StaleRunAsWritten(store, q, a);
    RunAppend(s0, Stale(q, a), [GenerateWith(q, a)], false);
    var s4 := GenerateOnCard(s3, q.id, QACard.Generated(Some(a)));
    assert Run(s3, [GenerateWith(q, a)], false) == Some(s4) by {
      assert [GenerateWith(q, a)][1..] == [];
    }
  }

  /** The first three actions as written: one answer counted, and the question's card mounted afresh. */
  lemma StaleRunAsWritten(store: Store, q: QuestionView, a: string) returns (s3: Page)
    requires !Truthy(q.answer)
    ensures Run(LoadedWith(store, q), Stale(q, a), false) == Some(s3)
    ensures Showing(s3) && s3.answeredCount == 1 && s3.questions == [q]
    ensures s3.cards == map[q.id := QACard.Mount(q.answer)]
  {
    var s0 := LoadedWith(store, q);
    FetchOne(store, q);
    var s1 := FirstGenerate(s0, q, a);
    StaleRemount(s1, q);
    s3 := SetFilter(SetFilter(s1, Answered), All);
    RunThree(s0, GenerateWith(q, a), PickFilter(Answered), PickFilter(All), false);
  }

  /** A run of three actions, each available in turn. */
  lemma RunThree(s: Page, a0: Action, a1: Action, a2: Action, fixed: bool)
    requires Allowed(s, a0)
    requires Allowed(Step(s, a0, fixed), a1)
    requires Allowed(Step(Step(s, a0, fixed), a1, fixed), a2)
    ensures Run(s, [a0, a1, a2], fixed) == Some(Step(Step(Step(s, a0, fixed), a1, fixed), a2, fixed))
  {
    var s1 := Step(s, a0, fixed);
    var s2 := Step(s1, a1, fixed);
    assert Run(s2, [a2], fixed) == Some(Step(s2, a2, fixed)) by {
      assert [a2][1..] == [];
    }
    assert Run(s1, [a1, a2], fixed) == Run(s2, [a2], fixed) by {
      assert [a1, a2][1..] == [a2];
    }
    assert [a0, a1, a2][1..] == [a1, a2];
  }

  /** Running two lists of actions one after the other. */
  lemma {:induction false} RunAppend(s: Page, a: seq<Action>, b: seq<Action>, fixed: bool)
    ensures Run(s, a + b, fixed) == if Run(s, a, fixed).Some? then Run(Run(s, a, fixed).value, b, fixed) else None
    decreases |a|
  {
    if a != [] {
      assert (a + b)[0] == a[0] && (a + b)[1..] == a[1..] + b;
      if Allowed(s, a[0]) {
        RunAppend(Step(s, a[0], fixed), a[1..], b, fixed);
      }
    } else {
      assert a + b == b;
    }
  }

  /**
   * Corrected, the same run counts the question once, and the card that mounts again under
   * 'all' already carries its answer, so the second generate click is not available.
   */
  lemma DoubleCountFixed(store: Store, q: QuestionView, a: string)
    requires !Truthy(q.answer) && a != ""
    ensures var run := Run(LoadedWith(store, q), Stale(q, a), true);
            && run.Some? && run.value.answeredCount == 1 && |run.value.questions| == 1
            && !Allowed(run.value, GenerateWith(q, a))
  {
    var s0 := LoadedWith(store, q);
    FetchOne(store, q);
    var s1 := FixedFirstGenerate(s0, q, a);
    AnsweredStays(s1, s1.questions[0]);
    var s2 := SetFilter(s1, Answered);
    var s3 := SetFilter(s2, All);
    assert s3 == s1.(filter := All);
    assert Step(s1, PickFilter(Answered), true) == s2;
    assert Step(s2, PickFilter(All), true) == s3;
    RunThree(s0, GenerateWith(q, a), PickFilter(Answered), PickFilter(All), true);
    assert Stale(q, a) == [GenerateWith(q, a), PickFilter(Answered), PickFilter(All)];
    assert Run(s0, Stale(q, a), true) == Some(s3);
    assert s3.cards[q.id] == s1.cards[q.id];
    assert !QACard.GenerateEnabled(s3.cards[q.id]);
  }

  /** Corrected, the first generate records the answer in the list. */
  lemma FixedFirstGenerate(s0: Page, q: QuestionView, a: string) returns (s1: Page)
    requires Showing(s0) && s0.questions == [q] && s0.cards == map[q.id := QACard.Mount(q.answer)]
    requires !Truthy(q.answer) && a != ""
    ensures Allowed(s0, GenerateWith(q, a)) && s1 == Step(s0, GenerateWith(q, a), true)
    ensures Showing(s1) && s1.answeredCount == 1 && |s1.questions| == 1 && Truthy(s1.questions[0].answer)
    ensures s1.questions[0].id == q.id && s1.cards.Keys == {q.id} && Truthy(s1.cards[q.id].answer)
  {
    assert Allowed(s0, GenerateWith(q, a)) by {
      assert QACard.GenerateEnabled(s0.cards[q.id]);
    }
    s1 := FixedGenerateOnCard(s0, q.id, QACard.Generated(Some(a)));
    assert Step(s0, GenerateWith(q, a), true) == s1;
    assert s1.cards.Keys == {q.id} && Truthy(s1.cards[q.id].answer) by {
      var card := FinishedCard(q.answer, a);
      assert s1.cards[q.id] == card;
      assert s1.cards.Keys == s0.cards.Keys + {q.id};
    }
    assert s1.questions == [q.(answer := Some(a))] && s1.answeredCount == 1 by {
      var q' := q.(answer := Some(a));
      assert s1.questions == SetAnswer([q], q.id, Some(a));
      assert SetAnswer([q], q.id, Some(a))[0] == q';
      CountOne(q');
    }
  }

  /** A fresh card whose generate call returns the non-empty answer `a` holds it and notifies the page. */
  function FinishedCard(answer: Option<string>, a: string): (c: QACard.CardState)
    requires !Truthy(answer) && a != ""
    ensures var f := QACard.Finish(QACard.Start(QACard.Mount(answer)), QACard.Generated(Some(a)), true);
            f.notified && c == f.card && Truthy(c.answer)
  {
    QACard.Finish(QACard.Start(QACard.Mount(answer)), QACard.Generated(Some(a)), true).card
  }

  /** A single answered question keeps its card through the 'answered' and 'all' filters. */
  lemma AnsweredStays(s: Page, q: QuestionView)
    requires Showing(s) && s.questions == [q] && Truthy(q.answer) && s.cards.Keys == {q.id}
    ensures SetFilter(SetFilter(s, Answered), All) == s.(filter := All)
  {
    VisibleOne(q, Answered);
    MountOne(q, s.cards);
    var t := SetFilter(s, Answered);
    assert t.cards == s.cards;
    VisibleOne(q, All);
    MountOne(q, t.cards);
  }

  // ---------------------------------------------------------------------------------------
  // Against the backend

  /** How the page reads a backend reply. */
  function QuestionsReplyOf(reply: Option<Backend.Body>): QuestionsReply {
    match reply
    case None => QuestionsThrew
    case Some(body) =>
      if body.QuestionsBody? then QuestionsReply(true, Some(body.questions), "")
      else QuestionsReply(Client.SuccessField(body), None, if body.ErrorBody? then body.error else "")
  }

  /**
   * Against the backend: a known user sees exactly their role questions in row order, with the
   * count of those already answered, which storage then holds; for an unknown user the call
   * throws and the page shows the generic error.
   */
  lemma FetchFromBackend(db: Backend.Db, id: string, store: Store)
    requires id != ""
    ensures var t := Fetch(Initial(store), true, QuestionsReplyOf(Client.Receive(Backend.GetQuestions(db, "role", Some(id)))));
            && (id in db.users ==>
                  && t.error == "" && t.questions == Backend.Matching(db.questions, id, "role")
                  && t.answeredCount == CountAnswered(t.questions)
                  && ReadNumber(t.store, CountKey) == t.answeredCount)
            && (id !in db.users ==> t.error == FetchErrorMessage && t.questions == [])
  {
  }
}

/** The page's state as a component object whose handlers update it in place. */
module RoleQAComponent {
  import opened Storage
  import QACard
  import opened RoleQA

  class RoleQAPage {
    var questions: seq<QuestionView>
    var loading: bool
    var error: string
    var answeredCount: nat
    var filter: Filter
    var cards: map<nat, QACard.CardState>
    var store: Store
    var events: seq<string>

    function State(): Page
      reads this
    {
      Page(questions, loading, error, answeredCount, filter, cards, store, events)
    }

    constructor (storage: Store)
      ensures State() == Initial(storage)
    {
      questions, loading, error, answeredCount := [], true, "", 0;
      filter, cards, store, events := All, map[], storage, [];
    }

    method FetchQuestions(signedIn: bool, reply: QuestionsReply)
      requires loading && error == "" && cards == map[]
      modifies this
      ensures State() == Fetch(old(State()), signedIn, reply)
    {
      if !signedIn {
        return;
      }
      ghost var before := State();
      match reply {
        case QuestionsThrew =>
          error := FetchErrorMessage;
        case QuestionsReply(success, qs, message) =>
          if !success {
            error := if message != "" then message else FetchFailedMessage;
          } else if qs.None? {
            error := FetchErrorMessage;
          } else {
            questions := qs.value;
            var initialAnsweredCount := CountAnswered(qs.value);
            answeredCount := initialAnsweredCount;
            store := store[CountKey := NumberToString(initialAnsweredCount)];
            cards := MountCards(Visible(questions, filter), map[]);
            assert State().(loading := false) == Loaded(before, qs.value);
          }
      }
      loading := false;
    }

    method HandleAnswerGenerated()
      modifies this
      ensures State() == AnswerGenerated(old(State()))
    {
      var newCount := answeredCount + 1;
      answeredCount := newCount;
      store := store[CountKey := NumberToString(newCount)];
      events := events + [CountEvent];
    }

    method SetFilter(f: Filter)
      requires Showing(State())
      modifies this
      ensures State() == RoleQA.SetFilter(old(State()), f)
    {
      filter := f;
      cards := MountCards(Visible(questions, f), cards);
    }
  }
}
