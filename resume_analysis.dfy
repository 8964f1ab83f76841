/**
 * The résumé analysis page (frontend/src/pages/ResumeAnalysis.js): it fetches the analysis,
 * polls every few seconds while the backend reports it pending, and shows the score with the
 * first four strengths and improvements, or all of them on request.
 */
module ResumeAnalysis {
  import opened Wrappers
  import Backend
  import Client

  type AnalysisView = Backend.AnalysisView

  /** The page's state; `polling` is true while the interval is set. */
  datatype PageState = PageState(
    analysis: Option<AnalysisView>, loading: bool, error: string,
    showAllStrengths: bool, showAllImprovements: bool, polling: bool)

  const Initial := PageState(None, true, "", false, false, false)

  const FetchFailedMessage := "Failed to fetch resume analysis."
  const FetchErrorMessage := "An error occurred while fetching the analysis."

  /**
   * The analysis call as the page sees it: `success`, whether `status` is 'pending', the
   * `analysis` field (None when absent) and the `error` text; or a thrown error.
   */
  datatype AnalysisReply = AnalysisReply(success: bool, pending: bool, analysis: Option<AnalysisView>, error: string) | AnalysisThrew

  /** The state once a reply that is not pending has been read. */
  function Settle(s: PageState, success: bool, analysis: Option<AnalysisView>, error: string): (t: PageState)
    ensures !t.loading && !t.polling
    ensures success && analysis.Some? ==> t.analysis == analysis && t.error == s.error
    ensures !(success && analysis.Some?) ==>
              t.analysis == s.analysis && t.error == (if error != "" then error else FetchFailedMessage)
    ensures t.showAllStrengths == s.showAllStrengths && t.showAllImprovements == s.showAllImprovements
  {
    if success && analysis.Some? then s.(analysis := analysis, loading := false, polling := false)
    else s.(error := if error != "" then error else FetchFailedMessage, loading := false, polling := false)
  }

  /** fetchAnalysis: `signedIn` stands for `user && user.id`. */
  function Fetch(s: PageState, signedIn: bool, reply: AnalysisReply): (t: PageState)
    requires s.loading && !s.polling
    ensures !signedIn ==> t == s
    ensures signedIn && reply.AnalysisThrew? ==> t == s.(error := FetchErrorMessage, loading := false)
    ensures signedIn && reply.AnalysisReply? && reply.pending ==> t == s.(polling := true)
    ensures signedIn && reply.AnalysisReply? && !reply.pending ==>
              t == Settle(s, reply.success, reply.analysis, reply.error)
    ensures signedIn ==> (t.loading <==> t.polling)
  {
    if !signedIn then s
    else match reply
      case AnalysisThrew => s.(error := FetchErrorMessage, loading := false)
      case AnalysisReply(success, pending, analysis, error) =>
        if pending then s.(polling := true)
        else Settle(s, success, analysis, error)
  }

  /**
   * One interval callback, as written: a reply that is not pending stops the interval and
   * settles the page; a pending one waits for the next tick. A thrown call is not caught: the
   * rejection is dropped and the interval keeps running, with the page unchanged.
   */
  function Tick(s: PageState, reply: AnalysisReply): (t: PageState)
    requires s.polling
    ensures reply.AnalysisThrew? ==> t == s
    ensures reply.AnalysisReply? && reply.pending ==> t == s
    ensures reply.AnalysisReply? && !reply.pending ==> t == Settle(s, reply.success, reply.analysis, reply.error)
  {
    match reply
    case AnalysisThrew => s
    case AnalysisReply(success, pending, analysis, error) =>
      if pending then s else Settle(s, success, analysis, error)
  }

  /** One interval callback, corrected: a thrown call also stops the interval and shows the fetch error. */
  function FixedTick(s: PageState, reply: AnalysisReply): (t: PageState)
    requires s.polling
    ensures reply.AnalysisThrew? ==> t == s.(error := FetchErrorMessage, loading := false, polling := false)
    ensures reply.AnalysisReply? ==> t == Tick(s, reply)
    ensures !(reply.AnalysisReply? && reply.pending) ==> !t.loading && !t.polling
  {
    match reply
    case AnalysisThrew => s.(error := FetchErrorMessage, loading := false, polling := false)
    case AnalysisReply(_, _, _, _) => Tick(s, reply)
  }

  /** `n` ticks of the interval, all answered with `reply`, as written or corrected. */
  function Ticks(s: PageState, reply: AnalysisReply, n: nat, fixed: bool): PageState
    decreases n
  {
    if n == 0 || !s.polling then s
    else Ticks(if fixed then FixedTick(s, reply) else Tick(s, reply), reply, n - 1, fixed)
  }

  /** The spinner shows exactly while the interval runs, once the first reply has been read. */
  predicate PollInv(s: PageState) {
    s.loading <==> s.polling
  }

  lemma {:induction false} TicksKeepPollInv(s: PageState, reply: AnalysisReply, n: nat, fixed: bool)
    requires PollInv(s)
    ensures PollInv(Ticks(s, reply, n, fixed))
    decreases n
  {
    if n > 0 && s.polling {
      TicksKeepPollInv(if fixed then FixedTick(s, reply) else Tick(s, reply), reply, n - 1, fixed);
    }
  }

  /** A tick that changes nothing is repeated forever. */
  lemma {:induction false} TicksAtFixedPoint(s: PageState, reply: AnalysisReply, n: nat)
    requires s.polling && Tick(s, reply) == s
    ensures Ticks(s, reply, n, false) == s
    decreases n
  {
    if n > 0 {
      TicksAtFixedPoint(s, reply, n - 1);
    }
  }

  // ---------------------------------------------------------------------------------------
  // The two lists

  /** A list as rendered: its first four items, or all of them. */
  function Shown(items: seq<string>, showAll: bool): (v: seq<string>)
    ensures showAll ==> v == items
    ensures !showAll ==> |v| == (if |items| < 4 then |items| else 4) && v == items[..|v|]
  {
    if showAll || |items| <= 4 then items else items[..4]
  }

  /** The Show More / Show Less button exists exactly when the collapsed list hides something. */
  predicate HasToggle(items: seq<string>) {
    |items| > 4
  }

  lemma ToggleMatters(items: seq<string>)
    ensures HasToggle(items) <==> Shown(items, false) != Shown(items, true)
  {
    if HasToggle(items) {
      assert |Shown(items, false)| < |Shown(items, true)|;
    }
  }

  function ToggleStrengths(s: PageState): (t: PageState)
    ensures t == s.(showAllStrengths := !s.showAllStrengths)
  {
    s.(showAllStrengths := !s.showAllStrengths)
  }

  function ToggleImprovements(s: PageState): (t: PageState)
    ensures t == s.(showAllImprovements := !s.showAllImprovements)
  {
    s.(showAllImprovements := !s.showAllImprovements)
  }

  datatype View =
    | Spinner
    | ErrorMessage(error: string)
    | Report(score: Option<int>, strengths: seq<string>, improvements: seq<string>)
    | NoAnalysis

  /** What the page renders. */
  function Screen(s: PageState): View {
    if s.loading then Spinner
    else if s.error != "" then ErrorMessage(s.error)
    else if s.analysis.Some? then
      Report(s.analysis.value.score, Shown(s.analysis.value.strengths, s.showAllStrengths),
             Shown(s.analysis.value.improvements, s.showAllImprovements))
    else NoAnalysis
  }

  /** Once settled, the page always shows the analysis or an error: the empty placeholder is never reached. */
  lemma SettledPageShowsSomething(reply: AnalysisReply, replies: AnalysisReply, n: nat, fixed: bool)
    ensures var t := Ticks(Fetch(Initial, true, reply), replies, n, fixed);
            Screen(t) != NoAnalysis
  {
    var s := Fetch(Initial, true, reply);
    TicksNeverEmpty(s, replies, n, fixed);
  }

  predicate Filled(s: PageState) {
    s.loading || s.error != "" || s.analysis.Some?
  }

  lemma {:induction false} TicksNeverEmpty(s: PageState, reply: AnalysisReply, n: nat, fixed: bool)
    requires Filled(s)
    ensures Filled(Ticks(s, reply, n, fixed))
    decreases n
  {
    if n > 0 && s.polling {
      TicksNeverEmpty(if fixed then FixedTick(s, reply) else Tick(s, reply), reply, n - 1, fixed);
    }
  }

  // ---------------------------------------------------------------------------------------
  // Against the backend

  function AnalysisReplyOf(reply: Option<Backend.Body>): AnalysisReply {
    match reply
    case None => AnalysisThrew
    case Some(body) =>
      if body.AnalysisPendingBody? then AnalysisReply(true, true, None, "")
      else if body.AnalysisBody? then AnalysisReply(true, false, Some(body.analysis), "")
      else AnalysisReply(Client.SuccessField(body), false, None, if body.ErrorBody? then body.error else "")
  }

  /** The page's reply to a request for the user's analysis. */
  function Asked(db: Backend.Db, id: string): AnalysisReply {
    AnalysisReplyOf(Client.Receive(Backend.GetResumeAnalysis(db, Some(id)).response))
  }

  /**
   * A first visit starts the interval, and when the background analysis succeeds the next tick
   * shows its score, strengths and improvements and stops the interval.
   */
  lemma CompletedAnalysisShown(db: Backend.Db, id: string, result: Backend.AnalysisResult, fixed: bool)
    requires id != "" && id in db.users && Backend.AnalysisState(db, id).None? && Backend.CanAnalyse(db.users[id])
    ensures var first := Backend.GetResumeAnalysis(db, Some(id));
            var s0 := Fetch(Initial, true, AnalysisReplyOf(Client.Receive(first.response)));
            var after := Backend.ProcessResumeAnalysis(first.db, id, Some(result));
            var t := Ticks(s0, Asked(after, id), 1, fixed);
            && s0.polling && Screen(s0) == Spinner
            && !t.polling && Screen(t) == Report(result.score, Shown(result.strongPoints, false), Shown(result.improvements, false))
  {
    Backend.ResumeAnalysisLifecycle(db, id, Some(result));
  }

  /**
   * As written, a failed analysis spins forever: the backend answers it with a 500, so every
   * tick's call throws, the callback never reaches clearInterval, and after any number of
   * ticks the page still shows the spinner.
   */
  lemma FailedAnalysisSpins(db: Backend.Db, id: string, result: Option<Backend.AnalysisResult>, n: nat)
    requires id != "" && id in db.users && Backend.AnalysisState(db, id).None?
    requires !(Backend.CanAnalyse(db.users[id]) && result.Some?)
    ensures var first := Backend.GetResumeAnalysis(db, Some(id));
            var s0 := Fetch(Initial, true, AnalysisReplyOf(Client.Receive(first.response)));
            var after := Backend.ProcessResumeAnalysis(first.db, id, result);
            var t := Ticks(s0, Asked(after, id), n, false);
            t == s0 && t.polling && Screen(t) == Spinner
  {
    Backend.ResumeAnalysisLifecycle(db, id, result);
    var first := Backend.GetResumeAnalysis(db, Some(id));
    var s0 := Fetch(Initial, true, AnalysisReplyOf(Client.Receive(first.response)));
    var after := Backend.ProcessResumeAnalysis(first.db, id, result);
    TicksAtFixedPoint(s0, Asked(after, id), n);
  }

  /** Corrected, the first tick after a failed analysis stops the interval and shows the error. */
  lemma FailedAnalysisSettlesFixed(db: Backend.Db, id: string, result: Option<Backend.AnalysisResult>, n: nat)
    requires id != "" && id in db.users && Backend.AnalysisState(db, id).None?
    requires !(Backend.CanAnalyse(db.users[id]) && result.Some?)
    requires n >= 1
    ensures var first := Backend.GetResumeAnalysis(db, Some(id));
            var s0 := Fetch(Initial, true, AnalysisReplyOf(Client.Receive(first.response)));
            var after := Backend.ProcessResumeAnalysis(first.db, id, result);
            var t := Ticks(s0, Asked(after, id), n, true);
            !t.polling && Screen(t) == ErrorMessage(FetchErrorMessage)
  {
    Backend.ResumeAnalysisLifecycle(db, id, result);
  }

  /** A later visit after a failed analysis gets the 500 at once, and the page shows the fetch error. */
  lemma RevisitAfterFailure(db: Backend.Db, id: string, result: Option<Backend.AnalysisResult>)
    requires id != "" && id in db.users && Backend.AnalysisState(db, id).None?
    requires !(Backend.CanAnalyse(db.users[id]) && result.Some?)
    ensures var first := Backend.GetResumeAnalysis(db, Some(id));
            var after := Backend.ProcessResumeAnalysis(first.db, id, result);
            Screen(Fetch(Initial, true, Asked(after, id))) == ErrorMessage(FetchErrorMessage)
  {
    Backend.ResumeAnalysisLifecycle(db, id, result);
  }
}

/** The page's state as a component object whose effect and interval update it in place. */
module ResumeAnalysisComponent {
  import opened Wrappers
  import opened ResumeAnalysis

  class AnalysisPage {
    var analysis: Option<AnalysisView>
    var loading: bool
    var error: string
    var showAllStrengths: bool
    var showAllImprovements: bool
    var polling: bool

    function State(): PageState
      reads this
    {
      PageState(analysis, loading, error, showAllStrengths, showAllImprovements, polling)
    }

    constructor ()
      ensures State() == Initial
    {
      analysis, loading, error := None, true, "";
      showAllStrengths, showAllImprovements, polling := false, false, false;
    }

    method SettleWith(success: bool, result: Option<AnalysisView>, message: string)
      modifies this
      ensures State() == Settle(old(State()), success, result, message)
    {
      polling := false;
      if success && result.Some? {
        analysis := result;
      } else {
        error := if message != "" then message else FetchFailedMessage;
      }
      loading := false;
    }

    method FetchAnalysis(signedIn: bool, reply: AnalysisReply)
      requires loading && !polling
      modifies this
      ensures State() == Fetch(old(State()), signedIn, reply)
    {
      if !signedIn {
        return;
      }
      match reply {
        case AnalysisThrew =>
          error := FetchErrorMessage;
          loading := false;
        case AnalysisReply(success, pending, result, message) =>
          if pending {
            polling := true;
          } else {
            SettleWith(success, result, message);
          }
      }
    }

    /** The interval callback as written. */
    method OnInterval(reply: AnalysisReply)
      requires polling
      modifies this
      ensures State() == Tick(old(State()), reply)
    {
      match reply {
        case AnalysisThrew =>
        case AnalysisReply(success, pending, result, message) =>
          if !pending {
            SettleWith(success, result, message);
          }
      }
    }

    method ToggleShowAllStrengths()
      modifies this
      ensures State() == ToggleStrengths(old(State()))
    {
      showAllStrengths := !showAllStrengths;
    }

    method ToggleShowAllImprovements()
      modifies this
      ensures State() == ToggleImprovements(old(State()))
    {
      showAllImprovements := !showAllImprovements;
    }
  }
}
