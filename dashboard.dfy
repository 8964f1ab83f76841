/**
 * The dashboard (frontend/src/pages/Dashboard.js): on mount it records the session start,
 * reads the stored time and answered counts, listens for the pages' count events, sets the
 * area to improve after a delay, and asks the backend for the résumé score.
 */
module Dashboard {
  import opened Wrappers
  import opened Storage
  import Backend
  import Client
  import RoleQA

  datatype Counts = Counts(resume: int, role: int, company: int)

  /** The dashboard's state; `listening` holds the window events it has handlers for. */
  datatype DashState = DashState(
    counts: Counts, timeSpent: int, areaToImprove: string, resumeScore: Option<int>, listening: set<string>)

  const Initial := DashState(Counts(0, 0, 0), 0, "", Some(0), {})

  const ResumeCountKey := "resumeAnsweredCount"
  const RoleCountKey := "roleAnsweredCount"
  const CompanyCountKey := "companyAnsweredCount"
  const TimeKey := "totalTimeSpent"
  const StartKey := "sessionStartTime"

  const CountEvents: set<string> := {"resumeAnsweredCountUpdated", "roleAnsweredCountUpdated", "companyAnsweredCountUpdated"}

  const ImprovementArea := "Technical Skills"

  /** updateQuestionCounts: the three counters as stored, each falling back to 0. */
  function ReadCounts(store: Store): (c: Counts)
    ensures c.resume == ReadNumber(store, ResumeCountKey)
    ensures c.role == ReadNumber(store, RoleCountKey)
    ensures c.company == ReadNumber(store, CompanyCountKey)
  {
    Counts(ReadNumber(store, ResumeCountKey), ReadNumber(store, RoleCountKey), ReadNumber(store, CompanyCountKey))
  }

  /** The dashboard after mounting, and the storage after it has recorded the start time. */
  datatype Mounted = Mounted(dash: DashState, store: Store)

  /** The mount effect up to the score request; `now` is Date.now(). */
  function Mount(s: DashState, store: Store, now: nat): (m: Mounted)
    ensures m.store == store[StartKey := NumberToString(now)]
    ensures m.dash.timeSpent == ReadNumber(store, TimeKey)
    ensures m.dash.counts == ReadCounts(m.store)
    ensures m.dash.listening == CountEvents
    ensures m.dash.areaToImprove == s.areaToImprove && m.dash.resumeScore == s.resumeScore
  {
    var store' := store[StartKey := NumberToString(now)];
    assert ReadNumber(store', TimeKey) == ReadNumber(store, TimeKey);
    Mounted(s.(timeSpent := ReadNumber(store', TimeKey), counts := ReadCounts(store'), listening := CountEvents), store')
  }

  /** Recording the start time does not disturb the counters it reads right after. */
  lemma MountReadsStoredCounts(store: Store, now: nat)
    ensures Mount(Initial, store, now).dash.counts == ReadCounts(store)
  {
  }

  /** A window event: the dashboard re-reads every counter when it listens for the event. */
  function OnEvent(s: DashState, store: Store, event: string): (t: DashState)
    ensures event in s.listening ==> t == s.(counts := ReadCounts(store))
    ensures event !in s.listening ==> t == s
  {
    if event in s.listening then s.(counts := ReadCounts(store)) else s
  }

  /** The one-second timer. */
  function AreaTimer(s: DashState): (t: DashState)
    ensures t == s.(areaToImprove := ImprovementArea)
  {
    s.(areaToImprove := ImprovementArea)
  }

  /** The cleanup: every handler is removed, so later events change nothing. */
  function Unmount(s: DashState): (t: DashState)
    ensures t == s.(listening := {})
    ensures forall store: Store, event: string :: OnEvent(t, store, event) == t
  {
    s.(listening := {})
  }

  /** The score call as the page sees it: `success` and the `analysis` field (None when absent), or a thrown error. */
  datatype ScoreReply = ScoreReply(success: bool, analysis: Option<Backend.AnalysisView>) | ScoreThrew

  /** fetchResumeScore: a successful reply with an analysis sets its score; anything else leaves the score as it was. */
  function ScoreFetched(s: DashState, reply: ScoreReply): (t: DashState)
    ensures reply.ScoreReply? && reply.success && reply.analysis.Some? ==> t == s.(resumeScore := reply.analysis.value.score)
    ensures !(reply.ScoreReply? && reply.success && reply.analysis.Some?) ==> t == s
  {
    match reply
    case ScoreThrew => s
    case ScoreReply(success, analysis) =>
      if !success then s
      else if analysis.None? then s   // reading .score of undefined throws, and the catch ignores it
      else s.(resumeScore := analysis.value.score)
  }

  // ---------------------------------------------------------------------------------------
  // Against the other pages and the backend

  /**
   * A generated answer on the role page reaches a mounted dashboard: the event it dispatches
   * makes the dashboard read back the new count, and only the role counter changes.
   */
  lemma RoleAnswerReachesDashboard(page: RoleQA.Page, s: DashState)
    requires s.listening == CountEvents
    ensures var t := RoleQA.AnswerGenerated(page);
            var d := OnEvent(s, t.store, t.events[|t.events| - 1]);
            && d.counts.role == page.answeredCount + 1
            && d.counts.resume == ReadNumber(page.store, ResumeCountKey)
            && d.counts.company == ReadNumber(page.store, CompanyCountKey)
  {
  }

  /** After the role page has loaded its questions from the backend, a freshly mounted dashboard shows their answered count. */
  lemma DashboardShowsRoleCount(db: Backend.Db, id: string, store: Store, now: nat)
    requires id != "" && id in db.users
    ensures var page := RoleQA.Fetch(RoleQA.Initial(store), true,
                                     RoleQA.QuestionsReplyOf(Client.Receive(Backend.GetQuestions(db, "role", Some(id)))));
            Mount(Initial, page.store, now).dash.counts.role
              == RoleQA.CountAnswered(Backend.Matching(db.questions, id, "role"))
  {
    var page := RoleQA.Fetch(RoleQA.Initial(store), true,
                             RoleQA.QuestionsReplyOf(Client.Receive(Backend.GetQuestions(db, "role", Some(id)))));
    RoleQA.FetchFromBackend(db, id, store);
    var store' := page.store[StartKey := NumberToString(now)];
    assert GetItem(store', RoleCountKey) == GetItem(page.store, RoleQA.CountKey);
    assert Mount(Initial, page.store, now).dash.counts.role == ReadNumber(page.store, RoleQA.CountKey);
  }

  function ScoreReplyOf(reply: Option<Backend.Body>): ScoreReply {
    match reply
    case None => ScoreThrew
    case Some(body) =>
      if body.AnalysisBody? then ScoreReply(true, Some(body.analysis))
      else ScoreReply(Client.SuccessField(body), None)
  }

  /**
   * Against the backend: the score appears exactly when the user's latest analysis is
   * completed, and is its score; a pending, failed or missing analysis leaves the score as it
   * was, and a first request starts the analysis job.
   */
  lemma ScoreFromBackend(db: Backend.Db, id: string, s: DashState)
    requires id != "" && id in db.users
    ensures var out := Backend.GetResumeAnalysis(db, Some(id));
            var t := ScoreFetched(s, ScoreReplyOf(Client.Receive(out.response)));
            && (Backend.AnalysisState(db, id) == Some(Backend.Completed) ==>
                  t == s.(resumeScore := db.analyses[Backend.LatestAnalysis(db.analyses, id).value].score))
            && (Backend.AnalysisState(db, id) != Some(Backend.Completed) ==> t == s)
            && (Backend.AnalysisState(db, id).None? ==> out.job == Backend.ResumeAnalysisJob(id))
  {
  }
}

/** The dashboard's state as a component object whose effect and handlers update it in place. */
module DashboardComponent {
  import opened Wrappers
  import opened Storage
  import opened Dashboard

  class DashboardPage {
    var questionCounts: Counts
    var timeSpent: int
    var areaToImprove: string
    var resumeScore: Option<int>
    var listening: set<string>

    function State(): DashState
      reads this
    {
      DashState(questionCounts, timeSpent, areaToImprove, resumeScore, listening)
    }

    constructor ()
      ensures State() == Initial
    {
      questionCounts, timeSpent, areaToImprove, resumeScore, listening := Counts(0, 0, 0), 0, "", Some(0), {};
    }

    /** The mount effect; returns the storage after it, with the start time recorded. */
    method MountEffect(store: Store, now: nat) returns (store': Store)
      modifies this
      ensures Mounted(State(), store') == Mount(old(State()), store, now)
    {
      store' := store[StartKey := NumberToString(now)];
      timeSpent := ReadNumber(store', TimeKey);
      UpdateQuestionCounts(store');
      listening := CountEvents;
    }

    method UpdateQuestionCounts(store: Store)
      modifies this
      ensures State() == old(State()).(counts := ReadCounts(store))
    {
      var storedResumeCount := ReadNumber(store, ResumeCountKey);
      var storedRoleCount := ReadNumber(store, RoleCountKey);
      var storedCompanyCount := ReadNumber(store, CompanyCountKey);
      questionCounts := Counts(storedResumeCount, storedRoleCount, storedCompanyCount);
    }

    method HandleEvent(store: Store, event: string)
      modifies this
      ensures State() == OnEvent(old(State()), store, event)
    {
      if event in listening {
        UpdateQuestionCounts(store);
      }
    }

    method OnAreaTimer()
      modifies this
      ensures State() == AreaTimer(old(State()))
    {
      areaToImprove := ImprovementArea;
    }

    method FetchResumeScore(reply: ScoreReply)
      modifies this
      ensures State() == ScoreFetched(old(State()), reply)
    {
      match reply {
        case ScoreThrew =>
        case ScoreReply(success, analysis) =>
          if success && analysis.Some? {
            resumeScore := analysis.value.score;
          }
      }
    }

    method Cleanup()
      modifies this
      ensures State() == Unmount(old(State()))
    {
      listening := {};
    }
  }
}
