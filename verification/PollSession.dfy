/** One `translate()` call of `apps/web/src/api.ts`: a POST, a poll loop driven by timers and fetch continuations, an
    overall timeout and `cancelTranslate()`.  The browser is part of the state: `waiting` holds the continuations of
    fetches and body reads, `armed` the timers that have not fired or been cleared.  Assumed of the browser: a timer
    fires no later than it is due, and a fetch rejects with an AbortError only after `abort()`. */
module PollSession {
  import opened Options

  const TIMEOUT_MS := 120_000
  const POLL_INTERVAL_MS := 2_000
  const MAX_CONSECUTIVE_POLL_FAILURES := 3

  /** The id of the overall timer, which is set before any other. */
  const OVERALL := 0

  datatype Job = SucceededJob(translation: string) | FailedJob(statusCode: int) | OtherJob
  datatype Outcome =
    | Translated(translation: string) | NetworkError | TimeoutError | HttpError(status: int) | JobNotFound | Cancelled
  datatype Settlement = Settlement(outcome: Outcome, at: int)
  datatype Request = Post | Get(id: string)
  datatype Waiting = PostFetch | PostJson | GetFetch(id: string) | GetJson(id: string)
  datatype Timer = Overall(at: int) | PollAgain(id: string, at: int)

  /** What the session has heard while it was live, oldest first. */
  datatype Heard =
    | PostFailed | PostStatus(status: int) | PostCreated(id: string)
    | GetFailed | GetStatus(status: int) | GetBody(job: Job)
    | UnreadableBody | TimedOut | CancelledByUser

  /** `requests`, `heard` with the time of its last entry, and `outcomes` are the history. */
  datatype State = State(
    settled: bool, aborted: bool, timers: set<nat>, failures: nat, nextTimer: nat,
    armed: map<nat, Timer>, waiting: seq<Waiting>,
    requests: seq<Request>, heard: seq<Heard>, heardAt: int, outcomes: seq<Settlement>, start: int, now: int)

  predicate Ok(status: int) {
    200 <= status <= 299
  }

  // ------------------------------------------------------------- the source's closures

  function Start(now: int): State {
    State(false, false, {OVERALL}, 0, OVERALL + 1, map[OVERALL := Overall(now + TIMEOUT_MS)], [PostFetch], [Post],
          [], now, [], now, now)
  }

  function Hear(s: State, h: Heard): State {
    if s.settled then s else s.(heard := s.heard + [h], heardAt := s.now)
  }

  function Settle(s: State, outcome: Outcome): State {
    if s.settled then s
    else s.(settled := true, armed := s.armed - s.timers, timers := {},
            outcomes := s.outcomes + [Settlement(outcome, s.now)])
  }

  function SchedulePoll(s: State, id: string): State {
    if s.settled then s
    else s.(armed := s.armed[s.nextTimer := PollAgain(id, s.now + POLL_INTERVAL_MS)],
            timers := s.timers + {s.nextTimer}, nextTimer := s.nextTimer + 1)
  }

  function Poll(s: State, id: string): State {
    if s.settled then s else s.(requests := s.requests + [Get(id)], waiting := s.waiting + [GetFetch(id)])
  }

  function PollRejected(s: State, id: string, abort: bool): State {
    if abort then s
    else
      var s1 := Hear(s, GetFailed).(failures := s.failures + 1);
      if s1.failures >= MAX_CONSECUTIVE_POLL_FAILURES then Settle(s1, NetworkError) else SchedulePoll(s1, id)
  }

  function PollResponded(s: State, id: string, status: int): State {
    var s1 := Hear(s, GetStatus(status));
    if status == 404 then Settle(s1, JobNotFound)
    else if !Ok(status) then Settle(s1, HttpError(status))
    else s1.(failures := 0, waiting := s1.waiting + [GetJson(id)])
  }

  function PollRead(s: State, id: string, job: Job): State {
    var s1 := Hear(s, GetBody(job));
    match job
    case SucceededJob(translation) => Settle(s1, Translated(translation))
    case FailedJob(statusCode) => Settle(s1, HttpError(statusCode))
    case OtherJob => SchedulePoll(s1, id)
  }

  function PostRejected(s: State, abort: bool): State {
    if abort then s else Settle(Hear(s, PostFailed), NetworkError)
  }

  function PostResponded(s: State, status: int): State {
    var s1 := Hear(s, PostStatus(status));
    if !Ok(status) then Settle(s1, HttpError(status)) else s1.(waiting := s1.waiting + [PostJson])
  }

  function PostRead(s: State, id: string): State {
    Poll(Hear(s, PostCreated(id)), id)
  }

  function TimeOut(s: State): State {
    Settle(Hear(s, TimedOut).(aborted := true), TimeoutError)
  }

  function Cancel(s: State): State {
    if s.settled then s else Settle(Hear(s, CancelledByUser).(aborted := true), Cancelled)
  }

  // ------------------------------------------------------------------ the event loop

  datatype Event =
    | Rejected(k: nat, abort: bool)
    | Responded(k: nat, status: int)
    | CreatedRead(k: nat, id: string)
    | JobRead(k: nat, job: Job)
    | ReadFailed(k: nat)
    | Fire(timer: nat)
    | CancelCalled
    | Tick(ms: nat)

  predicate Awaits(s: State, k: nat) {
    k < |s.waiting|
  }

  predicate Enabled(s: State, e: Event) {
    match e
    case Rejected(k, abort) =>
      Awaits(s, k) && (s.waiting[k].PostFetch? || s.waiting[k].GetFetch?) && (abort ==> s.aborted)
    case Responded(k, _) => Awaits(s, k) && (s.waiting[k].PostFetch? || s.waiting[k].GetFetch?)
    case CreatedRead(k, _) => Awaits(s, k) && s.waiting[k].PostJson?
    case JobRead(k, _) => Awaits(s, k) && s.waiting[k].GetJson?
    case ReadFailed(k) => Awaits(s, k) && (s.waiting[k].PostJson? || s.waiting[k].GetJson?)
    case Fire(timer) => timer in s.armed && s.armed[timer].at <= s.now
    case CancelCalled => true
    case Tick(ms) => forall t :: t in s.armed ==> s.now + ms <= s.armed[t].at
  }

  function Resume(s: State, k: nat): State
    requires Awaits(s, k)
  {
    s.(waiting := s.waiting[..k] + s.waiting[k + 1..])
  }

  function Next(s: State, e: Event): State
    requires Enabled(s, e)
  {
    match e
    case Rejected(k, abort) =>
      if s.waiting[k].PostFetch? then PostRejected(Resume(s, k), abort)
      else PollRejected(Resume(s, k), s.waiting[k].id, abort)
    case Responded(k, status) =>
      if s.waiting[k].PostFetch? then PostResponded(Resume(s, k), status)
      else PollResponded(Resume(s, k), s.waiting[k].id, status)
    case CreatedRead(k, id) => PostRead(Resume(s, k), id)
    case JobRead(k, job) => PollRead(Resume(s, k), s.waiting[k].id, job)
    case ReadFailed(k) => Hear(Resume(s, k), UnreadableBody)
    case Fire(timer) =>
      var s1 := s.(armed := s.armed - {timer});
      if s.armed[timer].Overall? then TimeOut(s1) else Poll(s1, s.armed[timer].id)
    case CancelCalled => Cancel(s)
    case Tick(ms) => s.(now := s.now + ms)
  }

  // ------------------------------------------------- what a session ought to report

  predicate EndsInThreeFailures(heard: seq<Heard>) {
    |heard| >= 3 && heard[|heard| - 1].GetFailed? && heard[|heard| - 2].GetFailed? && heard[|heard| - 3].GetFailed?
  }

  /** What a session that has heard this much reports, if anything: the reference for the state machine. */
  function Verdict(heard: seq<Heard>): Option<Outcome> {
    if heard == [] then None
    else
      match heard[|heard| - 1]
      case PostFailed => Some(NetworkError)
      case PostStatus(status) => if 200 <= status <= 299 then None else Some(HttpError(status))
      case GetFailed => if EndsInThreeFailures(heard) then Some(NetworkError) else None
      case GetStatus(status) =>
        if 200 <= status <= 299 then None else if status == 404 then Some(JobNotFound) else Some(HttpError(status))
      case GetBody(job) =>
        (match job
         case SucceededJob(translation) => Some(Translated(translation))
         case FailedJob(statusCode) => Some(HttpError(statusCode))
         case OtherJob => None)
      case TimedOut => Some(TimeoutError)
      case CancelledByUser => Some(Cancelled)
      case _ => None
  }

  function TrailingFailures(heard: seq<Heard>): nat {
    if heard == [] || !heard[|heard| - 1].GetFailed? then 0 else 1 + TrailingFailures(heard[..|heard| - 1])
  }

  lemma ThreeTrailingFailures(heard: seq<Heard>)
    ensures TrailingFailures(heard) >= 3 <==> EndsInThreeFailures(heard)
  {
    if |heard| >= 1 {
      var h1 := heard[..|heard| - 1];
      if |h1| >= 1 {
        var h2 := h1[..|h1| - 1];
        assert TrailingFailures(h2) >= 1 <==> |h2| >= 1 && h2[|h2| - 1].GetFailed?;
      }
    }
  }

  // ------------------------------------------------------------------------ invariant

  /** Nothing has been decided before the last thing heard. */
  ghost predicate Undecided(heard: seq<Heard>) {
    forall n :: 0 <= n < |heard| ==> Verdict(heard[..n]) == None
  }

  /** A settled session has one outcome, the first verdict, and no timer; a live one has no verdict yet. */
  ghost predicate OutcomeOk(s: State) {
    && Undecided(s.heard)
    && (s.settled ==>
          && |s.outcomes| == 1 && Verdict(s.heard) == Some(s.outcomes[0].outcome)
          && s.start <= s.outcomes[0].at <= s.start + TIMEOUT_MS
          && (s.outcomes[0].outcome.TimeoutError? ==> s.outcomes[0].at == s.start + TIMEOUT_MS))
    && (s.settled ==> s.armed == map[])
    && (!s.settled ==> s.outcomes == [] && Verdict(s.heard) == None && s.failures == TrailingFailures(s.heard))
    && (s.aborted <==> s.heard != [] && EndsInAbort(s.heard[|s.heard| - 1]))
  }

  /** Only the overall timeout and a cancellation abort the request that is under way. */
  predicate EndsInAbort(h: Heard) {
    h.TimedOut? || h.CancelledByUser?
  }

  /** The overall timer of a live session is armed, every armed timer is in the session's set, and the POST, the GET
      and the poll timer exclude each other. */
  ghost predicate ActivityOk(s: State) {
    && |s.waiting| <= 1
    && OVERALL < s.nextTimer
    && (!s.settled ==>
          && OVERALL in s.armed && s.armed[OVERALL] == Overall(s.start + TIMEOUT_MS)
          && (forall t :: t in s.armed ==> t in s.timers && t < s.nextTimer && s.now <= s.armed[t].at)
          && (forall t :: t in s.armed && t != OVERALL ==> s.armed[t].PollAgain? && s.waiting == [])
          && (forall t, u :: t in s.armed && u in s.armed && t != OVERALL && u != OVERALL ==> t == u))
  }

  /** The POST's two answers come before anything else is heard: its status and the job id. */
  predicate PostCreatedJob(heard: seq<Heard>) {
    |heard| >= 2 && heard[1].PostCreated?
  }

  function CreatedId(heard: seq<Heard>): string
    requires PostCreatedJob(heard)
  {
    heard[1].id
  }

  /** The POST comes first, every GET asks for the job that the POST created, and the GETs are an interval apart. */
  ghost predicate RequestsOk(s: State) {
    && |s.requests| >= 1 && s.requests[0] == Post
    && s.start <= s.now
    && (|s.requests| > 1 ==> PostCreatedJob(s.heard))
    && (forall i :: 1 <= i < |s.requests| ==> s.requests[i] == Get(CreatedId(s.heard)))
    && (forall i :: 0 <= i < |s.waiting| ==> Asks(s, s.waiting[i]))
    && |s.requests| - 2 <= TIMEOUT_MS / POLL_INTERVAL_MS
    && (!s.settled ==> POLL_INTERVAL_MS * (|s.requests| - 2) <= s.now - s.start)
    && (forall t :: t in s.armed && s.armed[t].PollAgain? ==>
          POLL_INTERVAL_MS * (|s.requests| - 1) <= s.armed[t].at - s.start && Asks(s, GetFetch(s.armed[t].id)))
  }

  /** A pending continuation belongs to where the session is: the POST before anything was created, a GET only for the
      created job. */
  predicate Asks(s: State, w: Waiting) {
    match w
    case PostFetch => |s.requests| == 1 && (s.settled || (s.heard == [] && s.failures == 0))
    case PostJson => |s.requests| == 1 && (s.settled || (|s.heard| == 1 && s.failures == 0))
    case GetFetch(id) => PostCreatedJob(s.heard) && CreatedId(s.heard) == id
    case GetJson(id) => PostCreatedJob(s.heard) && CreatedId(s.heard) == id && (s.settled || s.failures == 0)
  }

  ghost predicate Inv(s: State) {
    OutcomeOk(s) && ActivityOk(s) && RequestsOk(s)
  }

  lemma HearCounts(heard: seq<Heard>, h: Heard)
    ensures TrailingFailures(heard + [h]) == if h.GetFailed? then 1 + TrailingFailures(heard) else 0
    ensures TrailingFailures(heard + [h]) >= 3 <==> EndsInThreeFailures(heard + [h])
  {
    assert (heard + [h])[..|heard|] == heard;
    ThreeTrailingFailures(heard + [h]);
  }

  lemma HearKeepsUndecided(heard: seq<Heard>, h: Heard)
    requires Undecided(heard) && Verdict(heard) == None
    ensures Undecided(heard + [h])
  {
    forall n | 0 <= n < |heard + [h]| ensures Verdict((heard + [h])[..n]) == None {
      if n < |heard| {
        assert (heard + [h])[..n] == heard[..n];
      } else {
        assert (heard + [h])[..n] == heard;
      }
    }
  }

  /** Hearing one more thing before anything is decided. */
  lemma HearOne(heard: seq<Heard>, h: Heard)
    requires Undecided(heard) && Verdict(heard) == None
    ensures Undecided(heard + [h])
    ensures TrailingFailures(heard + [h]) == if h.GetFailed? then 1 + TrailingFailures(heard) else 0
    ensures TrailingFailures(heard + [h]) >= 3 <==> EndsInThreeFailures(heard + [h])
    ensures PostCreatedJob(heard) ==> PostCreatedJob(heard + [h]) && CreatedId(heard + [h]) == CreatedId(heard)
  {
    HearCounts(heard, h);
    HearKeepsUndecided(heard, h);
  }

  /** A live session none of whose activities is under way: between resuming a continuation and starting the next. */
  ghost predicate Idle(s: State) {
    !s.settled && s.waiting == [] && forall t :: t in s.armed ==> t == OVERALL
  }

  lemma ResumeKeepsInv(s: State, k: nat)
    requires Inv(s) && Awaits(s, k)
    ensures Inv(Resume(s, k)) && Resume(s, k).waiting == []
    ensures Asks(s, s.waiting[k]) && Asks(Resume(s, k), s.waiting[k])
    ensures !s.settled ==> Idle(Resume(s, k)) && !s.aborted
  {
    hide Undecided, TrailingFailures, PostCreatedJob, CreatedId;
    assert Resume(s, k).waiting == [];
  }

  lemma HearKeepsInv(s: State, h: Heard, failures: nat)
    requires Inv(s) && Idle(s) && Verdict(s.heard + [h]) == None
    requires failures == if h.GetFailed? then s.failures + 1 else 0
    ensures Inv(Hear(s, h).(failures := failures)) && Idle(Hear(s, h).(failures := failures))
  {
    HearOne(s.heard, h);
  }

  lemma SettleKeepsInv(s: State, h: Heard, s1: State, outcome: Outcome)
    requires Inv(s) && !s.settled && Verdict(s.heard + [h]) == Some(outcome)
    requires outcome.TimeoutError? ==> s.now == s.start + TIMEOUT_MS
    requires s1 == Hear(s, h).(failures := s1.failures, aborted := EndsInAbort(h))
    ensures Inv(Settle(s1, outcome))
  {
    HearOne(s.heard, h);
    var s2 := Settle(s1, outcome);
    forall i | 0 <= i < |s2.waiting| ensures Asks(s2, s2.waiting[i]) { assert Asks(s, s.waiting[i]); }
    assert s2.armed == map[];
  }

  lemma ScheduleKeepsInv(s: State, id: string)
    requires Inv(s) && Idle(s) && Asks(s, GetFetch(id))
    ensures Inv(SchedulePoll(s, id))
  {
  }

  lemma PollKeepsInv(s: State, id: string)
    requires Inv(s) && Idle(s) && Asks(s, GetFetch(id))
    requires POLL_INTERVAL_MS * (|s.requests| - 1) <= s.now - s.start
    ensures Inv(Poll(s, id))
  {
    assert s.now <= s.armed[OVERALL].at;
  }

  lemma AwaitKeepsInv(s: State, w: Waiting)
    requires Inv(s) && Idle(s) && Asks(s, w)
    ensures Inv(s.(waiting := s.waiting + [w]))
  {
  }

  /** A settled session only runs out: whatever still arrives changes no request, outcome, timer or history. */
  predicate Frozen(s: State, s': State) {
    && s'.settled && s'.armed == map[] && s'.requests == s.requests && s'.outcomes == s.outcomes && s'.heard == s.heard
    && s'.start == s.start && s.now <= s'.now && s'.aborted == s.aborted
  }

  lemma FrozenKeepsInv(s: State, s': State)
    requires Inv(s) && s.settled && Frozen(s, s') && s'.nextTimer == s.nextTimer
    requires |s'.waiting| <= 1 && forall w :: w in s'.waiting ==> Asks(s, w)
    ensures Inv(s')
  {
    forall i | 0 <= i < |s'.waiting| ensures Asks(s', s'.waiting[i]) { assert s'.waiting[i] in s'.waiting; }
  }

  /** What a continuation may still do once the session has settled: at most read the body of an answer that came. */
  predicate RunsOut(r: State, r': State, w: Option<Waiting>) {
    r' == r.(failures := r'.failures, waiting := if w.None? then r.waiting else r.waiting + [w.value])
  }

  lemma SettledContinuation(s: State, e: Event, w: Option<Waiting>)
    requires Inv(s) && s.settled && Enabled(s, e)
    requires e.Rejected? || e.Responded? || e.CreatedRead? || e.JobRead? || e.ReadFailed?
    requires RunsOut(Resume(s, e.k), Next(s, e), w) && (w.Some? ==> Asks(s, w.value))
    ensures Inv(Next(s, e)) && Frozen(s, Next(s, e))
  {
    ResumeKeepsInv(s, e.k);
    FrozenKeepsInv(s, Next(s, e));
  }

  lemma SettledResponse(s: State, k: nat, status: int) returns (w: Option<Waiting>)
    requires Inv(s) && s.settled && Enabled(s, Responded(k, status))
    ensures RunsOut(Resume(s, k), Next(s, Responded(k, status)), w) && (w.Some? ==> Asks(s, w.value))
  {
    assert Asks(s, s.waiting[k]);
    w := if !Ok(status) then None
         else if s.waiting[k].PostFetch? then Some(PostJson) else Some(GetJson(s.waiting[k].id));
  }

  lemma SettledStaysSettled(s: State, e: Event)
    requires Inv(s) && Enabled(s, e) && s.settled
    ensures Inv(Next(s, e)) && Frozen(s, Next(s, e))
  {
    match e {
      case Responded(k, status) =>
        var w := SettledResponse(s, k, status);
        SettledContinuation(s, e, w);
      case Fire(_) =>
      case CancelCalled =>
      case Tick(_) =>
      case _ => SettledContinuation(s, e, None);
    }
  }

  lemma RejectedKeepsInv(s: State, k: nat)
    requires Inv(s) && Enabled(s, Rejected(k, false)) && !s.settled
    ensures Inv(Next(s, Rejected(k, false)))
  {
    hide Inv, Asks, PostRejected, PollRejected;
    ResumeKeepsInv(s, k);
    if s.waiting[k].PostFetch? {
      PostRejectedKeepsInv(Resume(s, k));
    } else {
      PollRejectedKeepsInv(Resume(s, k), s.waiting[k].id);
    }
  }

  lemma PostRejectedKeepsInv(r: State)
    requires Inv(r) && Idle(r) && !r.aborted
    ensures Inv(PostRejected(r, false))
  {
    hide ActivityOk, RequestsOk, Undecided, OutcomeOk;
    SettleKeepsInv(r, PostFailed, Hear(r, PostFailed), NetworkError);
  }

  lemma PollRejectedKeepsInv(r: State, id: string)
    requires Inv(r) && Idle(r) && Asks(r, GetFetch(id)) && !r.aborted
    ensures Inv(PollRejected(r, id, false))
  {
    hide ActivityOk, RequestsOk, Undecided;
    HearOne(r.heard, GetFailed);
    var s1 := Hear(r, GetFailed).(failures := r.failures + 1);
    hide OutcomeOk;
    if s1.failures >= MAX_CONSECUTIVE_POLL_FAILURES {
      SettleKeepsInv(r, GetFailed, s1, NetworkError);
    } else {
      HearKeepsInv(r, GetFailed, s1.failures);
      ScheduleKeepsInv(s1, id);
    }
  }

  lemma RespondedKeepsInv(s: State, k: nat, status: int)
    requires Inv(s) && Enabled(s, Responded(k, status)) && !s.settled
    ensures Inv(Next(s, Responded(k, status)))
  {
    hide Inv, Asks;
    ResumeKeepsInv(s, k);
    if s.waiting[k].PostFetch? {
      PostRespondedKeepsInv(Resume(s, k), status);
    } else {
      PollRespondedKeepsInv(Resume(s, k), s.waiting[k].id, status);
    }
  }

  lemma PostRespondedKeepsInv(r: State, status: int)
    requires Inv(r) && Idle(r) && Asks(r, PostFetch) && !r.aborted
    ensures Inv(PostResponded(r, status))
  {
    hide ActivityOk, RequestsOk, Undecided, OutcomeOk;
    var h := PostStatus(status);
    if Ok(status) {
      HearKeepsInv(r, h, 0);
      AwaitKeepsInv(Hear(r, h).(failures := 0), PostJson);
    } else {
      SettleKeepsInv(r, h, Hear(r, h), HttpError(status));
    }
  }

  lemma PollRespondedKeepsInv(r: State, id: string, status: int)
    requires Inv(r) && Idle(r) && Asks(r, GetFetch(id)) && !r.aborted
    ensures Inv(PollResponded(r, id, status))
  {
    hide ActivityOk, RequestsOk, Undecided, OutcomeOk;
    var h := GetStatus(status);
    if Ok(status) {
      assert PostCreatedJob(r.heard + [h]) && CreatedId(r.heard + [h]) == id;
      HearKeepsInv(r, h, 0);
      AwaitKeepsInv(Hear(r, h).(failures := 0), GetJson(id));
    } else {
      SettleKeepsInv(r, h, Hear(r, h), if status == 404 then JobNotFound else HttpError(status));
    }
  }

  lemma CreatedReadKeepsInv(s: State, k: nat, id: string)
    requires Inv(s) && Enabled(s, CreatedRead(k, id)) && !s.settled
    ensures Inv(Next(s, CreatedRead(k, id)))
  {
    hide ActivityOk, Undecided;
    ResumeKeepsInv(s, k);
    var r := Resume(s, k);
    HearKeepsInv(r, PostCreated(id), 0);
    PollKeepsInv(Hear(r, PostCreated(id)), id);
  }

  lemma JobReadKeepsInv(s: State, k: nat, job: Job)
    requires Inv(s) && Enabled(s, JobRead(k, job)) && !s.settled
    ensures Inv(Next(s, JobRead(k, job)))
  {
    hide ActivityOk, RequestsOk, Undecided;
    ResumeKeepsInv(s, k);
    var r := Resume(s, k);
    var h := GetBody(job);
    HearOne(s.heard, h);
    match job {
      case SucceededJob(translation) => SettleKeepsInv(r, h, Hear(r, h), Translated(translation));
      case FailedJob(statusCode) => SettleKeepsInv(r, h, Hear(r, h), HttpError(statusCode));
      case OtherJob =>
        HearKeepsInv(r, h, 0);
        ScheduleKeepsInv(Hear(r, h), s.waiting[k].id);
    }
  }

  lemma FireKeepsInv(s: State, timer: nat)
    requires Inv(s) && Enabled(s, Fire(timer)) && !s.settled
    ensures Inv(Next(s, Fire(timer)))
  {
    hide Undecided, PostCreatedJob, CreatedId;
    if s.armed[timer].Overall? {
      SettleKeepsInv(s, TimedOut, Hear(s, TimedOut).(aborted := true), TimeoutError);
      assert s.armed - {timer} - s.timers == s.armed - s.timers;
    } else {
      PollTimerSpent(s, timer);
      hide OutcomeOk, RequestsOk, ActivityOk;
      PollKeepsInv(s.(armed := s.armed - {timer}), s.armed[timer].id);
    }
  }

  lemma PollTimerSpent(s: State, timer: nat)
    requires Inv(s) && Enabled(s, Fire(timer)) && !s.settled && s.armed[timer].PollAgain?
    ensures var s1 := s.(armed := s.armed - {timer});
      && Inv(s1) && Idle(s1) && Asks(s1, GetFetch(s.armed[timer].id))
      && POLL_INTERVAL_MS * (|s1.requests| - 1) <= s1.now - s1.start
  {
    hide Undecided, PostCreatedJob, CreatedId, Verdict, TrailingFailures;
  }

  lemma StepKeepsStart(s: State, e: Event)
    requires Enabled(s, e)
    ensures Next(s, e).start == s.start
  {
  }

  lemma ReadFailedKeepsInv(s: State, k: nat)
    requires Inv(s) && Enabled(s, ReadFailed(k)) && !s.settled
    ensures Inv(Next(s, ReadFailed(k)))
  {
    ResumeKeepsInv(s, k);
    HearKeepsInv(Resume(s, k), UnreadableBody, 0);
  }

  lemma CancelKeepsInv(s: State)
    requires Inv(s) && !s.settled
    ensures Inv(Next(s, CancelCalled))
  {
    SettleKeepsInv(s, CancelledByUser, Hear(s, CancelledByUser).(aborted := true), Cancelled);
  }

  lemma TickKeepsInv(s: State, ms: nat)
    requires Inv(s) && Enabled(s, Tick(ms)) && !s.settled
    ensures Inv(Next(s, Tick(ms)))
  {
  }

  lemma LiveIsNotAborted(s: State, k: nat, abort: bool)
    requires Inv(s) && Enabled(s, Rejected(k, abort)) && !s.settled
    ensures !abort
  {
  }

  /** Every event the browser may deliver keeps the invariant. */
  lemma StepKeepsInv(s: State, e: Event)
    requires Inv(s) && Enabled(s, e)
    ensures Inv(Next(s, e))
  {
    hide Inv, Enabled, Next, Frozen;
    if s.settled {
      SettledStaysSettled(s, e);
    } else {
      match e {
        case Rejected(k, abort) =>
          LiveIsNotAborted(s, k, abort);
          RejectedKeepsInv(s, k);
        case Responded(k, status) => RespondedKeepsInv(s, k, status);
        case CreatedRead(k, id) => CreatedReadKeepsInv(s, k, id);
        case JobRead(k, job) => JobReadKeepsInv(s, k, job);
        case ReadFailed(k) => ReadFailedKeepsInv(s, k);
        case Fire(timer) => FireKeepsInv(s, timer);
        case CancelCalled => CancelKeepsInv(s);
        case Tick(ms) => TickKeepsInv(s, ms);
      }
    }
  }

  // ------------------------------------------------------------------------ whole runs

  ghost predicate Runs(s: State, events: seq<Event>)
    decreases |events|
  {
    events == [] || (Enabled(s, events[0]) && Runs(Next(s, events[0]), events[1..]))
  }

  function After(s: State, events: seq<Event>): State
    requires Runs(s, events)
    decreases |events|
  {
    if events == [] then s else After(Next(s, events[0]), events[1..])
  }

  lemma {:induction false} RunKeepsInv(s: State, events: seq<Event>)
    requires Inv(s) && Runs(s, events)
    ensures Inv(After(s, events)) && After(s, events).start == s.start
    decreases |events|
  {
    if events != [] {
      StepKeepsInv(s, events[0]);
      StepKeepsStart(s, events[0]);
      RunKeepsInv(Next(s, events[0]), events[1..]);
    }
  }

  lemma StartKeepsInv(now: int)
    ensures Inv(Start(now))
  {
  }

  /** In every run the promise is settled at most once, at the first thing heard that decides, and as it decides: in
      particular a polling network error comes exactly on the third failure with no ok response between. */
  lemma SettlesOnceWithFirstVerdict(now: int, events: seq<Event>)
    requires Runs(Start(now), events)
    ensures var s := After(Start(now), events);
      && (s.settled <==> Verdict(s.heard).Some?)
      && |s.outcomes| == (if s.settled then 1 else 0)
      && (s.settled ==> Verdict(s.heard) == Some(s.outcomes[0].outcome))
      && (forall n :: 0 <= n < |s.heard| ==> Verdict(s.heard[..n]) == None)
      && (s.aborted <==> s.settled && (s.outcomes[0].outcome.TimeoutError? || s.outcomes[0].outcome.Cancelled?))
  {
    assert Inv(Start(now)) by { StartKeepsInv(now); }
    hide Start, After, Runs, Verdict;
    RunKeepsInv(Start(now), events);
  }

  /** After it has settled, a session issues no request, arms no timer and settles no second time. */
  lemma {:induction false} NothingAfterSettling(s: State, events: seq<Event>)
    requires Inv(s) && s.settled && Runs(s, events)
    ensures Frozen(s, After(s, events))
    decreases |events|
  {
    if events != [] {
      SettledStaysSettled(s, events[0]);
      NothingAfterSettling(Next(s, events[0]), events[1..]);
    }
  }

  function PollTimers(s: State): set<nat> {
    set t | t in s.armed && s.armed[t].PollAgain?
  }

  lemma SettledHasNoTimer(s: State)
    requires Inv(s) && s.settled
    ensures PollTimers(s) == {}
  {
  }

  /** While live, a session has at most one of the POST, a GET and a poll timer under way. */
  lemma OneActivityAtATime(now: int, events: seq<Event>)
    requires Runs(Start(now), events)
    ensures var s := After(Start(now), events);
      if s.settled then PollTimers(s) == {} else |s.waiting| + |PollTimers(s)| <= 1
  {
    hide OutcomeOk, RequestsOk, Runs, After, Start;
    StartIsOk(now);
    RunKeepsInv(Start(now), events);
    var s := After(Start(now), events);
    if s.settled {
      SettledHasNoTimer(s);
    } else if PollTimers(s) != {} {
      var t :| t in PollTimers(s);
      assert t != OVERALL;
      assert PollTimers(s) == {t};
    }
  }

  // ------------------------------------------------------- what a live session does next

  /** One fetch or body read is under way and no poll timer. */
  predicate Fetches(s: State, w: Waiting) {
    s.waiting == [w] && PollTimers(s) == {}
  }

  /** Nothing is under way but one poll timer, due two seconds after the session last heard something. */
  ghost predicate Sleeps(s: State, id: string) {
    && s.waiting == []
    && exists t: nat :: PollTimers(s) == {t} && t in s.armed && s.armed[t] == PollAgain(id, s.heardAt + 2_000)
  }

  /** The next GET is under way, its timer having fired, or its timer runs. */
  ghost predicate PollsAgain(s: State, id: string) {
    Sleeps(s, id) || (Fetches(s, GetFetch(id)) && s.heardAt + 2_000 <= s.now)
  }

  /** What a session that has settled nothing does, by what it heard last: it reads the body of an ok answer, polls the
      created job, polls it again two seconds after a failed GET or a body that decided nothing, and stops only at a
      body it could not read. */
  ghost predicate GoesOn(s: State) {
    if s.heard == [] then Fetches(s, PostFetch)
    else if s.heard[|s.heard| - 1].PostStatus? then Fetches(s, PostJson)
    else if s.heard[|s.heard| - 1].UnreadableBody? then s.waiting == [] && PollTimers(s) == {}
    else
      && PostCreatedJob(s.heard)
      && match s.heard[|s.heard| - 1]
         case PostCreated(id) => Fetches(s, GetFetch(id)) && id == CreatedId(s.heard)
         case GetStatus(_) => Fetches(s, GetJson(CreatedId(s.heard)))
         case GetFailed => PollsAgain(s, CreatedId(s.heard))
         case GetBody(_) => PollsAgain(s, CreatedId(s.heard))
         case _ => false
  }

  ghost predicate Going(s: State) {
    !s.settled ==> GoesOn(s)
  }

  lemma IdleHasNoPollTimer(s: State)
    requires Inv(s) && Idle(s)
    ensures PollTimers(s) == {}
  {
  }

  lemma HearKeepsJob(heard: seq<Heard>, h: Heard)
    requires PostCreatedJob(heard)
    ensures PostCreatedJob(heard + [h]) && CreatedId(heard + [h]) == CreatedId(heard)
  {
  }

  /** A poll timer set right after something was heard. */
  lemma ScheduledSleeps(s: State, id: string)
    requires Inv(s) && Idle(s) && s.heardAt == s.now
    ensures Sleeps(SchedulePoll(s, id), id)
  {
    IdleHasNoPollTimer(s);
    var s' := SchedulePoll(s, id);
    assert PollTimers(s') == {s.nextTimer} && s'.armed[s.nextTimer] == PollAgain(id, s.heardAt + 2_000);
  }

  lemma PollRejectedGoes(r: State, id: string)
    requires Inv(r) && Idle(r) && Asks(r, GetFetch(id))
    ensures Going(PollRejected(r, id, false))
  {
    hide OutcomeOk, RequestsOk, Sleeps, Verdict;
    HearKeepsJob(r.heard, GetFailed);
    var s1 := Hear(r, GetFailed).(failures := r.failures + 1);
    if s1.failures < 3 {
      FailureUndecided(r);
      HearKeepsInv(r, GetFailed, s1.failures);
      ScheduledSleeps(s1, id);
    }
  }

  lemma FailureUndecided(r: State)
    requires Inv(r) && !r.settled && r.failures + 1 < 3
    ensures Verdict(r.heard + [GetFailed]) == None
  {
    HearCounts(r.heard, GetFailed);
  }

  lemma PollReadGoes(r: State, id: string, job: Job)
    requires Inv(r) && Idle(r) && Asks(r, GetJson(id)) && r.failures == 0
    ensures Going(PollRead(r, id, job))
  {
    hide OutcomeOk, RequestsOk, Sleeps;
    HearKeepsJob(r.heard, GetBody(job));
    if job.OtherJob? {
      HearKeepsInv(r, GetBody(job), 0);
      ScheduledSleeps(Hear(r, GetBody(job)), id);
    }
  }

  lemma AnsweredGoes(r: State, w: Waiting, status: int)
    requires Inv(r) && Idle(r) && Asks(r, w) && (w.PostFetch? || w.GetFetch?)
    ensures Going(if w.PostFetch? then PostResponded(r, status) else PollResponded(r, w.id, status))
  {
    IdleHasNoPollTimer(r);
    if w.GetFetch? { HearKeepsJob(r.heard, GetStatus(status)); }
  }

  lemma CreatedGoes(r: State, id: string)
    requires Inv(r) && Idle(r) && Asks(r, PostJson)
    ensures Going(PostRead(r, id))
  {
    IdleHasNoPollTimer(r);
  }

  lemma UnreadableGoes(r: State)
    requires Inv(r) && Idle(r)
    ensures Going(Hear(r, UnreadableBody))
  {
    IdleHasNoPollTimer(r);
  }

  /** The poll timer fires and the GET goes out. */
  lemma FireGoes(s: State, timer: nat)
    requires Inv(s) && Going(s) && Enabled(s, Fire(timer)) && !s.settled && timer != OVERALL
    ensures Going(Next(s, Fire(timer)))
  {
    assert timer in PollTimers(s);
    var s' := Next(s, Fire(timer));
    assert PollTimers(s') == {};
    assert s.waiting == [] && s.armed[timer].at == s.now;
    if s.heard != [] && PostCreatedJob(s.heard) && Sleeps(s, CreatedId(s.heard)) {
      var t: nat :| PollTimers(s) == {t} && t in s.armed
                    && s.armed[t] == PollAgain(CreatedId(s.heard), s.heardAt + 2_000);
      assert timer == t;
    }
  }

  lemma TickGoes(s: State, ms: nat)
    requires Inv(s) && Going(s) && Enabled(s, Tick(ms)) && !s.settled
    ensures Going(Next(s, Tick(ms)))
  {
    var s' := Next(s, Tick(ms));
    assert PollTimers(s') == PollTimers(s);
    if s.heard != [] && PostCreatedJob(s.heard) && Sleeps(s, CreatedId(s.heard)) {
      var t: nat :| PollTimers(s) == {t} && t in s.armed
                    && s.armed[t] == PollAgain(CreatedId(s.heard), s.heardAt + 2_000);
      assert Sleeps(s', CreatedId(s'.heard));
    }
  }

  lemma StepKeepsGoing(s: State, e: Event)
    requires Inv(s) && Going(s) && Enabled(s, e)
    ensures Going(Next(s, e))
  {
    hide GoesOn, OutcomeOk, RequestsOk;
    if s.settled {
      SettledStaysSettled(s, e);
    } else {
      match e {
        case Rejected(k, abort) =>
          LiveIsNotAborted(s, k, abort);
          ResumeKeepsInv(s, k);
          if s.waiting[k].GetFetch? { PollRejectedGoes(Resume(s, k), s.waiting[k].id); }
        case Responded(k, status) =>
          ResumeKeepsInv(s, k);
          AnsweredGoes(Resume(s, k), s.waiting[k], status);
        case CreatedRead(k, id) =>
          ResumeKeepsInv(s, k);
          CreatedGoes(Resume(s, k), id);
        case JobRead(k, job) =>
          ResumeKeepsInv(s, k);
          PollReadGoes(Resume(s, k), s.waiting[k].id, job);
        case ReadFailed(k) =>
          ResumeKeepsInv(s, k);
          UnreadableGoes(Resume(s, k));
        case Fire(timer) => if timer != OVERALL { FireGoes(s, timer); }
        case CancelCalled =>
        case Tick(ms) => TickGoes(s, ms);
      }
    }
  }

  lemma {:induction false} RunKeepsGoing(s: State, events: seq<Event>)
    requires Inv(s) && Going(s) && Runs(s, events)
    ensures Going(After(s, events))
    decreases |events|
  {
    hide Going, Next, Enabled, Inv;
    if events != [] {
      StepKeepsInv(s, events[0]);
      StepKeepsGoing(s, events[0]);
      RunKeepsGoing(Next(s, events[0]), events[1..]);
    }
  }

  /** In every run a session that has not settled goes on, by what it heard last; unless that was a body it could not
      read, exactly one fetch, body read or poll timer is under way. */
  lemma LiveSessionGoesOn(now: int, events: seq<Event>)
    requires Runs(Start(now), events)
    ensures var s := After(Start(now), events);
      !s.settled ==>
        && GoesOn(s)
        && (s.heard == [] || !s.heard[|s.heard| - 1].UnreadableBody? ==> |s.waiting| + |PollTimers(s)| == 1)
  {
    StartIsOk(now);
    RunKeepsGoing(Start(now), events);
  }

  lemma StartIsOk(now: int)
    ensures Inv(Start(now)) && Going(Start(now))
  {
    assert PollTimers(Start(now)) == {};
  }

  /** A session settles within two minutes, whatever it is waiting for and also when a body failed to parse; a session
      still live at the deadline can only be settled, not passed by. */
  lemma SettlesInTime(now: int, events: seq<Event>)
    requires Runs(Start(now), events)
    ensures var s := After(Start(now), events);
      && (s.now > now + 120_000 ==> s.settled)
      && (s.settled ==> |s.outcomes| == 1 && now <= s.outcomes[0].at <= now + 120_000)
      && (s.settled && s.outcomes[0].outcome.TimeoutError? ==> s.outcomes[0].at == now + 120_000)
      && (!s.settled && s.now == now + 120_000 ==> (
            && Enabled(s, Fire(OVERALL)) && Next(s, Fire(OVERALL)).settled
            && forall ms :: ms > 0 ==> !Enabled(s, Tick(ms))))
  {
    RunKeepsInv(Start(now), events);
  }

  /** One POST, then at most 61 GETs, all for the job the POST created. */
  lemma BoundedRequests(now: int, events: seq<Event>)
    requires Runs(Start(now), events)
    ensures var s := After(Start(now), events);
      && 1 <= |s.requests| <= 1 + 61
      && s.requests[0] == Post
      && (|s.requests| > 1 ==> PostCreatedJob(s.heard))
      && (forall i :: 1 <= i < |s.requests| ==> s.requests[i] == Get(CreatedId(s.heard)))
  {
    RunKeepsInv(Start(now), events);
  }

  lemma FirstStep(s: State, e: Event, rest: seq<Event>)
    requires Enabled(s, e) && Runs(Next(s, e), rest)
    ensures Runs(s, [e] + rest) && After(s, [e] + rest) == After(Next(s, e), rest)
  {
    assert ([e] + rest)[1..] == rest;
  }

  /** A live session waiting for the answer to a GET, with nothing armed but the overall timer. */
  predicate Polling(s: State) {
    && !s.settled && |s.waiting| == 1 && s.waiting[0].GetFetch? && s.nextTimer > OVERALL
    && s.armed == map[OVERALL := Overall(s.start + TIMEOUT_MS)]
  }

  /** A live session with a poll timer due an interval from now beside the overall one. */
  predicate Resting(s: State, id: string) {
    && !s.settled && s.waiting == [] && s.nextTimer > OVERALL + 1
    && s.armed == map[OVERALL := Overall(s.start + TIMEOUT_MS),
                      s.nextTimer - 1 := PollAgain(id, s.now + POLL_INTERVAL_MS)]
  }

  lemma PendingAnswer(s: State) returns (s1: State, s2: State)
    requires Polling(s)
    ensures Enabled(s, Responded(0, 200)) && s1 == Next(s, Responded(0, 200))
    ensures Enabled(s1, JobRead(0, OtherJob)) && s2 == Next(s1, JobRead(0, OtherJob))
    ensures Resting(s2, s.waiting[0].id) && s2.nextTimer == s.nextTimer + 1 && s2.start == s.start && s2.now == s.now
    ensures s2.requests == s.requests
  {
    s1 := Next(s, Responded(0, 200));
    assert s1.waiting == [GetJson(s.waiting[0].id)] && s1.armed == s.armed;
    s2 := Next(s1, JobRead(0, OtherJob));
    assert s2.waiting == [];
  }

  lemma PollAgainLater(s: State, id: string) returns (s1: State, s2: State)
    requires Resting(s, id) && s.now + POLL_INTERVAL_MS <= s.start + TIMEOUT_MS
    ensures Enabled(s, Tick(POLL_INTERVAL_MS)) && s1 == Next(s, Tick(POLL_INTERVAL_MS))
    ensures Enabled(s1, Fire(s.nextTimer - 1)) && s2 == Next(s1, Fire(s.nextTimer - 1))
    ensures Polling(s2) && s2.nextTimer == s.nextTimer && s2.start == s.start
    ensures s2.now == s.now + POLL_INTERVAL_MS && |s2.requests| == |s.requests| + 1
  {
    s1 := Next(s, Tick(POLL_INTERVAL_MS));
    s2 := Next(s1, Fire(s.nextTimer - 1));
    assert s2.armed == map[OVERALL := Overall(s.start + TIMEOUT_MS)];
  }

  /** One round of polling a job that stays pending, in front of any further run. */
  lemma PendingRound(s: State) returns (next: State, round: seq<Event>)
    requires Polling(s) && s.now + POLL_INTERVAL_MS <= s.start + TIMEOUT_MS
    ensures Polling(next) && next.start == s.start && next.now == s.now + POLL_INTERVAL_MS
    ensures |next.requests| == |s.requests| + 1
    ensures Runs(s, round) && After(s, round) == next
  {
    var s1, s2 := PendingAnswer(s);
    var s3, s4 := PollAgainLater(s2, s.waiting[0].id);
    next := s4;
    round := FourSteps(s, Responded(0, 200), s1, JobRead(0, OtherJob), s2, Tick(POLL_INTERVAL_MS), s3,
                       Fire(s2.nextTimer - 1), s4);
  }

  lemma FourSteps(s: State, e1: Event, s1: State, e2: Event, s2: State, e3: Event, s3: State, e4: Event, s4: State)
    returns (run: seq<Event>)
    requires Enabled(s, e1) && s1 == Next(s, e1) && Enabled(s1, e2) && s2 == Next(s1, e2)
    requires Enabled(s2, e3) && s3 == Next(s2, e3) && Enabled(s3, e4) && s4 == Next(s3, e4)
    ensures Runs(s, run) && After(s, run) == s4
  {
    FirstStep(s3, e4, []);
    FirstStep(s2, e3, [e4] + []);
    FirstStep(s1, e2, [e3] + ([e4] + []));
    FirstStep(s, e1, [e2] + ([e3] + ([e4] + [])));
    run := [e1] + ([e2] + ([e3] + ([e4] + [])));
  }

  lemma {:induction false} RunsCompose(s: State, a: seq<Event>, b: seq<Event>)
    requires Runs(s, a) && Runs(After(s, a), b)
    ensures Runs(s, a + b) && After(s, a + b) == After(After(s, a), b)
    decreases |a|
  {
    if a == [] {
      assert a + b == b;
    } else {
      assert (a + b)[1..] == a[1..] + b;
      RunsCompose(Next(s, a[0]), a[1..], b);
    }
  }

  lemma {:induction false} PendingRounds(s: State, n: nat) returns (events: seq<Event>)
    requires Polling(s) && s.now + n * POLL_INTERVAL_MS <= s.start + TIMEOUT_MS
    ensures Runs(s, events) && |After(s, events).requests| == |s.requests| + n
    decreases n
  {
    if n == 0 {
      events := [];
    } else {
      var next, round := PendingRound(s);
      var rest := PendingRounds(next, n - 1);
      RunsCompose(s, round, rest);
      events := round + rest;
    }
  }

  /** The POST is answered at once. */
  lemma CreatedAtOnce(now: int, id: string) returns (s: State, events: seq<Event>)
    ensures Polling(s) && s.start == s.now == now && s.requests == [Post, Get(id)]
    ensures s.waiting == [GetFetch(id)] && s.heard == [PostStatus(202), PostCreated(id)]
    ensures Runs(Start(now), events) && After(Start(now), events) == s
  {
    var s0 := Start(now);
    var s1 := Next(s0, Responded(0, 202));
    assert s1.waiting == [PostJson];
    s := Next(s1, CreatedRead(0, id));
    assert s.waiting == [GetFetch(id)] && s.requests == [Post, Get(id)];
    FirstStep(s1, CreatedRead(0, id), []);
    FirstStep(s0, Responded(0, 202), [CreatedRead(0, id)] + []);
    events := [Responded(0, 202)] + ([CreatedRead(0, id)] + []);
  }

  // ------------------------------------------------------------- failed polls are retried

  /** A live session that waits for the answer to a GET. */
  ghost predicate Asking(s: State, id: string) {
    Inv(s) && Going(s) && !s.settled && s.waiting == [GetFetch(id)]
  }

  lemma RejectionSleeps(s: State, id: string) returns (t: nat)
    requires Asking(s, id) && s.failures + 1 < 3
    ensures Enabled(s, Rejected(0, false))
    ensures var s1 := Next(s, Rejected(0, false));
      && Inv(s1) && Going(s1) && !s1.settled && s1.waiting == [] && s1.failures == s.failures + 1
      && s1.heard == s.heard + [GetFailed] && s1.start == s.start && s1.now == s.now && s1.requests == s.requests
      && PollTimers(s1) == {t} && t in s1.armed && s1.armed[t] == PollAgain(id, s.now + 2_000)
  {
    hide ActivityOk, RequestsOk, OutcomeOk, GoesOn, PollTimers, Sleeps;
    var s1 := Next(s, Rejected(0, false));
    StepKeepsInv(s, Rejected(0, false));
    StepKeepsGoing(s, Rejected(0, false));
    ResumeKeepsInv(s, 0);
    HearKeepsJob(s.heard, GetFailed);
    assert s1 == SchedulePoll(Hear(Resume(s, 0), GetFailed).(failures := s.failures + 1), id);
    t := LastFailureSleeps(s1, id);
  }

  lemma LastFailureSleeps(s: State, id: string) returns (t: nat)
    requires Going(s) && !s.settled && s.heard != [] && s.heard[|s.heard| - 1] == GetFailed
    requires PostCreatedJob(s.heard) && CreatedId(s.heard) == id && s.waiting == []
    ensures PollTimers(s) == {t} && t in s.armed && s.armed[t] == PollAgain(id, s.heardAt + 2_000)
  {
    t :| PollTimers(s) == {t} && t in s.armed && s.armed[t] == PollAgain(id, s.heardAt + 2_000);
  }

  lemma SleeperAsks(s: State, id: string, t: nat)
    requires Inv(s) && Going(s) && !s.settled && s.waiting == [] && s.now + 2_000 <= s.start + 120_000
    requires PollTimers(s) == {t} && t in s.armed && s.armed[t] == PollAgain(id, s.now + 2_000)
    ensures Enabled(s, Tick(2_000)) && Enabled(Next(s, Tick(2_000)), Fire(t))
    ensures var s2 := Next(Next(s, Tick(2_000)), Fire(t));
      && Asking(s2, id) && s2.failures == s.failures && s2.heard == s.heard
      && s2.start == s.start && s2.now == s.now + 2_000 && s2.requests == s.requests + [Get(id)]
  {
    hide OutcomeOk, RequestsOk, GoesOn;
    forall u | u in s.armed ensures s.now + 2_000 <= s.armed[u].at {
      if u != OVERALL { assert u in PollTimers(s); }
    }
    var s1 := Next(s, Tick(2_000));
    StepKeepsInv(s, Tick(2_000));
    StepKeepsGoing(s, Tick(2_000));
    StepKeepsInv(s1, Fire(t));
    StepKeepsGoing(s1, Fire(t));
  }

  /** A GET that fails once more, and the next one two seconds later. */
  lemma FailedRound(s: State, id: string) returns (s': State, round: seq<Event>)
    requires Asking(s, id) && s.failures + 1 < 3 && s.now + 2_000 <= s.start + 120_000
    ensures Runs(s, round) && After(s, round) == s'
    ensures Asking(s', id) && s'.failures == s.failures + 1 && s'.start == s.start && s'.now == s.now + 2_000
    ensures s'.heard == s.heard + [GetFailed] && |s'.requests| == |s.requests| + 1
  {
    hide Inv, Going, Next, Enabled;
    var t := RejectionSleeps(s, id);
    var s1 := Next(s, Rejected(0, false));
    SleeperAsks(s1, id, t);
    var s2 := Next(s1, Tick(2_000));
    s' := Next(s2, Fire(t));
    FirstStep(s2, Fire(t), []);
    FirstStep(s1, Tick(2_000), [Fire(t)] + []);
    FirstStep(s, Rejected(0, false), [Tick(2_000)] + ([Fire(t)] + []));
    round := [Rejected(0, false)] + ([Tick(2_000)] + ([Fire(t)] + []));
  }

  lemma AnsweredInTheEnd(s: State, id: string, translation: string) returns (events: seq<Event>)
    requires Asking(s, id)
    ensures Runs(s, events) && After(s, events).outcomes == [Settlement(Translated(translation), s.now)]
    ensures After(s, events).requests == s.requests
  {
    hide RequestsOk, ActivityOk;
    var s1 := Next(s, Responded(0, 200));
    assert s1.waiting == [GetJson(id)];
    FirstStep(s1, JobRead(0, SucceededJob(translation)), []);
    FirstStep(s, Responded(0, 200), [JobRead(0, SucceededJob(translation))] + []);
    events := [Responded(0, 200)] + ([JobRead(0, SucceededJob(translation))] + []);
  }

  /** Whatever happened before: as long as fewer than three GETs in a row have failed, a session that waits for one can
      see it fail, poll again two seconds later each time, and still report the translation. */
  lemma {:induction false} FailuresAreForgiven(s: State, id: string, more: nat, translation: string)
    returns (events: seq<Event>)
    requires Asking(s, id) && TrailingFailures(s.heard) + more < 3 && s.now + 2_000 * more <= s.start + 120_000
    ensures Runs(s, events)
    ensures After(s, events).outcomes == [Settlement(Translated(translation), s.now + 2_000 * more)]
    ensures |After(s, events).requests| == |s.requests| + more
    decreases more
  {
    hide Runs, After, Going;
    if more == 0 {
      events := AnsweredInTheEnd(s, id, translation);
    } else {
      assert s.failures == TrailingFailures(s.heard);
      hide Inv;
      var s1, round := FailedRound(s, id);
      HearCounts(s.heard, GetFailed);
      var rest := FailuresAreForgiven(s1, id, more - 1, translation);
      RunsCompose(s, round, rest);
      events := round + rest;
    }
  }

  lemma CreatedIsAsking(now: int, id: string, s: State, events: seq<Event>)
    requires Runs(Start(now), events) && After(Start(now), events) == s && Polling(s) && s.waiting == [GetFetch(id)]
    ensures Asking(s, id)
  {
    hide Inv, GoesOn;
    StartIsOk(now);
    RunKeepsInv(Start(now), events);
    RunKeepsGoing(Start(now), events);
  }

  /** A job whose first one or two GETs fail is still translated, two seconds later for each. */
  lemma FailedPollsAreRetried(now: int, id: string, failed: nat, translation: string) returns (events: seq<Event>)
    requires failed <= 2
    ensures Runs(Start(now), events)
    ensures After(Start(now), events).outcomes == [Settlement(Translated(translation), now + 2_000 * failed)]
    ensures |After(Start(now), events).requests| == 2 + failed
  {
    hide Runs, After, Going, Inv;
    var s, created := CreatedAtOnce(now, id);
    assert Asking(s, id) && TrailingFailures(s.heard) == 0 by {
      CreatedIsAsking(now, id, s, created);
      HearCounts([PostStatus(202)], PostCreated(id));
    }
    var rest := FailuresAreForgiven(s, id, failed, translation);
    RunsCompose(Start(now), created, rest);
    events := created + rest;
  }

  /** A job that stays pending is polled as often as its time allows. */
  lemma PendingRunsToTheDeadline(now: int, id: string, n: nat) returns (events: seq<Event>)
    requires n * POLL_INTERVAL_MS <= TIMEOUT_MS
    ensures Runs(Start(now), events) && |After(Start(now), events).requests| == 2 + n
  {
    var s, created := CreatedAtOnce(now, id);
    var rest := PendingRounds(s, n);
    RunsCompose(Start(now), created, rest);
    events := created + rest;
  }

  /** The bound of `BoundedRequests` is reached. */
  lemma BoundIsReached(now: int, id: string)
    ensures exists events ::
      Runs(Start(now), events) && |After(Start(now), events).requests| == 1 + 61
  {
    var events := PendingRunsToTheDeadline(now, id, TIMEOUT_MS / POLL_INTERVAL_MS);
  }

  /** One event seen from outside: it may settle the session, as cancelled only when it is the cancellation, and as a
      translation only when that translation was read for the created job. */
  ghost predicate SeenFromOutside(s: State, e: Event, s': State) {
    && (s.settled ==> s'.settled && s'.outcomes == s.outcomes)
    && (PostCreatedJob(s.heard) ==> PostCreatedJob(s'.heard) && CreatedId(s'.heard) == CreatedId(s.heard))
    && (!PostCreatedJob(s.heard) && PostCreatedJob(s'.heard) ==> e.CreatedRead? && e.id == CreatedId(s'.heard))
    && (!s.settled && s'.settled ==>
          && |s'.outcomes| == 1
          && (s'.outcomes[0].outcome.Cancelled? ==> e.CancelCalled?)
          && (s'.outcomes[0].outcome.Translated? ==>
                && e.JobRead? && e.job == SucceededJob(s'.outcomes[0].outcome.translation)
                && Awaits(s, e.k) && PostCreatedJob(s.heard) && s.waiting[e.k] == GetJson(CreatedId(s.heard))))
  }

  /** What a live session hears of an event, if anything. */
  function HeardOf(s: State, e: Event): Option<Heard>
    requires Enabled(s, e)
  {
    match e
    case Rejected(k, abort) =>
      if abort then None else if s.waiting[k].PostFetch? then Some(PostFailed) else Some(GetFailed)
    case Responded(k, status) => if s.waiting[k].PostFetch? then Some(PostStatus(status)) else Some(GetStatus(status))
    case CreatedRead(_, id) => Some(PostCreated(id))
    case JobRead(_, job) => Some(GetBody(job))
    case ReadFailed(_) => Some(UnreadableBody)
    case Fire(timer) => if s.armed[timer].Overall? then Some(TimedOut) else None
    case CancelCalled => Some(CancelledByUser)
    case Tick(_) => None
  }

  lemma LiveSessionHears(s: State, e: Event)
    requires Inv(s) && Enabled(s, e) && !s.settled
    ensures Next(s, e).heard == if HeardOf(s, e).Some? then s.heard + [HeardOf(s, e).value] else s.heard
  {
  }

  lemma StepFromOutside(s: State, e: Event)
    requires Inv(s) && Enabled(s, e)
    ensures SeenFromOutside(s, e, Next(s, e))
  {
    if s.settled {
      SettledStaysSettled(s, e);
    } else {
      LiveStepFromOutside(s, e, Next(s, e));
    }
  }

  lemma VerdictSource(heard: seq<Heard>, h: Heard)
    ensures Verdict(heard + [h]) == Some(Cancelled) ==> h.CancelledByUser?
    ensures forall t :: Verdict(heard + [h]) == Some(Translated(t)) ==> h == GetBody(SucceededJob(t))
  {
  }

  lemma CreatedSource(heard: seq<Heard>, h: Heard)
    ensures PostCreatedJob(heard) ==> PostCreatedJob(heard + [h]) && CreatedId(heard + [h]) == CreatedId(heard)
    ensures !PostCreatedJob(heard) && PostCreatedJob(heard + [h]) ==> h == PostCreated(CreatedId(heard + [h]))
  {
  }

  lemma LiveStepFromOutside(s: State, e: Event, s': State)
    requires Inv(s) && Enabled(s, e) && !s.settled && s' == Next(s, e)
    ensures SeenFromOutside(s, e, s')
  {
    hide Next, OutcomeOk, ActivityOk, RequestsOk, Verdict;
    StepKeepsInv(s, e);
    LiveSessionHears(s, e);
    if e.JobRead? { ResumeKeepsInv(s, e.k); }
    var h := HeardOf(s, e);
    if h.Some? {
      VerdictSource(s.heard, h.value);
      CreatedSource(s.heard, h.value);
    }
    LastHeardSettles(s, s', h);
    assert h == Some(CancelledByUser) ==> e.CancelCalled?;
    assert h.Some? && h.value.GetBody? ==> e.JobRead? && e.job == h.value.job;
    assert h.Some? && h.value.PostCreated? ==> e.CreatedRead? && e.id == h.value.id;
  }

  /** By the invariant alone: a live session that settles does so by the verdict on what it heard last. */
  lemma LastHeardSettles(s: State, s': State, h: Option<Heard>)
    requires Inv(s) && !s.settled && Inv(s') && s'.heard == if h.Some? then s.heard + [h.value] else s.heard
    ensures s'.settled ==> h.Some? && |s'.outcomes| == 1 && Verdict(s.heard + [h.value]) == Some(s'.outcomes[0].outcome)
  {
  }

  // -------------------------------------------------------------- the session in place

  class Session {
    var settled: bool
    var aborted: bool
    var timers: set<nat>
    var consecutivePollFailures: nat
    var nextTimer: nat
    var armed: map<nat, Timer>
    var waiting: seq<Waiting>
    var requests: seq<Request>
    var heard: seq<Heard>
    var heardAt: int
    var outcomes: seq<Settlement>
    var start: int
    var now: int

    ghost function View(): State
      reads this
    {
      State(settled, aborted, timers, consecutivePollFailures, nextTimer, armed, waiting, requests, heard, heardAt,
            outcomes, start, now)
    }

    /** `translate()` up to its first await. */
    constructor Translate(clock: int)
      ensures View() == Start(clock)
    {
      settled, aborted, consecutivePollFailures := false, false, 0;
      start, now := clock, clock;
      armed, timers, nextTimer := map[OVERALL := Overall(clock + TIMEOUT_MS)], {OVERALL}, OVERALL + 1;
      requests, waiting := [Post], [PostFetch];
      heard, heardAt, outcomes := [], clock, [];
    }

    method Note(h: Heard)
      modifies this
      ensures View() == Hear(old(View()), h)
    {
      if !settled {
        heard, heardAt := heard + [h], now;
      }
    }

    method SettleWith(outcome: Outcome)
      modifies this
      ensures View() == Settle(old(View()), outcome)
    {
      if settled {
        return;
      }
      settled := true;
      armed := armed - timers;
      timers := {};
      outcomes := outcomes + [Settlement(outcome, now)];
    }

    method ScheduleNextPoll(id: string)
      modifies this
      ensures View() == SchedulePoll(old(View()), id)
    {
      if settled {
        return;
      }
      armed := armed[nextTimer := PollAgain(id, now + POLL_INTERVAL_MS)];
      timers := timers + {nextTimer};
      nextTimer := nextTimer + 1;
    }

    /** `poll()` up to its fetch. */
    method PollOnce(id: string)
      modifies this
      ensures View() == Poll(old(View()), id)
    {
      if settled {
        return;
      }
      requests := requests + [Get(id)];
      waiting := waiting + [GetFetch(id)];
    }

    /** `poll()` when its fetch rejects. */
    method OnPollRejected(id: string, abort: bool)
      modifies this
      ensures View() == PollRejected(old(View()), id, abort)
    {
      if abort {
        return;
      }
      Note(GetFailed);
      consecutivePollFailures := consecutivePollFailures + 1;
      if consecutivePollFailures >= MAX_CONSECUTIVE_POLL_FAILURES {
        SettleWith(NetworkError);
        return;
      }
      ScheduleNextPoll(id);
    }

    /** `poll()` when its fetch is answered. */
    method OnPollResponse(id: string, status: int)
      modifies this
      ensures View() == PollResponded(old(View()), id, status)
    {
      Note(GetStatus(status));
      if status == 404 {
        SettleWith(JobNotFound);
        return;
      }
      if !Ok(status) {
        SettleWith(HttpError(status));
        return;
      }
      consecutivePollFailures := 0;
      waiting := waiting + [GetJson(id)];
    }

    /** `poll()` when the body has been read. */
    method OnPollBody(id: string, job: Job)
      modifies this
      ensures View() == PollRead(old(View()), id, job)
    {
      Note(GetBody(job));
      if job.SucceededJob? {
        SettleWith(Translated(job.translation));
        return;
      }
      if job.FailedJob? {
        SettleWith(HttpError(job.statusCode));
        return;
      }
      ScheduleNextPoll(id);
    }

    method OnPostRejected(abort: bool)
      modifies this
      ensures View() == PostRejected(old(View()), abort)
    {
      if abort {
        return;
      }
      Note(PostFailed);
      SettleWith(NetworkError);
    }

    method OnPostResponse(status: int)
      modifies this
      ensures View() == PostResponded(old(View()), status)
    {
      Note(PostStatus(status));
      if !Ok(status) {
        SettleWith(HttpError(status));
        return;
      }
      waiting := waiting + [PostJson];
    }

    method OnPostBody(id: string)
      modifies this
      ensures View() == PostRead(old(View()), id)
    {
      Note(PostCreated(id));
      PollOnce(id);
    }

    /** The overall timer's callback. */
    method OnTimeout()
      modifies this
      ensures View() == TimeOut(old(View()))
    {
      Note(TimedOut);
      aborted := true;
      SettleWith(TimeoutError);
    }

    /** `cancelTranslate()` on this session, which is the current one as long as it is live. */
    method CancelTranslate()
      modifies this
      ensures View() == Cancel(old(View()))
    {
      if settled {
        return;
      }
      Note(CancelledByUser);
      settled := true;
      aborted := true;
      armed := armed - timers;
      timers := {};
      outcomes := outcomes + [Settlement(Cancelled, now)];
    }

    /** The browser takes a continuation. */
    method Take(k: nat) returns (w: Waiting)
      requires Awaits(View(), k)
      modifies this
      ensures View() == Resume(old(View()), k) && w == old(waiting[k])
    {
      w := waiting[k];
      waiting := waiting[..k] + waiting[k + 1..];
    }

    method DeliverToFetch(e: Event)
      requires Enabled(View(), e) && (e.Rejected? || e.Responded?)
      modifies this
      ensures View() == Next(old(View()), e)
    {
      var w := Take(e.k);
      if e.Rejected? {
        if w.PostFetch? { OnPostRejected(e.abort); } else { OnPollRejected(w.id, e.abort); }
      } else {
        if w.PostFetch? { OnPostResponse(e.status); } else { OnPollResponse(w.id, e.status); }
      }
    }

    method DeliverBody(e: Event)
      requires Enabled(View(), e) && (e.CreatedRead? || e.JobRead? || e.ReadFailed?)
      modifies this
      ensures View() == Next(old(View()), e)
    {
      var w := Take(e.k);
      match e {
        case CreatedRead(_, id) => OnPostBody(id);
        case JobRead(_, job) => OnPollBody(w.id, job);
        case ReadFailed(_) => Note(UnreadableBody);
      }
    }

    /** The browser delivers one event: it takes the continuation or timer and runs its callback. */
    method Deliver(e: Event)
      requires Enabled(View(), e)
      modifies this
      ensures View() == Next(old(View()), e)
    {
      match e {
        case Fire(timer) =>
          var fired := armed[timer];
          armed := armed - {timer};
          if fired.Overall? { OnTimeout(); } else { PollOnce(fired.id); }
        case CancelCalled => CancelTranslate();
        case Tick(ms) => now := now + ms;
        case CreatedRead(_, _) => DeliverBody(e);
        case JobRead(_, _) => DeliverBody(e);
        case ReadFailed(_) => DeliverBody(e);
        case _ => DeliverToFetch(e);
      }
    }
  }
}
