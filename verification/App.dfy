/** The page's request identity (`apps/web/src/App.tsx`): `requestIdRef`, the handlers, and the continuations of every
    `translate()` call ever made, each with its own poll session.  Rendering, focus and the clipboard are left out. */
module App {
  import opened Options
  import opened Jobs
  import S = PollSession

  const WARMING_UP_DELAY_MS := 4000

  datatype ErrorKind = Network | Client | RateLimited | Server | Timeout | JobLost
  datatype Shown = Idle | Loading | Warming | Success(translation: string, sourceText: string) | Error(kind: ErrorKind)

  /** One run of `runTranslate`: its snapshot, the session of its `translate()`, its warming timer, and whether its
      continuation has run. */
  datatype Call =
    Call(requestId: nat, request: Request, session: S.State, warmingAt: Option<int>, delivered: bool)

  /** `current` is the call whose session is `currentSession`. */
  datatype State =
    State(requestId: nat, input: string, direction: Direction, shown: Shown, calls: seq<Call>,
          current: Option<nat>, now: int)

  function Opposite(d: Direction): Direction {
    if d == EsToCak then CakToEs else EsToCak
  }

  function ClassifyError(outcome: S.Outcome): ErrorKind {
    match outcome
    case TimeoutError => Timeout
    case JobNotFound => JobLost
    case HttpError(status) => if status >= 500 then Server else if status == 429 then RateLimited else Client
    case _ => Network
  }

  function Init(now: int): State {
    State(0, "", EsToCak, Idle, [], None, now)
  }

  predicate IsTranslating(s: State) {
    s.shown.Loading? || s.shown.Warming?
  }

  // ---------------------------------------------------------------------- the handlers

  /** `cancelTranslate()`. */
  function CancelCurrent(s: State): State {
    if s.current.None? || s.current.value >= |s.calls| || s.calls[s.current.value].session.settled then s
    else
      var i := s.current.value;
      s.(calls := s.calls[i := s.calls[i].(session := S.Cancel(s.calls[i].session))], current := None)
  }

  function RunTranslate(s: State): State {
    var id := s.requestId + 1;
    var call := Call(id, Request(s.input, s.direction), S.Start(s.now), Some(s.now + WARMING_UP_DELAY_MS), false);
    s.(requestId := id, shown := Loading, calls := s.calls + [call], current := Some(|s.calls|))
  }

  function Swap(s: State): State {
    var s1 := CancelCurrent(s.(requestId := s.requestId + 1));
    s1.(input := if s.shown.Success? then s.shown.translation else s.input,
        direction := Opposite(s.direction), shown := Idle)
  }

  function Clear(s: State): State {
    CancelCurrent(s.(requestId := s.requestId + 1)).(input := "", shown := Idle)
  }

  /** The session of call `i` moved to `session`; its own `settle` drops it as the current one. */
  function SessionMoved(s: State, i: nat, session: S.State): State
    requires i < |s.calls|
  {
    s.(calls := s.calls[i := s.calls[i].(session := session)],
       current := if !s.calls[i].session.settled && session.settled && s.current == Some(i) then None else s.current)
  }

  /** `runTranslate` of call `i` after its await. */
  function Continued(s: State, i: nat): State
    requires i < |s.calls| && |s.calls[i].session.outcomes| > 0
  {
    var call := s.calls[i];
    var outcome := call.session.outcomes[0].outcome;
    s.(calls := s.calls[i := call.(delivered := true, warmingAt := None)],
       shown := if s.requestId != call.requestId then s.shown
                else if outcome.Translated? then Shown.Success(outcome.translation, call.request.text)
                else Error(ClassifyError(outcome)))
  }

  function WarmedUp(s: State, i: nat): State
    requires i < |s.calls|
  {
    s.(calls := s.calls[i := s.calls[i].(warmingAt := None)],
       shown := if s.requestId == s.calls[i].requestId then Warming else s.shown)
  }

  function Advanced(calls: seq<Call>, ms: nat): seq<Call> {
    seq(|calls|, i requires 0 <= i < |calls| =>
      calls[i].(session := calls[i].session.(now := calls[i].session.now + ms)))
  }

  // -------------------------------------------------------------------- the event loop

  datatype Event =
    | Type(text: string)
    | TranslateClicked
    | SwapClicked
    | ClearClicked
    | Browser(i: nat, e: S.Event)
    | Continue(i: nat)
    | WarmingTimer(i: nat)
    | Tick(ms: nat)

  /** "Traducir" and "Reintentar" are disabled while translating (their other conditions only remove runs); a
      continuation may be delayed at will after its promise has settled. */
  predicate Enabled(s: State, e: Event) {
    match e
    case TranslateClicked => !IsTranslating(s)
    case Browser(i, se) => i < |s.calls| && !se.CancelCalled? && !se.Tick? && S.Enabled(s.calls[i].session, se)
    case Continue(i) => i < |s.calls| && |s.calls[i].session.outcomes| > 0 && !s.calls[i].delivered
    case WarmingTimer(i) => i < |s.calls| && s.calls[i].warmingAt.Some? && s.calls[i].warmingAt.value <= s.now
    case Tick(ms) => forall i :: 0 <= i < |s.calls| ==> S.Enabled(s.calls[i].session, S.Tick(ms))
    case _ => true
  }

  function Next(s: State, e: Event): State
    requires Enabled(s, e)
  {
    match e
    case Type(text) => s.(input := text)
    case TranslateClicked => RunTranslate(s)
    case SwapClicked => Swap(s)
    case ClearClicked => Clear(s)
    case Browser(i, se) => SessionMoved(s, i, S.Next(s.calls[i].session, se))
    case Continue(i) => Continued(s, i)
    case WarmingTimer(i) => WarmedUp(s, i)
    case Tick(ms) => s.(now := s.now + ms, calls := Advanced(s.calls, ms))
  }

  // ------------------------------------------------------------------------ invariant

  /** The call that carries the number in `requestIdRef`, if any, is the newest one. */
  predicate HasCurrentRequest(s: State) {
    |s.calls| > 0 && s.calls[|s.calls| - 1].requestId == s.requestId
  }

  function Newest(s: State): Call
    requires |s.calls| > 0
  {
    s.calls[|s.calls| - 1]
  }

  function OutcomeOf(call: Call): Option<S.Outcome> {
    if |call.session.outcomes| > 0 then Some(call.session.outcomes[0].outcome) else None
  }

  /** A call waits for its session; a cancelled or abandoned one is no longer the current request. */
  ghost predicate CallOk(s: State, i: nat)
    requires i < |s.calls|
  {
    var call := s.calls[i];
    && S.Inv(call.session)
    && (i + 1 < |s.calls| ==> call.requestId < s.requestId)
    && call.requestId <= s.requestId
    && (call.delivered ==> call.session.settled && call.warmingAt == None)
    && (call.warmingAt.Some? ==> call.warmingAt.value == call.session.start + 4_000)
    && (s.current == Some(i) <==> !call.session.settled)
    && (!call.session.settled ==> call.requestId == s.requestId)
    && (call.requestId == s.requestId ==> call.request.direction == s.direction && OutcomeOf(call) != Some(S.Cancelled))
  }

  /** Which error is shown for which outcome, by status. */
  predicate Reports(kind: ErrorKind, outcome: S.Outcome) {
    && (kind == Server <==> outcome.HttpError? && outcome.status >= 500)
    && (kind == RateLimited <==> outcome.HttpError? && outcome.status == 429)
    && (kind == Client <==> outcome.HttpError? && outcome.status < 500 && outcome.status != 429)
    && (kind == Timeout <==> outcome == S.TimeoutError)
    && (kind == JobLost <==> outcome == S.JobNotFound)
    && (kind == Network <==> outcome == S.NetworkError)
  }

  /** What a call that has come back shows. */
  predicate ShowsOutcome(shown: Shown, call: Call) {
    match OutcomeOf(call)
    case Some(Translated(translation)) => shown == Shown.Success(translation, call.request.text)
    case Some(outcome) => shown.Error? && Reports(shown.kind, outcome)
    case None => false
  }

  /** What is shown is what the request numbered by `requestIdRef` has come to: nothing without one, the spinner until
      it comes back, with the warming notice once its timer has fired, and then its outcome. */
  ghost predicate ShownOk(s: State) {
    if !HasCurrentRequest(s) then s.shown.Idle?
    else if Newest(s).delivered then ShowsOutcome(s.shown, Newest(s))
    else if Newest(s).warmingAt.Some? then s.shown.Loading?
    else s.shown.Warming? && Newest(s).session.start + 4_000 <= s.now
  }

  ghost predicate Inv(s: State) {
    && (forall i :: 0 <= i < |s.calls| ==> CallOk(s, i))
    && (s.current.Some? ==> s.current.value < |s.calls|)
    && ShownOk(s)
  }

  /** Leaving the current request behind: numbering past it and cancelling its session. */
  lemma AbandonKeepsCalls(s: State)
    requires Inv(s)
    ensures var s1 := CancelCurrent(s.(requestId := s.requestId + 1));
      && |s1.calls| == |s.calls| && s1.current == None && s1.requestId == s.requestId + 1
      && forall i :: 0 <= i < |s1.calls| ==>
        S.Inv(s1.calls[i].session) && s1.calls[i].session.settled && s1.calls[i].requestId < s1.requestId
        && (s1.calls[i].delivered ==> s1.calls[i].warmingAt == None)
        && (s1.calls[i].warmingAt.Some? ==> s1.calls[i].warmingAt.value == s1.calls[i].session.start + 4_000)
  {
    var s1 := CancelCurrent(s.(requestId := s.requestId + 1));
    if s.current.Some? { assert CallOk(s, s.current.value); }
    forall i | 0 <= i < |s1.calls|
      ensures S.Inv(s1.calls[i].session) && s1.calls[i].session.settled && s1.calls[i].requestId < s1.requestId
      ensures s1.calls[i].delivered ==> s1.calls[i].warmingAt == None
      ensures s1.calls[i].warmingAt.Some? ==> s1.calls[i].warmingAt.value == s1.calls[i].session.start + 4_000
    {
      assert CallOk(s, i);
      S.StepKeepsInv(s.calls[i].session, S.CancelCalled);
    }
  }

  lemma SwapKeepsInv(s: State)
    requires Inv(s)
    ensures Inv(Swap(s))
  {
    AbandonKeepsCalls(s);
    var s' := Swap(s);
    forall i | 0 <= i < |s'.calls| ensures CallOk(s', i) { assert s'.calls[i].requestId < s'.requestId; }
  }

  lemma ClearKeepsInv(s: State)
    requires Inv(s)
    ensures Inv(Clear(s))
  {
    AbandonKeepsCalls(s);
    var s' := Clear(s);
    forall i | 0 <= i < |s'.calls| ensures CallOk(s', i) { assert s'.calls[i].requestId < s'.requestId; }
  }

  lemma TranslateKeepsInv(s: State)
    requires Inv(s) && !IsTranslating(s)
    ensures Inv(RunTranslate(s))
  {
    var s' := RunTranslate(s);
    assert S.Inv(S.Start(s.now));
    forall i | 0 <= i < |s'.calls| ensures CallOk(s', i) {
      if i < |s.calls| { assert CallOk(s, i); }
    }
  }

  lemma BrowserKeepsInv(s: State, i: nat, e: S.Event)
    requires Inv(s) && Enabled(s, Browser(i, e))
    ensures Inv(Next(s, Browser(i, e)))
  {
    hide S.Enabled, S.Next, S.ActivityOk, S.RequestsOk;
    var s' := Next(s, Browser(i, e));
    assert CallOk(s, i);
    S.StepFromOutside(s.calls[i].session, e);
    S.StepKeepsInv(s.calls[i].session, e);
    S.StepKeepsStart(s.calls[i].session, e);
    forall j | 0 <= j < |s'.calls| ensures CallOk(s', j) { assert CallOk(s, j); }
  }

  lemma ContinueKeepsInv(s: State, i: nat)
    requires Inv(s) && Enabled(s, Continue(i))
    ensures Inv(Continued(s, i))
  {
    var s' := Continued(s, i);
    assert CallOk(s, i);
    forall j | 0 <= j < |s'.calls| ensures CallOk(s', j) { assert CallOk(s, j); }
  }

  lemma WarmingKeepsInv(s: State, i: nat)
    requires Inv(s) && Enabled(s, WarmingTimer(i))
    ensures Inv(WarmedUp(s, i))
  {
    var s' := WarmedUp(s, i);
    assert CallOk(s, i);
    forall j | 0 <= j < |s'.calls| ensures CallOk(s', j) { assert CallOk(s, j); }
  }

  lemma TickKeepsInv(s: State, ms: nat)
    requires Inv(s) && Enabled(s, Tick(ms))
    ensures Inv(Next(s, Tick(ms)))
  {
    hide S.Inv, S.Enabled;
    var s' := Next(s, Tick(ms));
    forall j | 0 <= j < |s'.calls| ensures CallOk(s', j) {
      assert CallOk(s, j);
      S.StepKeepsInv(s.calls[j].session, S.Tick(ms));
    }
  }

  /** Every event of the page keeps the invariant. */
  lemma StepKeepsInv(s: State, e: Event)
    requires Inv(s) && Enabled(s, e)
    ensures Inv(Next(s, e))
  {
    match e {
      case Type(_) => forall i | 0 <= i < |s.calls| ensures CallOk(Next(s, e), i) { assert CallOk(s, i); }
      case TranslateClicked => TranslateKeepsInv(s);
      case SwapClicked => SwapKeepsInv(s);
      case ClearClicked => ClearKeepsInv(s);
      case Browser(i, se) => BrowserKeepsInv(s, i, se);
      case Continue(i) => ContinueKeepsInv(s, i);
      case WarmingTimer(i) => WarmingKeepsInv(s, i);
      case Tick(ms) => TickKeepsInv(s, ms);
    }
  }

  // ------------------------------------------------------------------------ whole runs

  ghost predicate Runs(s: State, events: seq<Event>)
    decreases |events|
  {
    events == [] || (Enabled(s, events[0]) && Runs(Next(s, events[0]), events[1..]))
  }

  function After(s: State, events: seq<Event>): State
    requires Runs(s, events)
    decreases |events|
  {
    if events == [] then s else After(Next(s, events[0]), events[1..])
  }

  lemma {:induction false} RunKeepsInv(s: State, events: seq<Event>)
    requires Inv(s) && Runs(s, events)
    ensures Inv(After(s, events))
    decreases |events|
  {
    if events != [] {
      StepKeepsInv(s, events[0]);
      RunKeepsInv(Next(s, events[0]), events[1..]);
    }
  }

  /** In every run, a shown success is the result of the call whose text is its `sourceText` and whose direction is the
      one displayed, however much was typed, swapped or cleared meanwhile and however late continuations ran. */
  lemma ShownSuccessIsTheCurrentRequests(now: int, events: seq<Event>)
    requires Runs(Init(now), events)
    ensures var s := After(Init(now), events);
      s.shown.Success? ==>
        && HasCurrentRequest(s)
        && Newest(s).request == Request(s.shown.sourceText, s.direction)
        && OutcomeOf(Newest(s)) == Some(S.Translated(s.shown.translation))
  {
    RunKeepsInv(Init(now), events);
    var s := After(Init(now), events);
    if |s.calls| > 0 { assert CallOk(s, |s.calls| - 1); }
  }

  /** The spinner is shown exactly while the request numbered by `requestIdRef` has not come back; a timer set for four
      seconds into the request replaces it by the warming notice, and nothing is shown without such a request. */
  lemma SpinnerIffUnanswered(now: int, events: seq<Event>)
    requires Runs(Init(now), events)
    ensures var s := After(Init(now), events);
      && (IsTranslating(s) <==> HasCurrentRequest(s) && !Newest(s).delivered)
      && (s.shown.Warming? ==> Newest(s).warmingAt == None && Newest(s).session.start + 4_000 <= s.now)
      && (s.shown.Loading? ==> Newest(s).warmingAt == Some(Newest(s).session.start + 4_000))
      && (s.shown.Idle? <==> !HasCurrentRequest(s))
  {
    RunKeepsInv(Init(now), events);
    var s := After(Init(now), events);
    if |s.calls| > 0 { assert CallOk(s, |s.calls| - 1); }
  }

  /** In every run an error is shown exactly when the current request has come back without a translation, and which one
      is decided by how its session settled: by the status of the answer or of the failed job, by the timeout, by the
      job not being found, or by the network; a cancellation is never shown. */
  lemma ShownErrorIsTheOutcome(now: int, events: seq<Event>)
    requires Runs(Init(now), events)
    ensures var s := After(Init(now), events);
      && (s.shown.Error? <==>
            HasCurrentRequest(s) && Newest(s).delivered && OutcomeOf(Newest(s)).Some?
            && !OutcomeOf(Newest(s)).value.Translated?)
      && (s.shown.Error? ==>
            && (s.shown.kind == Server <==> exists st :: OutcomeOf(Newest(s)) == Some(S.HttpError(st)) && st >= 500)
            && (s.shown.kind == RateLimited <==> OutcomeOf(Newest(s)) == Some(S.HttpError(429)))
            && (s.shown.kind == Client <==>
                  exists st :: OutcomeOf(Newest(s)) == Some(S.HttpError(st)) && st < 500 && st != 429)
            && (s.shown.kind == Timeout <==> OutcomeOf(Newest(s)) == Some(S.TimeoutError))
            && (s.shown.kind == JobLost <==> OutcomeOf(Newest(s)) == Some(S.JobNotFound))
            && (s.shown.kind == Network <==> OutcomeOf(Newest(s)) == Some(S.NetworkError))
            && OutcomeOf(Newest(s)) != Some(S.Cancelled))
  {
    RunKeepsInv(Init(now), events);
    var s := After(Init(now), events);
    if |s.calls| > 0 { assert CallOk(s, |s.calls| - 1); }
  }

  predicate NoTranslate(events: seq<Event>) {
    forall i :: 0 <= i < |events| ==> !events[i].TranslateClicked?
  }

  /** Without a current request nothing but "Traducir" starts one: whatever abandoned calls still hear, nothing is
      shown. */
  lemma {:induction false} StaysIdle(s: State, events: seq<Event>)
    requires Inv(s) && !HasCurrentRequest(s) && Runs(s, events) && NoTranslate(events)
    ensures Inv(After(s, events)) && !HasCurrentRequest(After(s, events))
    decreases |events|
  {
    hide Inv, S.Cancel, S.Next, S.Enabled;
    if events != [] {
      StepKeepsInv(s, events[0]);
      assert events[0] in events;
      NumbersOnlyGrow(s, events[0]);
      StaysIdle(Next(s, events[0]), events[1..]);
    }
  }

  lemma NumbersOnlyGrow(s: State, e: Event)
    requires Inv(s) && Enabled(s, e) && !HasCurrentRequest(s) && !e.TranslateClicked?
    ensures !HasCurrentRequest(Next(s, e))
  {
    hide S.Inv, S.Cancel, S.Next, S.Enabled;
    if |s.calls| > 0 { assert CallOk(s, |s.calls| - 1); }
  }

  /** "Borrar" and the swap leave nothing behind, in every run: no live session, and nothing shown until "Traducir" is
      used again; the one empties the input, the other turns the direction round. */
  lemma AbandoningIsForGood(now: int, events: seq<Event>, handler: Event, later: seq<Event>)
    requires Runs(Init(now), events) && (handler == ClearClicked || handler == SwapClicked)
    requires Enabled(After(Init(now), events), handler)
    requires Runs(Next(After(Init(now), events), handler), later) && NoTranslate(later)
    ensures var s := After(Init(now), events);
      var s1 := Next(s, handler);
      && (forall i :: 0 <= i < |s1.calls| ==> s1.calls[i].session.settled)
      && After(s1, later).shown.Idle?
      && (handler == ClearClicked ==> s1.input == "" && s1.direction == s.direction)
      && (handler == SwapClicked ==>
            && s1.direction != s.direction
            && s1.input == if s.shown.Success? then s.shown.translation else s.input)
  {
    hide Runs, After, Inv, ShownOk, CallOk, S.Inv, S.Cancel;
    assert Inv(Init(now)) by { FreshPage(now); }
    RunKeepsInv(Init(now), events);
    var s := After(Init(now), events);
    AbandonKeepsCalls(s);
    StepKeepsInv(s, handler);
    StaysIdle(Next(s, handler), later);
    IdleWithoutRequest(After(Next(s, handler), later));
  }

  lemma FreshPage(now: int)
    ensures Inv(Init(now))
  {
  }

  lemma IdleWithoutRequest(s: State)
    requires Inv(s) && !HasCurrentRequest(s)
    ensures s.shown.Idle?
  {
  }

  /** `currentSession` is the only live session: no abandoned poll loop is left running. */
  lemma OnlyTheCurrentSessionIsLive(now: int, events: seq<Event>)
    requires Runs(Init(now), events)
    ensures var s := After(Init(now), events);
      && (forall i :: 0 <= i < |s.calls| ==> (!s.calls[i].session.settled <==> s.current == Some(i)))
      && (forall i :: 0 <= i < |s.calls| && !s.calls[i].session.settled ==> i == |s.calls| - 1 && IsTranslating(s))
  {
    RunKeepsInv(Init(now), events);
    var s := After(Init(now), events);
    forall i | 0 <= i < |s.calls|
      ensures !s.calls[i].session.settled <==> s.current == Some(i)
      ensures !s.calls[i].session.settled ==> i == |s.calls| - 1 && IsTranslating(s)
    {
      assert CallOk(s, i);
    }
  }

  /** The spinner cannot last: once the newest session's time is up, its continuation can run. */
  lemma SpinnerEnds(now: int, events: seq<Event>)
    requires Runs(Init(now), events)
    ensures var s := After(Init(now), events);
      HasCurrentRequest(s) && IsTranslating(s) && Newest(s).session.now > Newest(s).session.start + 120_000 ==>
        && Enabled(s, Continue(|s.calls| - 1))
        && !IsTranslating(Next(s, Continue(|s.calls| - 1)))
  {
    RunKeepsInv(Init(now), events);
    var s := After(Init(now), events);
    if |s.calls| > 0 { assert CallOk(s, |s.calls| - 1); }
  }

  /** Swapping on a shown translation and translating again sends that translation back in the other direction, under
      a number of its own and with every earlier session cancelled. */
  lemma SwapSendsTheTranslationBack(now: int, events: seq<Event>)
    requires Runs(Init(now), events) && After(Init(now), events).shown.Success?
    ensures var s := After(Init(now), events);
      var s' := Swap(s);
      && Enabled(s', TranslateClicked)
      && (forall i :: 0 <= i < |s'.calls| ==> s'.calls[i].session.settled && s'.calls[i].requestId < s'.requestId)
      && var t := RunTranslate(s');
      && Newest(t).request.text == s.shown.translation && Newest(t).request.direction != s.direction
      && Newest(t).requestId == t.requestId > s'.requestId
  {
    RunKeepsInv(Init(now), events);
    AbandonKeepsCalls(After(Init(now), events));
  }

  // ----------------------------------------------------------------- the page in place

  class Page {
    var requestId: nat
    var input: string
    var direction: Direction
    var shown: Shown
    var calls: seq<Call>
    var current: Option<nat>
    var now: int

    ghost function View(): State
      reads this
    {
      State(requestId, input, direction, shown, calls, current, now)
    }

    constructor (clock: int)
      ensures View() == Init(clock)
    {
      requestId, input, direction, shown := 0, "", EsToCak, Idle;
      calls, current, now := [], None, clock;
    }

    method CancelTranslate()
      modifies this
      ensures View() == CancelCurrent(old(View()))
    {
      if current.None? || current.value >= |calls| || calls[current.value].session.settled {
        return;
      }
      var i := current.value;
      current := None;
      calls := calls[i := calls[i].(session := S.Cancel(calls[i].session))];
    }

    method HandleSwap()
      modifies this
      ensures View() == Swap(old(View()))
    {
      requestId := requestId + 1;
      CancelTranslate();
      if shown.Success? {
        input := shown.translation;
      }
      direction := Opposite(direction);
      shown := Idle;
    }

    method HandleClear()
      modifies this
      ensures View() == Clear(old(View()))
    {
      requestId := requestId + 1;
      CancelTranslate();
      input := "";
      shown := Idle;
    }

    /** `runTranslate` up to its await. */
    method StartTranslate()
      modifies this
      ensures View() == RunTranslate(old(View()))
    {
      requestId := requestId + 1;
      var request := Request(input, direction);
      shown := Loading;
      current := Some(|calls|);
      calls := calls + [Call(requestId, request, S.Start(now), Some(now + WARMING_UP_DELAY_MS), false)];
    }

    /** `runTranslate` after its await. */
    method Resume(i: nat)
      requires i < |calls| && |calls[i].session.outcomes| > 0
      modifies this
      ensures View() == Continued(old(View()), i)
    {
      var call := calls[i];
      var outcome := call.session.outcomes[0].outcome;
      if requestId == call.requestId {
        if outcome.Translated? {
          shown := Shown.Success(outcome.translation, call.request.text);
        } else {
          shown := Error(ClassifyError(outcome));
        }
      }
      calls := calls[i := call.(delivered := true, warmingAt := None)];
    }

    method OnWarmingTimer(i: nat)
      requires i < |calls|
      modifies this
      ensures View() == WarmedUp(old(View()), i)
    {
      calls := calls[i := calls[i].(warmingAt := None)];
      if requestId == calls[i].requestId {
        shown := Warming;
      }
    }
  }
}
