/** The race between the Request, Worker and onFailure Lambdas as a step relation over the table, the clock and the
    invocations in flight.  Crashes may happen at any Worker step and each is followed by one onFailure delivery;
    invocations may be delivered more than once and late, and the TTL sweep removes any expired item at any time.
    Assumed: job ids are fresh. */
module JobProtocol {
  import opened Options
  import opened Jobs

  datatype Stage =
    | Queued
    | HasInput(request: Request)
    | HasAnswer(answer: Terminal)
    | HasWritten
    | Returned
    | Crashed
    | FailureHandled

  datatype Invocation = Invocation(job: string, stage: Stage)

  /** `requests`, `answers`, `reports` and `gets` are the history: what was submitted, what the endpoint answered to
      which request, which jobs the onFailure Lambda wrote for, and what each job's GETs returned. */
  datatype State = State(items: Items, now: int, invocations: seq<Invocation>,
                         requests: map<string, Request>, answers: set<(Request, Terminal)>, reports: set<string>,
                         gets: map<string, seq<Response>>)

  datatype Event =
    | Create(id: string, request: Request)
    | Invoke(id: string)
    | WorkerRead(k: nat)
    | WorkerCall(k: nat, answer: Terminal)
    | WorkerWrite(k: nat)
    | WorkerReturn(k: nat)
    | WorkerCrash(k: nat)
    | FailureWrite(k: nat)
    | Tick(seconds: nat)
    | Sweep(id: string)
    | Get(id: string)

  function Init(now: int): State {
    State(map[], now, [], map[], {}, {}, map[])
  }

  predicate Outstanding(i: Invocation) {
    !i.stage.Returned? && !i.stage.FailureHandled?
  }

  predicate AtStage(s: State, k: nat, working: bool) {
    k < |s.invocations| && Outstanding(s.invocations[k]) && (s.invocations[k].stage.Crashed? <==> !working)
  }

  predicate Enabled(s: State, e: Event) {
    match e
    case Create(id, _) => id !in s.requests
    case Invoke(id) => id in s.requests
    case WorkerRead(k) => AtStage(s, k, true) && s.invocations[k].stage.Queued?
    case WorkerCall(k, _) => AtStage(s, k, true) && s.invocations[k].stage.HasInput?
    case WorkerWrite(k) => AtStage(s, k, true) && s.invocations[k].stage.HasAnswer?
    case WorkerReturn(k) => AtStage(s, k, true) && s.invocations[k].stage.HasWritten?
    case WorkerCrash(k) => AtStage(s, k, true)
    case FailureWrite(k) => AtStage(s, k, false)
    case Tick(_) => true
    case Sweep(id) => id in s.items && s.items[id].ttl.Some? && s.items[id].ttl.value < s.now
    case Get(id) => id in s.requests
  }

  function SetStage(s: State, k: nat, stage: Stage): State
    requires k < |s.invocations|
  {
    s.(invocations := s.invocations[k := s.invocations[k].(stage := stage)])
  }

  function Observe(s: State, id: string): Response {
    GetTranslateJob(s.items, id, s.now, true)
  }

  function Gets(s: State, id: string): seq<Response> {
    if id in s.gets then s.gets[id] else []
  }

  function Next(s: State, e: Event): State
    requires Enabled(s, e)
  {
    match e
    case Create(id, request) =>
      s.(items := s.items[id := PendingItem(request, s.now)], requests := s.requests[id := request])
    case Invoke(id) => s.(invocations := s.invocations + [Invocation(id, Queued)])
    case WorkerRead(k) =>
      (match GetJobInput(s.items, s.invocations[k].job)
       case Gone => SetStage(s, k, Returned)
       case Malformed => SetStage(s, k, Crashed)
       case Submitted(request) => SetStage(s, k, HasInput(request)))
    case WorkerCall(k, answer) =>
      SetStage(s, k, HasAnswer(answer)).(answers := s.answers + {(s.invocations[k].stage.request, answer)})
    case WorkerWrite(k) =>
      SetStage(s, k, HasWritten).(
        items := ConditionalUpdate(s.items, s.invocations[k].job, s.invocations[k].stage.answer))
    case WorkerReturn(k) => SetStage(s, k, Returned)
    case WorkerCrash(k) => SetStage(s, k, Crashed)
    case FailureWrite(k) =>
      SetStage(s, k, FailureHandled).(
        items := ConditionalUpdate(s.items, s.invocations[k].job, WORKER_FAILURE),
        reports := s.reports + {s.invocations[k].job})
    case Tick(seconds) => s.(now := s.now + seconds)
    case Sweep(id) => s.(items := s.items - {id})
    case Get(id) => s.(gets := s.gets[id := Gets(s, id) + [Observe(s, id)]])
  }

  // ------------------------------------------------------------------ invariant

  /** What a terminal write left behind whose job had been swept: no ttl and no request, so every GET fails on it. */
  predicate IsStray(item: Item) {
    item.ttl.None?
  }

  /** Where a terminal answer for a job may come from: the endpoint, asked with the job's own request, or the onFailure
      Lambda, whose answer is always the same. */
  predicate Justified(s: State, id: string, t: Terminal) {
    id in s.requests
    && ((s.requests[id], t) in s.answers
        || (id in s.reports
            && t == Failure(504, "El servicio de traducción tardó demasiado en responder. Inténtalo de nuevo.")))
  }

  /** A stored item has what its status calls for, and that is justified; it carries the job's own request unless it is
      a stray, which is always terminal. */
  predicate ItemOk(s: State, id: string)
    requires id in s.items
  {
    var item := s.items[id];
    && id in s.requests && item.status.Some?
    && (item.status.value == Succeeded ==>
          item.translation.Some? && Justified(s, id, Success(item.translation.value)))
    && (item.status.value == Failed ==>
          item.statusCode.Some? && item.error.Some?
          && Justified(s, id, Failure(item.statusCode.value, item.error.value)))
    && (if IsStray(item) then item.text.None? && IsTerminal(item)
        else item.text == Some(s.requests[id].text) && item.direction == Some(s.requests[id].direction))
  }

  /** An invocation works on its job's own request, and once it has written, or found nothing to do, the job is
      settled. */
  predicate InvocationOk(s: State, i: Invocation) {
    && i.job in s.requests
    && (i.stage.HasInput? ==> i.stage.request == s.requests[i.job])
    && (i.stage.HasAnswer? ==> Justified(s, i.job, i.stage.answer))
    && (i.stage.HasWritten? || i.stage.Returned? || i.stage.FailureHandled? ==> Settled(s, i.job))
  }

  predicate Settled(s: State, id: string) {
    id in s.items ==> IsTerminal(s.items[id])
  }

  ghost predicate Inv(s: State) {
    && (forall id :: id in s.items ==> ItemOk(s, id))
    && (forall i :: i in s.invocations ==> InvocationOk(s, i))
  }

  lemma UpdateKeepsItem(s: State, id: string, other: string, t: Terminal)
    requires id in s.requests && (other in s.items ==> ItemOk(s, other)) && (id in s.items ==> ItemOk(s, id))
    requires Justified(s, id, t)
    ensures var s' := s.(items := ConditionalUpdate(s.items, id, t));
      && (other in s'.items <==> other in s.items || other == id)
      && (other in s'.items ==> ItemOk(s', other) && (other == id ==> IsTerminal(s'.items[other])))
      && (other in s.items && IsTerminal(s.items[other]) ==> s'.items[other] == s.items[other])
  {
    hide Justified, GetTranslateJob;
    var s' := s.(items := ConditionalUpdate(s.items, id, t));
    if other == id {
      WrittenItemIsOk(s, id, t);
    } else if other in s.items {
      assert s'.items[other] == s.items[other];
      SameItemIsOk(s, s', other);
    }
  }

  lemma WrittenItemIsOk(s: State, id: string, t: Terminal)
    requires id in s.requests && (id in s.items ==> ItemOk(s, id)) && Justified(s, id, t)
    ensures var s' := s.(items := ConditionalUpdate(s.items, id, t));
      id in s'.items && ItemOk(s', id) && IsTerminal(s'.items[id])
  {
    hide Justified, GetTranslateJob;
    var s' := s.(items := ConditionalUpdate(s.items, id, t));
    JustifiedByHistory(s, s', id, t);
    if id in s.items && s'.items[id] == s.items[id] { SameItemIsOk(s, s', id); }
  }

  lemma JustifiedByHistory(s: State, s': State, id: string, t: Terminal)
    requires Justified(s, id, t)
    requires s'.requests == s.requests && s.answers <= s'.answers && s.reports <= s'.reports
    ensures Justified(s', id, t)
  {
  }

  lemma SameItemIsOk(s: State, s': State, id: string)
    requires id in s.items && ItemOk(s, id) && id in s'.items && s'.items[id] == s.items[id]
    requires s'.requests == s.requests && s.answers <= s'.answers && s.reports <= s'.reports
    ensures ItemOk(s', id)
  {
    hide Justified;
    var item := s.items[id];
    if item.status.value == Succeeded {
      JustifiedByHistory(s, s', id, Success(item.translation.value));
    } else if item.status.value == Failed {
      JustifiedByHistory(s, s', id, Failure(item.statusCode.value, item.error.value));
    }
  }

  /** One terminal write, by whichever handler, keeps the invariant. */
  lemma WriteKeepsInv(s: State, k: nat, t: Terminal, stage: Stage)
    requires Inv(s) && k < |s.invocations| && Justified(s, s.invocations[k].job, t)
    requires stage.HasWritten? || stage.FailureHandled?
    ensures Inv(SetStage(s, k, stage).(items := ConditionalUpdate(s.items, s.invocations[k].job, t)))
  {
    hide GetTranslateJob, ConditionalUpdate;
    var id := s.invocations[k].job;
    var s' := SetStage(s, k, stage).(items := ConditionalUpdate(s.items, id, t));
    assert InvocationOk(s, s.invocations[k]);
    forall other | other in s'.items ensures ItemOk(s', other) { UpdateKeepsItem(s, id, other, t); }
    forall i | i in s'.invocations ensures InvocationOk(s', i) {
      var j :| 0 <= j < |s'.invocations| && s'.invocations[j] == i;
      assert InvocationOk(s, s.invocations[j]);
      UpdateKeepsItem(s, id, i.job, t);
    }
  }

  /** More history keeps the invariant. */
  lemma HistoryKeepsInv(s: State, answers: set<(Request, Terminal)>, reports: set<string>)
    requires Inv(s) && s.answers <= answers && s.reports <= reports
    ensures Inv(s.(answers := answers, reports := reports))
  {
    var s' := s.(answers := answers, reports := reports);
    hide Justified, GetTranslateJob;
    forall id | id in s'.items ensures ItemOk(s', id) { SameItemIsOk(s, s', id); }
    forall i | i in s'.invocations ensures InvocationOk(s', i) {
      assert InvocationOk(s, i);
      if i.stage.HasAnswer? { JustifiedByHistory(s, s', i.job, i.stage.answer); }
    }
  }

  /** Moving one invocation to another stage keeps the invariant when the new stage is justified. */
  lemma StageKeepsInv(s: State, k: nat, stage: Stage)
    requires Inv(s) && k < |s.invocations| && InvocationOk(s, s.invocations[k].(stage := stage))
    ensures Inv(SetStage(s, k, stage))
  {
    hide GetTranslateJob, ConditionalUpdate;
    var s' := SetStage(s, k, stage);
    forall id | id in s'.items ensures ItemOk(s', id) { assert ItemOk(s, id); }
    forall i | i in s'.invocations ensures InvocationOk(s', i) {
      var j :| 0 <= j < |s'.invocations| && s'.invocations[j] == i;
      assert s.invocations[j] in s.invocations;
    }
  }

  lemma CallKeepsInv(s: State, k: nat, answer: Terminal)
    requires Inv(s) && Enabled(s, WorkerCall(k, answer))
    ensures Inv(Next(s, WorkerCall(k, answer)))
  {
    hide ItemOk;
    var grown := s.(answers := s.answers + {(s.invocations[k].stage.request, answer)});
    assert InvocationOk(s, s.invocations[k]);
    HistoryKeepsInv(s, grown.answers, s.reports);
    StageKeepsInv(grown, k, HasAnswer(answer));
    assert Next(s, WorkerCall(k, answer)) == SetStage(grown, k, HasAnswer(answer));
  }

  lemma FailureKeepsInv(s: State, k: nat)
    requires Inv(s) && Enabled(s, FailureWrite(k))
    ensures Inv(Next(s, FailureWrite(k)))
  {
    hide ItemOk, ConditionalUpdate;
    var grown := s.(reports := s.reports + {s.invocations[k].job});
    assert InvocationOk(s, s.invocations[k]);
    HistoryKeepsInv(s, s.answers, grown.reports);
    WriteKeepsInv(grown, k, WORKER_FAILURE, FailureHandled);
    assert Next(s, FailureWrite(k)) == SetStage(grown, k, FailureHandled).(
        items := ConditionalUpdate(s.items, s.invocations[k].job, WORKER_FAILURE));
  }

  lemma ReadKeepsInv(s: State, k: nat)
    requires Inv(s) && Enabled(s, WorkerRead(k))
    ensures Inv(Next(s, WorkerRead(k)))
  {
    var i := s.invocations[k];
    assert InvocationOk(s, i);
    if i.job in s.items { assert ItemOk(s, i.job); }
    StageKeepsInv(s, k, match GetJobInput(s.items, i.job)
                        case Gone => Returned
                        case Malformed => Crashed
                        case Submitted(request) => HasInput(request));
  }

  lemma OtherStepsKeepInv(s: State, e: Event)
    requires Inv(s) && Enabled(s, e) && (e.Create? || e.Invoke? || e.Tick? || e.Sweep? || e.Get?)
    ensures Inv(Next(s, e))
  {
    hide GetTranslateJob;
    var s' := Next(s, e);
    forall id | id in s'.items ensures ItemOk(s', id) {
      if id in s.items { assert ItemOk(s, id); }
    }
    forall i | i in s'.invocations ensures InvocationOk(s', i) {
      if i in s.invocations { assert InvocationOk(s, i); }
    }
  }

  /** Every step of the protocol keeps the invariant. */
  lemma StepKeepsInv(s: State, e: Event)
    requires Inv(s) && Enabled(s, e)
    ensures Inv(Next(s, e))
  {
    match e {
      case WorkerRead(k) => ReadKeepsInv(s, k);
      case WorkerCall(k, answer) => CallKeepsInv(s, k, answer);
      case WorkerWrite(k) =>
        assert InvocationOk(s, s.invocations[k]);
        WriteKeepsInv(s, k, s.invocations[k].stage.answer, HasWritten);
      case WorkerReturn(k) =>
        assert InvocationOk(s, s.invocations[k]);
        StageKeepsInv(s, k, Returned);
      case WorkerCrash(k) =>
        assert InvocationOk(s, s.invocations[k]);
        StageKeepsInv(s, k, Crashed);
      case FailureWrite(k) => FailureKeepsInv(s, k);
      case _ => OtherStepsKeepInv(s, e);
    }
  }

  // ------------------------------------------------------- what one step may change

  /** How a job's GET answer may move on: pending may become anything later, a terminal answer may only be lost, and
      once a GET fails every later one does. */
  predicate Advances(before: Response, after: Response) {
    match before
    case StillPending => after != BadRequest
    case Done(_) => after == before || after == NotFound || after == ServerError
    case NotFound => after == NotFound || after == ServerError
    case ServerError => after == ServerError
    case BadRequest => false
  }

  predicate HasStray(s: State, id: string) {
    id in s.items && IsStray(s.items[id])
  }

  /** An item keeps its ttl, and its content once it is settled, for as long as it is there; once it is gone nothing but
      a stray takes its place, and a stray stays. */
  predicate KeepsItem(s: State, s': State, id: string) {
    && s.now <= s'.now
    && (HasStray(s, id) ==> HasStray(s', id) && s'.items[id] == s.items[id])
    && (id in s'.items && !HasStray(s', id) && id in s.requests ==>
          && id in s.items && s.items[id].ttl == s'.items[id].ttl
          && (IsTerminal(s.items[id]) ==> s'.items[id] == s.items[id]))
  }

  /** A terminal write for the job that finds its item gone. */
  predicate FindsItemGone(s: State, e: Event, id: string)
    requires Enabled(s, e)
  {
    (e.WorkerWrite? || e.FailureWrite?) && s.invocations[e.k].job == id && id !in s.items
  }

  lemma StepKeepsItem(s: State, e: Event, id: string)
    requires Inv(s) && Enabled(s, e)
    ensures KeepsItem(s, Next(s, e), id)
    ensures id in s.requests ==> id in Next(s, e).requests && Next(s, e).requests[id] == s.requests[id]
    ensures HasStray(Next(s, e), id) <==> HasStray(s, id) || FindsItemGone(s, e, id)
  {
    hide GetTranslateJob, GetJobInput, ConditionalUpdate;
    if id in s.items { assert ItemOk(s, id); }
    if e.WorkerWrite? {
      WriteKeepsItem(s, s.invocations[e.k].job, s.invocations[e.k].stage.answer, id);
    } else if e.FailureWrite? {
      WriteKeepsItem(s, s.invocations[e.k].job, WORKER_FAILURE, id);
    } else {
      OtherStepKeepsItem(s, e, id);
    }
  }

  lemma OtherStepKeepsItem(s: State, e: Event, id: string)
    requires Enabled(s, e) && !e.WorkerWrite? && !e.FailureWrite? && (id in s.items ==> id in s.requests)
    ensures KeepsItem(s, Next(s, e), id) && (HasStray(Next(s, e), id) <==> HasStray(s, id))
    ensures id in s.requests ==> id in Next(s, e).requests && Next(s, e).requests[id] == s.requests[id]
  {
    hide GetTranslateJob, GetJobInput;
  }

  lemma WriteKeepsItem(s: State, job: string, t: Terminal, id: string)
    requires id in s.items ==> ItemOk(s, id)
    ensures var s' := s.(items := ConditionalUpdate(s.items, job, t));
      KeepsItem(s, s', id) && (HasStray(s', id) <==> HasStray(s, id) || (job == id && id !in s.items))
  {
  }

  /** Only a stray makes a GET fail. */
  lemma FailsIffStray(s: State, id: string)
    requires Inv(s)
    ensures Observe(s, id) == ServerError <==> HasStray(s, id)
  {
    if id in s.items { assert ItemOk(s, id); }
  }

  lemma KeepingAdvances(s: State, s': State, id: string)
    requires Inv(s) && Inv(s') && id in s.requests && KeepsItem(s, s', id)
    ensures Advances(Observe(s, id), Observe(s', id))
  {
    hide Justified;
    if id in s.items { assert ItemOk(s, id); }
    if id in s'.items { assert ItemOk(s', id); }
  }

  lemma StepAdvances(s: State, e: Event, id: string)
    requires Inv(s) && Enabled(s, e) && id in s.requests
    ensures Advances(Observe(s, id), Observe(Next(s, e), id))
  {
    hide Next, Enabled, ConditionalUpdate, Inv, KeepsItem;
    StepKeepsItem(s, e, id);
    StepKeepsInv(s, e);
    KeepingAdvances(s, Next(s, e), id);
  }

  // ------------------------------------------------------------------- whole runs

  ghost predicate Runs(s: State, events: seq<Event>)
    decreases |events|
  {
    events == [] || (Enabled(s, events[0]) && Runs(Next(s, events[0]), events[1..]))
  }

  function After(s: State, events: seq<Event>): State
    requires Runs(s, events)
    decreases |events|
  {
    if events == [] then s else After(Next(s, events[0]), events[1..])
  }

  lemma {:induction false} RunKeepsInv(s: State, events: seq<Event>)
    requires Inv(s) && Runs(s, events)
    ensures Inv(After(s, events))
    decreases |events|
  {
    if events != [] {
      StepKeepsInv(s, events[0]);
      RunKeepsInv(Next(s, events[0]), events[1..]);
    }
  }

  lemma KeepsItemIsTransitive(s: State, s1: State, s2: State, id: string)
    requires KeepsItem(s, s1, id) && KeepsItem(s1, s2, id) && (id in s.requests ==> id in s1.requests)
    ensures KeepsItem(s, s2, id)
  {
  }

  /** Write-once: over any run, an item's first terminal status and payload never change while it is there, a served
      answer never changes, and a swept job is never served again. */
  lemma {:induction false} WriteOnce(s: State, events: seq<Event>, id: string)
    requires Inv(s) && Runs(s, events) && id in s.requests
    ensures var s' := After(s, events);
      && id in s'.requests && s'.requests[id] == s.requests[id]
      && KeepsItem(s, s', id)
      && Advances(Observe(s, id), Observe(s', id))
    decreases |events|
  {
    hide Next, Enabled, KeepsItem, Inv, Observe, Advances;
    RunKeepsInv(s, events);
    if events == [] {
      KeepsItself(s, id);
    } else {
      var s1 := Next(s, events[0]);
      StepKeepsItem(s, events[0], id);
      StepKeepsInv(s, events[0]);
      WriteOnce(s1, events[1..], id);
      KeepsItemIsTransitive(s, s1, After(s1, events[1..]), id);
    }
    KeepingAdvances(s, After(s, events), id);
  }

  lemma KeepsItself(s: State, id: string)
    ensures KeepsItem(s, s, id)
  {
  }

  /** Some Worker of the run, working on this request, got this answer from the endpoint. */
  ghost predicate Calls(s: State, events: seq<Event>, request: Request, t: Terminal)
    requires Runs(s, events)
    decreases |events|
  {
    events != []
    && ((events[0].WorkerCall? && events[0].answer == t && s.invocations[events[0].k].stage.request == request)
        || Calls(Next(s, events[0]), events[1..], request, t))
  }

  /** The onFailure Lambda wrote for this job in the run. */
  ghost predicate HandlesCrash(s: State, events: seq<Event>, id: string)
    requires Runs(s, events)
    decreases |events|
  {
    events != []
    && ((events[0].FailureWrite? && s.invocations[events[0].k].job == id)
        || HandlesCrash(Next(s, events[0]), events[1..], id))
  }

  lemma {:induction false} HistoryIsTheRuns(s: State, events: seq<Event>, request: Request, t: Terminal, id: string)
    requires Runs(s, events)
    ensures (request, t) in After(s, events).answers <==> (request, t) in s.answers || Calls(s, events, request, t)
    ensures id in After(s, events).reports <==> id in s.reports || HandlesCrash(s, events, id)
    decreases |events|
  {
    if events != [] { HistoryIsTheRuns(Next(s, events[0]), events[1..], request, t, id); }
  }

  /** In every state reachable from the empty table a served translation is the endpoint's answer to that job's own text
      and direction. */
  lemma ServedTranslationIsTheAnswer(now: int, events: seq<Event>, id: string)
    requires Runs(Init(now), events)
    ensures var s := After(Init(now), events);
      Observe(s, id).Done? && Observe(s, id).t.Success? ==>
        && id in s.requests && (s.requests[id], Observe(s, id).t) in s.answers
        && Calls(Init(now), events, s.requests[id], Observe(s, id).t)
  {
    var s := After(Init(now), events);
    if Observe(s, id).Done? && Observe(s, id).t.Success? {
      ServedAnswerIsJustified(now, events, id);
      HistoryIsTheRuns(Init(now), events, s.requests[id], Observe(s, id).t, id);
    }
  }

  lemma ServedAnswerIsJustified(now: int, events: seq<Event>, id: string)
    requires Runs(Init(now), events)
    ensures var s := After(Init(now), events); Observe(s, id).Done? ==> Justified(s, id, Observe(s, id).t)
  {
    RunKeepsInv(Init(now), events);
    var s := After(Init(now), events);
    if id in s.items { assert ItemOk(s, id); }
  }

  /** And a served failure is the endpoint's answer to that job's own request, or the one fixed answer that the
      onFailure Lambda wrote for that job. */
  lemma ServedFailureIsTheAnswer(now: int, events: seq<Event>, id: string, code: int, error: string)
    requires Runs(Init(now), events) && Observe(After(Init(now), events), id) == Done(Failure(code, error))
    ensures var s := After(Init(now), events);
      && id in s.requests
      && (Calls(Init(now), events, s.requests[id], Failure(code, error))
          || (HandlesCrash(Init(now), events, id) && code == 504
              && error == "El servicio de traducción tardó demasiado en responder. Inténtalo de nuevo."))
  {
    ServedAnswerIsJustified(now, events, id);
    HistoryIsTheRuns(Init(now), events, After(Init(now), events).requests[id], Failure(code, error), id);
  }

  /** Some terminal write of the run found its job's item gone. */
  ghost predicate LosesItem(s: State, events: seq<Event>, id: string)
    requires Runs(s, events)
    decreases |events|
  {
    events != [] && (FindsItemGone(s, events[0], id) || LosesItem(Next(s, events[0]), events[1..], id))
  }

  lemma {:induction false} StrayIff(s: State, events: seq<Event>, id: string)
    requires Inv(s) && Runs(s, events)
    ensures HasStray(After(s, events), id) <==> HasStray(s, id) || LosesItem(s, events, id)
    decreases |events|
  {
    hide Next, Enabled, FindsItemGone, HasStray, Inv;
    if events != [] {
      StepKeepsItem(s, events[0], id);
      StepKeepsInv(s, events[0]);
      StrayIff(Next(s, events[0]), events[1..], id);
    }
  }

  /** With the sweep free to come at any time: a job's GET fails exactly when some terminal write so far found its item
      gone. */
  lemma GetFailsIff(now: int, events: seq<Event>, id: string)
    requires Runs(Init(now), events)
    ensures Observe(After(Init(now), events), id) == ServerError <==> LosesItem(Init(now), events, id)
  {
    RunKeepsInv(Init(now), events);
    StrayIff(Init(now), events, id);
    FailsIffStray(After(Init(now), events), id);
  }

  /** A run in which this happens: the item expires and is swept between the Worker's call and its write. */
  lemma LateWriteFails(now: int, id: string, request: Request, answer: Terminal) returns (events: seq<Event>)
    ensures Runs(Init(now), events) && Observe(After(Init(now), events), id) == ServerError
  {
    hide Observe, ConditionalUpdate, Runs, After;
    var s3 := QueuedJobIsRead(now, id, request);
    var s4 := Next(s3, WorkerCall(0, answer));
    var s5 := Next(s4, Tick(JOB_TTL_SECONDS + 1));
    var s6 := Next(s5, Sweep(id));
    FourSteps(s3, WorkerCall(0, answer), s4, Tick(JOB_TTL_SECONDS + 1), s5, Sweep(id), s6, WorkerWrite(0),
              Next(s6, WorkerWrite(0)));
    var ending := [WorkerCall(0, answer), Tick(JOB_TTL_SECONDS + 1), Sweep(id), WorkerWrite(0)];
    var s1 := Next(Init(now), Create(id, request));
    FirstStep(Next(s1, Invoke(id)), WorkerRead(0), ending);
    FirstStep(s1, Invoke(id), [WorkerRead(0)] + ending);
    FirstStep(Init(now), Create(id, request), [Invoke(id)] + ([WorkerRead(0)] + ending));
    events := [Create(id, request)] + ([Invoke(id)] + ([WorkerRead(0)] + ending));
    assert s6.items == map[];
    assert After(Init(now), events) == Next(s6, WorkerWrite(0));
    StrayFails(Next(s6, WorkerWrite(0)), id, answer);
  }

  lemma StrayFails(s: State, id: string, answer: Terminal)
    requires s.items == ConditionalUpdate(map[], id, answer)
    ensures Observe(s, id) == ServerError
  {
  }

  lemma QueuedJobIsRead(now: int, id: string, request: Request) returns (s3: State)
    ensures var s1 := Next(Init(now), Create(id, request));
      && Enabled(s1, Invoke(id)) && Enabled(Next(s1, Invoke(id)), WorkerRead(0))
      && s3 == Next(Next(s1, Invoke(id)), WorkerRead(0))
    ensures s3.items == map[id := PendingItem(request, now)] && s3.now == now
    ensures s3.invocations == [Invocation(id, HasInput(request))]
  {
    hide GetTranslateJob, ConditionalUpdate;
    var s1 := Next(Init(now), Create(id, request));
    s3 := Next(Next(s1, Invoke(id)), WorkerRead(0));
  }

  /** The sweep, and late deliveries, leave a job alone while a delivery for it is outstanding. */
  predicate Spares(s: State, e: Event) {
    && (e.Invoke? ==> e.id in s.items)
    && (e.Sweep? ==> forall i :: i in s.invocations && i.job == e.id ==> !Outstanding(i))
  }

  ghost predicate SparingRun(s: State, events: seq<Event>)
    requires Runs(s, events)
    decreases |events|
  {
    events == [] || (Spares(s, events[0]) && SparingRun(Next(s, events[0]), events[1..]))
  }

  /** Every outstanding delivery still has its item. */
  ghost predicate Attended(s: State) {
    forall i :: i in s.invocations && Outstanding(i) ==> i.job in s.items
  }

  lemma SparingStepAttends(s: State, e: Event)
    requires Enabled(s, e) && Attended(s) && Spares(s, e)
    ensures Attended(Next(s, e)) && forall id :: !FindsItemGone(s, e, id)
  {
    hide GetTranslateJob;
    var s' := Next(s, e);
    forall i | i in s'.invocations && Outstanding(i) ensures i.job in s'.items {
      if i !in s.invocations && !e.Invoke? {
        var j := s.invocations[e.k];
        assert Outstanding(j) && j in s.invocations && i.job == j.job;
      }
    }
    if e.WorkerWrite? || e.FailureWrite? { assert s.invocations[e.k] in s.invocations; }
  }

  lemma {:induction false} SparingRunLosesNothing(s: State, events: seq<Event>, id: string)
    requires Attended(s) && Runs(s, events) && SparingRun(s, events)
    ensures !LosesItem(s, events, id)
    decreases |events|
  {
    hide Next, Enabled, FindsItemGone, Attended, Spares;
    if events != [] {
      SparingStepAttends(s, events[0]);
      SparingRunLosesNothing(Next(s, events[0]), events[1..], id);
    }
  }

  /** So no GET ever fails if the sweep spares jobs with an outstanding delivery. */
  lemma NoGetFails(now: int, events: seq<Event>, id: string)
    requires Runs(Init(now), events) && SparingRun(Init(now), events)
    ensures Observe(After(Init(now), events), id) != ServerError
  {
    SparingRunLosesNothing(Init(now), events, id);
    GetFailsIff(now, events, id);
  }

  /** No job is left behind: when nothing is outstanding, every job that was ever invoked is settled (or swept). */
  lemma NoJobLeftBehind(now: int, events: seq<Event>)
    requires Runs(Init(now), events)
    requires forall i :: i in After(Init(now), events).invocations ==> !Outstanding(i)
    ensures var s := After(Init(now), events);
      forall i :: i in s.invocations ==> Settled(s, i.job) && Observe(s, i.job) != StillPending
  {
    RunKeepsInv(Init(now), events);
    var s := After(Init(now), events);
    forall i | i in s.invocations ensures Settled(s, i.job) && Observe(s, i.job) != StillPending {
      assert InvocationOk(s, i);
    }
  }

  /** How many protocol steps an invocation still has before it at most. */
  function Remaining(stage: Stage): nat {
    match stage
    case Queued => 6
    case HasInput(_) => 5
    case HasAnswer(_) => 4
    case HasWritten => 3
    case Crashed => 1
    case Returned => 0
    case FailureHandled => 0
  }

  /** An outstanding invocation can always move, and every move of its own brings it closer to its end. */
  lemma OutstandingMovesOn(s: State, k: nat, answer: Terminal)
    requires k < |s.invocations| && Outstanding(s.invocations[k])
    ensures Enabled(s, WorkerRead(k)) || Enabled(s, WorkerCall(k, answer)) || Enabled(s, WorkerWrite(k))
      || Enabled(s, WorkerReturn(k)) || Enabled(s, FailureWrite(k))
    ensures forall e :: Enabled(s, e) && !e.Create? && !e.Invoke? && !e.Tick? && !e.Sweep? && !e.Get? && e.k == k ==>
      Remaining(Next(s, e).invocations[k].stage) < Remaining(s.invocations[k].stage)
  {
    hide GetTranslateJob, ConditionalUpdate, Remaining;
    forall e | Enabled(s, e) && !e.Create? && !e.Invoke? && !e.Tick? && !e.Sweep? && !e.Get? && e.k == k
      ensures Remaining(Next(s, e).invocations[k].stage) < Remaining(s.invocations[k].stage)
    {
      MoveCostsOne(s, k, e);
    }
  }

  lemma MoveCostsOne(s: State, k: nat, e: Event)
    requires k < |s.invocations| && Enabled(s, e)
    requires !e.Create? && !e.Invoke? && !e.Tick? && !e.Sweep? && !e.Get? && e.k == k
    ensures |Next(s, e).invocations| == |s.invocations|
    ensures Remaining(Next(s, e).invocations[k].stage) < Remaining(s.invocations[k].stage)
  {
    hide GetTranslateJob, ConditionalUpdate;
  }

  lemma WorkerReads(s: State, k: nat) returns (s1: State)
    requires Inv(s) && k < |s.invocations| && s.invocations[k].stage.Queued?
    ensures Enabled(s, WorkerRead(k)) && s1 == Next(s, WorkerRead(k))
    ensures var id := s.invocations[k].job;
      match GetJobInput(s.items, id)
      case Gone => s1 == SetStage(s, k, Returned)
      case Malformed => s1 == SetStage(s, k, Crashed)
      case Submitted(request) =>
        id in s.requests && request == s.requests[id] && s1 == SetStage(s, k, HasInput(request))
  {
    hide ConditionalUpdate, GetTranslateJob;
    var id := s.invocations[k].job;
    assert InvocationOk(s, s.invocations[k]);
    if id in s.items { assert ItemOk(s, id); }
    s1 := Next(s, WorkerRead(k));
  }

  lemma WorkerSteps(s: State, k: nat, answer: Terminal) returns (s1: State, s2: State, s3: State, s4: State)
    requires Inv(s) && k < |s.invocations| && s.invocations[k].stage.Queued?
    requires GetJobInput(s.items, s.invocations[k].job).Submitted?
    ensures Enabled(s, WorkerRead(k)) && s1 == Next(s, WorkerRead(k))
    ensures Enabled(s1, WorkerCall(k, answer)) && s2 == Next(s1, WorkerCall(k, answer))
    ensures Enabled(s2, WorkerWrite(k)) && s3 == Next(s2, WorkerWrite(k))
    ensures Enabled(s3, WorkerReturn(k)) && s4 == Next(s3, WorkerReturn(k))
    ensures s4.items == ConditionalUpdate(s.items, s.invocations[k].job, answer)
  {
    hide ConditionalUpdate, GetTranslateJob, GetJobInput, Inv;
    s1 := WorkerReads(s, k);
    s2 := Next(s1, WorkerCall(k, answer));
    s3 := Next(s2, WorkerWrite(k));
    s4 := Next(s3, WorkerReturn(k));
  }

  lemma FourSteps(s: State, e1: Event, s1: State, e2: Event, s2: State, e3: Event, s3: State, e4: Event, s4: State)
    requires Enabled(s, e1) && s1 == Next(s, e1) && Enabled(s1, e2) && s2 == Next(s1, e2)
    requires Enabled(s2, e3) && s3 == Next(s2, e3) && Enabled(s3, e4) && s4 == Next(s3, e4)
    ensures Runs(s, [e1, e2, e3, e4]) && After(s, [e1, e2, e3, e4]) == s4
  {
    hide Next, Enabled;
    FirstStep(s3, e4, []);
    FirstStep(s2, e3, [e4]);
    FirstStep(s1, e2, [e3, e4]);
    FirstStep(s, e1, [e2, e3, e4]);
    assert [e4] + [] == [e4] && [e3] + [e4] == [e3, e4] && [e2] + [e3, e4] == [e2, e3, e4];
    assert [e1] + [e2, e3, e4] == [e1, e2, e3, e4];
  }

  /** Left alone, the Worker's steps do to the table what its handler does in one piece: on the job's own request when
      there is one, nothing for a missing job, and a crash without a write on a stray. */
  lemma UndisturbedWorkerIsHandler(s: State, k: nat, endpoint: Request -> Terminal)
    requires Inv(s) && k < |s.invocations| && s.invocations[k].stage.Queued?
    ensures var id := s.invocations[k].job;
      match GetJobInput(s.items, id)
      case Submitted(request) =>
        && id in s.requests && request == s.requests[id]
        && var events := [WorkerRead(k), WorkerCall(k, endpoint(request)), WorkerWrite(k), WorkerReturn(k)];
        Runs(s, events) && After(s, events).items == ConditionalUpdate(s.items, id, endpoint(request))
      case Gone =>
        Enabled(s, WorkerRead(k)) && Next(s, WorkerRead(k)) == SetStage(s, k, Returned)
      case Malformed =>
        Enabled(s, WorkerRead(k)) && Next(s, WorkerRead(k)) == SetStage(s, k, Crashed) && HasStray(s, id)
  {
    hide Next, Enabled, ConditionalUpdate, Runs, After;
    var id := s.invocations[k].job;
    if id in s.items { assert ItemOk(s, id); }
    var s1 := WorkerReads(s, k);
    if GetJobInput(s.items, id).Submitted? {
      var answer := endpoint(s.requests[id]);
      var r1, s2, s3, s4 := WorkerSteps(s, k, answer);
      FourSteps(s, WorkerRead(k), r1, WorkerCall(k, answer), s2, WorkerWrite(k), s3, WorkerReturn(k), s4);
    }
  }

  lemma FirstStep(s: State, e: Event, rest: seq<Event>)
    requires Enabled(s, e) && Runs(Next(s, e), rest)
    ensures Runs(s, [e] + rest) && After(s, [e] + rest) == After(Next(s, e), rest)
  {
    assert ([e] + rest)[1..] == rest;
  }

  // ------------------------------------------------------------ observation order

  /** Answers recorded so far only move forward, also into what a GET would answer now. */
  predicate Ordered(gets: seq<Response>, current: Response) {
    (forall i, j :: 0 <= i < j < |gets| ==> Advances(gets[i], gets[j]))
    && forall i :: 0 <= i < |gets| ==> Advances(gets[i], current)
  }

  lemma AdvancesIsTransitive(a: Response, b: Response, c: Response)
    requires Advances(a, b) && Advances(b, c)
    ensures Advances(a, c)
  {
  }

  ghost predicate GetsOk(s: State) {
    forall id :: id in s.gets ==> id in s.requests && Ordered(s.gets[id], Observe(s, id))
  }

  lemma StepKeepsGets(s: State, e: Event)
    requires Inv(s) && GetsOk(s) && Enabled(s, e)
    ensures GetsOk(Next(s, e))
  {
    hide GetTranslateJob, Inv, ConditionalUpdate, GetJobInput;
    var s' := Next(s, e);
    forall id | id in s'.gets ensures id in s'.requests && Ordered(s'.gets[id], Observe(s', id)) {
      StepAdvances(s, e, id);
      forall i | 0 <= i < |Gets(s, id)| ensures Advances(Gets(s, id)[i], Observe(s', id)) {
        AdvancesIsTransitive(Gets(s, id)[i], Observe(s, id), Observe(s', id));
      }
    }
  }

  lemma {:induction false} RunKeepsGets(s: State, events: seq<Event>)
    requires Inv(s) && GetsOk(s) && Runs(s, events)
    ensures GetsOk(After(s, events))
    decreases |events|
  {
    if events != [] {
      StepKeepsInv(s, events[0]);
      StepKeepsGets(s, events[0]);
      RunKeepsGets(Next(s, events[0]), events[1..]);
    }
  }

  /** pending*, then one constant terminal answer*, then not-found*, then failures*. */
  predicate InPhases(gets: seq<Response>, a: nat, b: nat, c: nat) {
    && a <= b <= c <= |gets|
    && (forall i :: 0 <= i < a ==> gets[i] == StillPending)
    && (forall i :: a <= i < b ==> gets[i].Done? && gets[i] == gets[a])
    && (forall i :: b <= i < c ==> gets[i] == NotFound)
    && (forall i :: c <= i < |gets| ==> gets[i] == ServerError)
  }

  lemma {:induction false} OrderedHasPhases(gets: seq<Response>, current: Response) returns (a: nat, b: nat, c: nat)
    requires Ordered(gets, current)
    ensures InPhases(gets, a, b, c)
  {
    hide Advances;
    if gets == [] {
      a, b, c := 0, 0, 0;
    } else {
      var n := |gets| - 1;
      forall i | 0 <= i < n ensures Advances(gets[..n][i], gets[n]) { assert Advances(gets[i], gets[n]); }
      assert Advances(gets[n], current);
      a, b, c := OrderedHasPhases(gets[..n], gets[n]);
      a, b, c := OneMoreGet(gets, current, a, b, c);
    }
  }

  lemma OneMoreGet(gets: seq<Response>, current: Response, a: nat, b: nat, c: nat) returns (a': nat, b': nat, c': nat)
    requires gets != [] && InPhases(gets[..|gets| - 1], a, b, c)
    requires forall i :: 0 <= i < |gets| - 1 ==> Advances(gets[i], gets[|gets| - 1])
    requires Advances(gets[|gets| - 1], current)
    ensures InPhases(gets, a', b', c')
  {
    var n := |gets| - 1;
    var init := gets[..n];
    assert forall i :: 0 <= i < n ==> init[i] == gets[i];
    if n > 0 { assert Advances(gets[n - 1], gets[n]); }
    a', b', c' := a, b, c;
    match gets[n] {
      case StillPending => a', b', c' := n + 1, n + 1, n + 1;
      case Done(_) => b', c' := n + 1, n + 1;
      case NotFound => c' := n + 1;
      case ServerError =>
    }
  }

  /** Over any run, the GETs of a job read pending, then one constant terminal answer, then not found, then fail; and
      they only fail once a terminal write has found the job's item gone. */
  lemma ObservationOrder(now: int, events: seq<Event>, id: string)
    requires Runs(Init(now), events)
    ensures exists a: nat, b: nat, c: nat :: InPhases(Gets(After(Init(now), events), id), a, b, c)
    ensures ServerError in Gets(After(Init(now), events), id) ==> LosesItem(Init(now), events, id)
  {
    RunKeepsGets(Init(now), events);
    var s := After(Init(now), events);
    if id in s.gets {
      var a, b, c := OrderedHasPhases(s.gets[id], Observe(s, id));
      if ServerError in s.gets[id] {
        var i :| 0 <= i < |s.gets[id]| && s.gets[id][i] == ServerError;
        assert Advances(s.gets[id][i], Observe(s, id));
        GetFailsIff(now, events, id);
      }
    } else {
      assert InPhases(Gets(s, id), 0, 0, 0);
    }
  }
}
