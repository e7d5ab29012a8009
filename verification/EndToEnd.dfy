/** The page and the job service together.  The network hands a page the id of a job the service created for its POST,
    and job bodies that the service answered to a GET for that job; apart from that, both sides step as they like. */
module EndToEnd {
  import opened Options
  import opened Jobs
  import P = JobProtocol
  import S = PollSession
  import App

  datatype State = State(service: P.State, page: App.State)

  datatype Event = Service(step: P.Event) | Page(event: App.Event)

  function Init(now: int): State {
    State(P.Init(now), App.Init(now))
  }

  /** The body a continuation of the page reads was sent by the service. */
  ghost predicate Delivered(s: State, i: nat, e: S.Event)
    requires i < |s.page.calls| && S.Enabled(s.page.calls[i].session, e)
  {
    match e
    case CreatedRead(_, id) => id in s.service.requests && s.service.requests[id] == s.page.calls[i].request
    case JobRead(k, SucceededJob(translation)) =>
      Done(Success(translation)) in P.Gets(s.service, s.page.calls[i].session.waiting[k].id)
    case JobRead(k, FailedJob(code)) =>
      exists error :: Done(Failure(code, error)) in P.Gets(s.service, s.page.calls[i].session.waiting[k].id)
    case _ => true
  }

  ghost predicate Enabled(s: State, e: Event) {
    match e
    case Service(pe) => P.Enabled(s.service, pe)
    case Page(ae) => App.Enabled(s.page, ae) && (ae.Browser? ==> Delivered(s, ae.i, ae.e))
  }

  function Next(s: State, e: Event): State
    requires Enabled(s, e)
  {
    match e
    case Service(pe) => s.(service := P.Next(s.service, pe))
    case Page(ae) => s.(page := App.Next(s.page, ae))
  }

  // ------------------------------------------------------------------------ invariant

  /** Every terminal answer a GET has returned is the endpoint's answer to that job's request, or reports a crash. */
  ghost predicate GetsAreAnswers(s: P.State) {
    forall id, r :: id in s.gets && r in s.gets[id] && r.Done? ==> P.Justified(s, id, r.t)
  }

  /** A failure the call has read of its job is the endpoint's answer to the call's own request, or reports a crash. */
  ghost predicate FailureServed(s: P.State, call: App.Call) {
    S.PostCreatedJob(call.session.heard) ==>
      forall code :: call.session.heard[|call.session.heard| - 1] == S.GetBody(S.FailedJob(code)) ==>
        exists error :: P.Justified(s, S.CreatedId(call.session.heard), Failure(code, error))
  }

  /** A call polls a job made from its own request, and what it settled with is justified. */
  ghost predicate CallServed(s: P.State, call: App.Call) {
    && (S.PostCreatedJob(call.session.heard) ==>
          && S.CreatedId(call.session.heard) in s.requests
          && s.requests[S.CreatedId(call.session.heard)] == call.request)
    && (App.OutcomeOf(call).Some? && App.OutcomeOf(call).value.Translated? ==>
          (call.request, Success(App.OutcomeOf(call).value.translation)) in s.answers)
    && FailureServed(s, call)
  }

  ghost predicate Inv(s: State) {
    && P.Inv(s.service) && GetsAreAnswers(s.service) && App.Inv(s.page)
    && forall i :: 0 <= i < |s.page.calls| ==> CallServed(s.service, s.page.calls[i])
  }

  lemma ServiceRemembers(s: P.State, e: P.Event)
    requires P.Enabled(s, e)
    ensures forall id :: id in s.requests ==> id in P.Next(s, e).requests && P.Next(s, e).requests[id] == s.requests[id]
    ensures s.answers <= P.Next(s, e).answers && s.reports <= P.Next(s, e).reports
  {
  }

  lemma ServiceKeepsGets(s: P.State, e: P.Event)
    requires P.Inv(s) && P.Enabled(s, e) && GetsAreAnswers(s)
    ensures GetsAreAnswers(P.Next(s, e))
  {
    hide P.InvocationOk;
    var s' := P.Next(s, e);
    ServiceRemembers(s, e);
    forall id, r | id in s'.gets && r in s'.gets[id] && r.Done? ensures P.Justified(s', id, r.t) {
      if id in s.gets && r in s.gets[id] {
      } else {
        assert e == P.Get(id) && r == P.Observe(s, id);
        assert P.ItemOk(s, id);
      }
    }
  }

  lemma ServiceKeepsInv(s: State, e: P.Event)
    requires Inv(s) && P.Enabled(s.service, e)
    ensures Inv(Next(s, Service(e)))
  {
    P.StepKeepsInv(s.service, e);
    ServiceRemembers(s.service, e);
    ServiceKeepsGets(s.service, e);
    forall i | 0 <= i < |s.page.calls| ensures CallServed(P.Next(s.service, e), s.page.calls[i]) {
      assert CallServed(s.service, s.page.calls[i]);
    }
  }

  /** A failed job that a call reads was served to it. */
  lemma BrowserKeepsFailures(s: State, i: nat, e: S.Event)
    requires Inv(s) && Enabled(s, Page(App.Browser(i, e)))
    ensures var call := s.page.calls[i]; FailureServed(s.service, call.(session := S.Next(call.session, e)))
  {
    hide S.Next, App.ShownOk, P.Inv, S.OutcomeOk, S.ActivityOk, S.RequestsOk, P.Justified;
    var session := s.page.calls[i].session;
    assert App.CallOk(s.page, i);
    assert CallServed(s.service, s.page.calls[i]);
    if session.settled {
      S.SettledStaysSettled(session, e);
    } else {
      S.LiveSessionHears(session, e);
      if e.JobRead? {
        S.ResumeKeepsInv(session, e.k);
        S.HearKeepsJob(session.heard, S.GetBody(e.job));
        if e.job.FailedJob? { FailedJobIsJustified(s, i, e.k, e.job.statusCode); }
      }
    }
  }

  lemma FailedJobIsJustified(s: State, i: nat, k: nat, code: int)
    requires GetsAreAnswers(s.service) && Enabled(s, Page(App.Browser(i, S.JobRead(k, S.FailedJob(code)))))
    ensures exists error :: P.Justified(s.service, s.page.calls[i].session.waiting[k].id, Failure(code, error))
  {
    var id := s.page.calls[i].session.waiting[k].id;
    var error :| Done(Failure(code, error)) in P.Gets(s.service, id);
    assert P.Justified(s.service, id, Failure(code, error));
  }

  /** A translation that a call settles with was served to it. */
  lemma TranslationIsServed(s: State, i: nat, k: nat, translation: string)
    requires GetsAreAnswers(s.service) && Enabled(s, Page(App.Browser(i, S.JobRead(k, S.SucceededJob(translation)))))
    requires S.PostCreatedJob(s.page.calls[i].session.heard)
    requires s.page.calls[i].session.waiting[k] == S.GetJson(S.CreatedId(s.page.calls[i].session.heard))
    requires CallServed(s.service, s.page.calls[i])
    ensures (s.page.calls[i].request, Success(translation)) in s.service.answers
  {
    var id := S.CreatedId(s.page.calls[i].session.heard);
    assert P.Justified(s.service, id, Success(translation));
  }

  lemma LiveHasNoOutcome(session: S.State)
    requires S.Inv(session) && !session.settled
    ensures session.outcomes == []
  {
  }

  /** One browser event on one call. */
  lemma BrowserKeepsServed(s: State, i: nat, e: S.Event)
    requires Inv(s) && Enabled(s, Page(App.Browser(i, e)))
    ensures var call := s.page.calls[i]; CallServed(s.service, call.(session := S.Next(call.session, e)))
  {
    hide S.Next, S.Inv, App.ShownOk, FailureServed, P.Inv, P.Justified, S.Enabled;
    var call := s.page.calls[i];
    var session' := S.Next(call.session, e);
    assert App.CallOk(s.page, i);
    assert CallServed(s.service, call);
    BrowserKeepsFailures(s, i, e);
    S.StepFromOutside(call.session, e);
    S.StepKeepsInv(call.session, e);
    if !session'.settled {
      LiveHasNoOutcome(session');
    } else if !call.session.settled && session'.outcomes[0].outcome.Translated? {
      TranslationIsServed(s, i, e.k, session'.outcomes[0].outcome.translation);
    }
  }

  lemma CancelKeepsServed(s: P.State, call: App.Call)
    requires S.Inv(call.session) && CallServed(s, call)
    ensures CallServed(s, call.(session := S.Cancel(call.session)))
  {
    S.StepFromOutside(call.session, S.CancelCalled);
  }

  lemma PageKeepsServed(s: State, e: App.Event, i: nat)
    requires Inv(s) && Enabled(s, Page(e)) && i < |App.Next(s.page, e).calls|
    ensures CallServed(s.service, App.Next(s.page, e).calls[i])
  {
    hide App.ShownOk, S.Inv, S.Next, S.Enabled, S.Cancel;
    if i < |s.page.calls| {
      assert App.CallOk(s.page, i);
      assert CallServed(s.service, s.page.calls[i]);
      CancelKeepsServed(s.service, s.page.calls[i]);
      if e.Browser? { BrowserKeepsServed(s, e.i, e.e); }
    }
  }

  lemma StepKeepsInv(s: State, e: Event)
    requires Inv(s) && Enabled(s, e)
    ensures Inv(Next(s, e))
  {
    match e {
      case Service(pe) => ServiceKeepsInv(s, pe);
      case Page(ae) =>
        App.StepKeepsInv(s.page, ae);
        forall i | 0 <= i < |App.Next(s.page, ae).calls|
          ensures CallServed(s.service, App.Next(s.page, ae).calls[i])
        {
          PageKeepsServed(s, ae, i);
        }
    }
  }

  // ------------------------------------------------------------------------ whole runs

  ghost predicate Runs(s: State, events: seq<Event>)
    decreases |events|
  {
    events == [] || (Enabled(s, events[0]) && Runs(Next(s, events[0]), events[1..]))
  }

  function After(s: State, events: seq<Event>): State
    requires Runs(s, events)
    decreases |events|
  {
    if events == [] then s else After(Next(s, events[0]), events[1..])
  }

  lemma {:induction false} RunKeepsInv(s: State, events: seq<Event>)
    requires Inv(s) && Runs(s, events)
    ensures Inv(After(s, events))
    decreases |events|
  {
    if events != [] {
      StepKeepsInv(s, events[0]);
      RunKeepsInv(Next(s, events[0]), events[1..]);
    }
  }

  /** Whatever the user, the browser, the Lambdas and the clock do, in whatever order: a shown translation is the model
      endpoint's answer to the shown source text in the displayed direction. */
  lemma ShownTranslationIsTheEndpointsAnswer(now: int, events: seq<Event>)
    requires Runs(Init(now), events)
    ensures var s := After(Init(now), events);
      s.page.shown.Success? ==>
        (Request(s.page.shown.sourceText, s.page.direction), Success(s.page.shown.translation)) in s.service.answers
  {
    RunKeepsInv(Init(now), events);
    var page := After(Init(now), events).page;
    if page.shown.Success? {
      assert App.CallOk(page, |page.calls| - 1);
      assert CallServed(After(Init(now), events).service, App.Newest(page));
    }
  }

  /** And an error shown for a failed job says what the endpoint answered to the shown request, by its status, or a
      server problem after a crash that was reported for that very job. */
  lemma ShownFailureIsTheJobs(now: int, events: seq<Event>, code: int)
    requires Runs(Init(now), events)
    requires var s := After(Init(now), events);
      && s.page.shown.Error? && |s.page.calls| > 0 && S.PostCreatedJob(App.Newest(s.page).session.heard)
      && var heard := App.Newest(s.page).session.heard; heard[|heard| - 1] == S.GetBody(S.FailedJob(code))
    ensures var s := After(Init(now), events);
      var call := App.Newest(s.page);
      && call.request.direction == s.page.direction
      && s.page.shown.kind == (if code >= 500 then App.Server else if code == 429 then App.RateLimited else App.Client)
      && ((exists error :: (call.request, Failure(code, error)) in s.service.answers)
          || (code == 504 && S.CreatedId(call.session.heard) in s.service.reports))
  {
    RunKeepsInv(Init(now), events);
    var s := After(Init(now), events);
    var n := |s.page.calls| - 1;
    assert App.CallOk(s.page, n);
    assert CallServed(s.service, s.page.calls[n]);
  }

  /** What a page makes of a poll answer: a job body it was still waiting for, or a status without one. */
  function HeardFrom(response: Response): S.Heard {
    match response
    case BadRequest => S.GetStatus(400)
    case NotFound => S.GetStatus(404)
    case StillPending => S.GetBody(S.OtherJob)
    case Done(Success(translation)) => S.GetBody(S.SucceededJob(translation))
    case Done(Failure(statusCode, _)) => S.GetBody(S.FailedJob(statusCode))
    case ServerError => S.GetStatus(500)
  }

  function Reported(heard: seq<S.Heard>, response: Response): Option<App.ErrorKind> {
    match S.Verdict(heard + [HeardFrom(response)])
    case Some(outcome) => if outcome.Translated? then None else Some(App.ClassifyError(outcome))
    case None => None
  }

  /** Every answer of the service is told apart: only an expired or unknown job is reported as lost, only a pending
      answer or a translation is no error, and a failed job is reported by its own status code, not by the answer's. */
  lemma AnswersAreToldApart(heard: seq<S.Heard>, response: Response)
    ensures Reported(heard, response) == Some(App.JobLost) <==> response == NotFound
    ensures Reported(heard, response) == None <==> response == StillPending || (response.Done? && response.t.Success?)
    ensures response == BadRequest ==> Reported(heard, response) == Some(App.Client)
    ensures response == ServerError ==> Reported(heard, response) == Some(App.Server)
    ensures response.Done? && response.t.Failure? ==>
      Reported(heard, response) == Some(if response.t.statusCode >= 500 then App.Server
                                        else if response.t.statusCode == 429 then App.RateLimited else App.Client)
  {
    assert (heard + [HeardFrom(response)])[|heard|] == HeardFrom(response);
  }
}
