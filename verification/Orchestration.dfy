/** What a webhook event on a repository does: delegate the scan, run it, skip it or fail; and
    what the result of a delegated scan does when it comes back. */
module Orchestration {
  import opened Common
  import opened Topology
  import opened Routing
  import opened Amqp
  import opened Polling
  import opened Delegation

  /** One attempt: the scan is submitted and its context left, the clone is refused, or something else
      raises, before the scan was submitted or on leaving the context after. */
  datatype Cloning = Cloned | AuthFails | CloneBreaks(submitted: bool)

  datatype ScanAction = Delegated | Executing | Skipped | Raises

  /** `cloneUrl`: the clone URL is known; `guarded`: the target branch is protected; `asking`: no
      workflow exception while the request is put together; `enabled`: the push workflow is. */
  datatype EventWorld = EventWorld(
    cloneUrl: bool, guarded: bool, tag: Option<string>, asking: bool, request: Answer,
    first: Cloning, second: Cloning, enabled: bool, started: Answer, noticed: Answer)

  datatype Event = Event(id: nat, flow: Workflow, moniker: string, now: int, dropBy: int, interval: int)

  /** Effects of an event and the action its handler reports. */
  datatype Handled = Handled(effects: seq<Effect>, action: ScanAction)

  function RequestOf(e: Event): Body {
    ScanRequest(e.id, e.flow, e.moniker)
  }

  /** The attempt that decides: the second only after the first was not authorised. */
  function Deciding(w: EventWorld): Cloning {
    if w.first.AuthFails? then w.second else w.first
  }

  function Local(e: Event, w: EventWorld): Handled {
    match Deciding(w)
    case Cloned => Handled([ExecScan(e.id)], ScanAction.Executing)
    case CloneBreaks(submitted) => Handled(if submitted then [ExecScan(e.id)] else [], Raises)
    case AuthFails => Handled([], Raises)
  }

  function Orchestrate(delegated: bool, tags: set<string>, e: Event, retries: int, ttl: int, w: EventWorld): Handled {
    if !w.cloneUrl then Handled([], Raises)
    else if !w.guarded then Handled([], Skipped)
    else if delegated || w.tag.None? || w.tag.value !in tags || !w.asking then Local(e, w)
    else
      var sent := Publish(ResolverScan,
        RequestMessage(RequestOf(e), MakeTopicForTag(w.tag.value, e.moniker), retries, ttl), w.request);
      match w.request
      case Confirmed => Handled([sent], Delegated)
      case Raised => Handled([sent], Raises)
      case Refused => Handled([sent] + Local(e, w).effects, Local(e, w).action)
  }

  function NoticeMessage(state: ScanState, flow: Workflow, moniker: string): Message {
    Message(Notice(flow, moniker), MakeTopic(state, flow, moniker), None, None, None)
  }

  /** Starting the scan workflow: the await message and, for a pull request, its annotation. */
  function Started(e: Event, enabled: bool, started: Answer, noticed: Answer): seq<Effect> {
    var await := Publish(ScanIn, AwaitMessage(AwaitScan(e.id, e.flow, e.moniker, e.now, e.dropBy), e.interval),
      started);
    match e.flow
    case PUSH => if enabled then [await] else []
    case PR => if started.Raised? then [await] else [await, Publish(ScanIn, NoticeMessage(Annotate, PR, e.moniker),
      noticed)]
  }

  function ExecutePlan(delegated: bool, tags: set<string>, e: Event, retries: int, ttl: int,
      w: EventWorld): seq<Effect> {
    var h := Orchestrate(delegated, tags, e, retries, ttl, w);
    h.effects +
    match h.action
    case Executing => Started(e, w.enabled, w.started, w.noticed)
    case Delegated => if e.flow.PR? then [Publish(ScanIn, NoticeMessage(Prescan, PR, e.moniker), w.noticed)] else []
    case _ => []
  }

  /** `exec_clone_scan` retries once after an authentication failure, and falls through after two. */
  method ExecCloneScan(session: Session, e: Event, w: EventWorld) returns (action: ScanAction)
    modifies session
    ensures session.done == old(session.done) + Local(e, w).effects && action == Local(e, w).action
  {
    var cloneAuthFails := 0;
    while cloneAuthFails <= 1
      invariant 0 <= cloneAuthFails <= 2
      invariant session.done == old(session.done)
      invariant cloneAuthFails >= 1 ==> w.first.AuthFails?
      invariant cloneAuthFails == 2 ==> w.second.AuthFails?
    {
      var attempt := if cloneAuthFails == 0 then w.first else w.second;
      match attempt {
        case Cloned =>
          session.Do(ExecScan(e.id));
          return ScanAction.Executing;
        case CloneBreaks(submitted) =>
          if submitted {
            session.Do(ExecScan(e.id));
          }
          return Raises;
        case AuthFails => cloneAuthFails := cloneAuthFails + 1;
      }
    }
    action := Raises;
  }

  method OrchestrateScan(session: Session, delegated: bool, tags: set<string>, e: Event, retries: int, ttl: int,
      w: EventWorld)
    returns (action: ScanAction)
    modifies session
    ensures session.done == old(session.done) + Orchestrate(delegated, tags, e, retries, ttl, w).effects
    ensures action == Orchestrate(delegated, tags, e, retries, ttl, w).action
  {
    if !w.cloneUrl {
      return Raises;
    }
    if !w.guarded {
      return Skipped;
    }
    if !delegated && w.tag.Some? && w.tag.value in tags && w.asking {
      var answer := session.Send(ResolverScan,
        RequestMessage(RequestOf(e), MakeTopicForTag(w.tag.value, e.moniker), retries, ttl), w.request);
      match answer {
        case Confirmed => return Delegated;
        case Raised => return Raises;
        case Refused =>
      }
    }
    action := ExecCloneScan(session, e, w);
  }

  method StartWorkflow(session: Session, e: Event, enabled: bool, started: Answer, noticed: Answer)
      returns (raised: bool)
    modifies session
    ensures session.done == old(session.done) + Started(e, enabled, started, noticed)
    ensures raised == exists x :: x in Started(e, enabled, started, noticed) && x.Publish? && x.answer.Raised?
  {
    raised := false;
    if e.flow.PUSH? && !enabled {
      return;
    }
    var answer := session.Send(ScanIn, AwaitMessage(AwaitScan(e.id, e.flow, e.moniker, e.now, e.dropBy), e.interval),
      started);
    raised := answer.Raised?;
    ghost var all := Started(e, enabled, started, noticed);
    assert all[0] in all;
    if e.flow.PR? && !raised {
      var other := session.Send(ScanIn, NoticeMessage(Annotate, PR, e.moniker), noticed);
      raised := other.Raised?;
      assert all[1] in all;
    }
  }

  /** `_execute_pr_scan_workflow` and `_execute_push_scan_workflow`. */
  method ExecuteScanWorkflow(session: Session, delegated: bool, tags: set<string>, e: Event, retries: int, ttl: int,
      w: EventWorld)
    modifies session
    ensures session.done == old(session.done) + ExecutePlan(delegated, tags, e, retries, ttl, w)
  {
    var action := OrchestrateScan(session, delegated, tags, e, retries, ttl, w);
    if action.Executing? {
      var _ := StartWorkflow(session, e, w.enabled, w.started, w.noticed);
    } else if action.Delegated? && e.flow.PR? {
      var _ := session.Send(ScanIn, NoticeMessage(Prescan, PR, e.moniker), w.noticed);
    }
  }

  // ---------- one route ----------

  ghost predicate Requests(x: Effect) {
    x.Publish? && x.exchange.ResolverScan?
  }

  ghost predicate StoresRequest(x: Effect) {
    Requests(x) && x.answer.Confirmed?
  }

  ghost predicate Awaits(x: Effect) {
    x.Publish? && x.message.body.AwaitScan?
  }

  /** A protected event that is not delegated. */
  ghost predicate RunsLocally(delegated: bool, tags: set<string>, w: EventWorld) {
    w.cloneUrl && w.guarded &&
    (delegated || w.tag.None? || w.tag.value !in tags || !w.asking || w.request.Refused?)
  }

  ghost predicate Submitted(c: Cloning) {
    c.Cloned? || (c.CloneBreaks? && c.submitted)
  }

  /** An attempt gets to submit the scan, if only the second after the first was not authorised. */
  ghost predicate Submits(w: EventWorld) {
    Submitted(w.first) || (w.first.AuthFails? && Submitted(w.second))
  }

  /** And its context is left well. */
  ghost predicate ClonesWell(w: EventWorld) {
    w.first.Cloned? || (w.first.AuthFails? && w.second.Cloned?)
  }

  /** A protected event whose request was asked for under a known tag, and confirmed. */
  ghost predicate Delegates(delegated: bool, tags: set<string>, w: EventWorld) {
    w.cloneUrl && w.guarded && !delegated && w.tag.Some? && w.tag.value in tags && w.asking && w.request.Confirmed?
  }

  /** An event takes one route.  It runs its scan at most once, exactly on the local route when an attempt
      gets to submit it; it stores a request exactly when it is delegated, and then runs none; and a scan
      it ran is awaited exactly when its context was left well and its workflow is on. */
  lemma OneRoute(delegated: bool, tags: set<string>, e: Event, retries: int, ttl: int, w: EventWorld)
    ensures var p := ExecutePlan(delegated, tags, e, retries, ttl, w);
      ((exists x :: x in p && x.ExecScan?) <==> RunsLocally(delegated, tags, w) && Submits(w)) &&
      ((exists x :: x in p && StoresRequest(x)) <==> Delegates(delegated, tags, w)) &&
      !(RunsLocally(delegated, tags, w) && Delegates(delegated, tags, w)) &&
      (forall i, j :: 0 <= i < |p| && 0 <= j < |p| && p[i].ExecScan? && p[j].ExecScan? ==> i == j) &&
      ((exists x :: x in p && Awaits(x)) <==>
        RunsLocally(delegated, tags, w) && ClonesWell(w) && (e.flow.PR? || w.enabled)) &&
      (delegated ==> forall x :: x in p ==> !Requests(x))
  {
    ScansLocally(delegated, tags, e, retries, ttl, w);
    var p := ExecutePlan(delegated, tags, e, retries, ttl, w);
    if Delegates(delegated, tags, w) {
      assert StoresRequest(p[0]) && p[0] in p;
    }
  }

  lemma ScansLocally(delegated: bool, tags: set<string>, e: Event, retries: int, ttl: int, w: EventWorld)
    ensures var p := ExecutePlan(delegated, tags, e, retries, ttl, w);
      ((exists x :: x in p && x.ExecScan?) <==> RunsLocally(delegated, tags, w) && Submits(w)) &&
      (forall i, j :: 0 <= i < |p| && 0 <= j < |p| && p[i].ExecScan? && p[j].ExecScan? ==> i == j) &&
      ((exists x :: x in p && Awaits(x)) <==>
        RunsLocally(delegated, tags, w) && ClonesWell(w) && (e.flow.PR? || w.enabled))
  {
    var h := Orchestrate(delegated, tags, e, retries, ttl, w);
    var p := ExecutePlan(delegated, tags, e, retries, ttl, w);
    if RunsLocally(delegated, tags, w) && Submits(w) {
      var s := |h.effects| - 1;
      assert h.effects[s] == ExecScan(e.id) && p[s] == h.effects[s] && p[s] in p;
      assert forall i :: 0 <= i < |p| && i != s ==> !p[i].ExecScan?;
      if h.action.Executing? && (e.flow.PR? || w.enabled) {
        assert Awaits(p[s + 1]) && p[s + 1] in p;
      }
    }
  }

  /** What an event says: it scans for itself alone; its request names it, its workflow and its service, under
      the topic of its tag, with its time to live and its retries; and its await message names the scan, the
      workflow, the service, the date and the deadline, to be kept for the interval. */
  lemma EventSays(delegated: bool, tags: set<string>, e: Event, retries: int, ttl: int, w: EventWorld, x: Effect)
    requires x in ExecutePlan(delegated, tags, e, retries, ttl, w)
    ensures x.ExecScan? ==> x.event == e.id
    ensures Requests(x) ==> w.tag.Some? && x == Publish(ResolverScan,
      Message(ScanRequest(e.id, e.flow, e.moniker), MakeTopicForTag(w.tag.value, e.moniker), Some(ttl),
        Some(if retries < 0 then 0 else retries), None), w.request)
    ensures Awaits(x) ==> x == Publish(ScanIn,
      Message(AwaitScan(e.id, e.flow, e.moniker, e.now, e.dropBy), MakeTopic(Await, e.flow, e.moniker),
        Some(e.interval), None, None), w.started)
    ensures x.ExecScan? || Requests(x) || Awaits(x) || Notifies(x)
  {
    var k :| 0 <= k < |ExecutePlan(delegated, tags, e, retries, ttl, w)| &&
      ExecutePlan(delegated, tags, e, retries, ttl, w)[k] == x;
    EffectSays(delegated, tags, e, retries, ttl, w, k);
  }

  lemma EffectSays(delegated: bool, tags: set<string>, e: Event, retries: int, ttl: int, w: EventWorld, k: nat)
    requires k < |ExecutePlan(delegated, tags, e, retries, ttl, w)|
    ensures var x := ExecutePlan(delegated, tags, e, retries, ttl, w)[k];
      match x
      case ExecScan(event) => event == e.id
      case Publish(exchange, m, answer) =>
        if exchange.ResolverScan? then w.tag.Some? && answer == w.request &&
          m == RequestMessage(RequestOf(e), MakeTopicForTag(w.tag.value, e.moniker), retries, ttl)
        else if m.body.AwaitScan? then exchange == ScanIn && answer == w.started &&
          m == AwaitMessage(AwaitScan(e.id, e.flow, e.moniker, e.now, e.dropBy), e.interval)
        else m.body.Notice?
      case _ => false
  {
  }

  ghost predicate Notifies(x: Effect) {
    x.Publish? && x.message.body.Notice?
  }

  /** A pull request is told once, after all else: that its scan started, exactly when one is awaited and no
      publish raised before, and that its scan is being prepared, exactly when it was delegated. */
  lemma NoticesIff(delegated: bool, tags: set<string>, e: Event, retries: int, ttl: int, w: EventWorld)
    ensures var p := ExecutePlan(delegated, tags, e, retries, ttl, w);
      (forall k :: 0 <= k < |p| && Notifies(p[k]) ==> k == |p| - 1 && p[k] == Publish(ScanIn,
        Message(Notice(PR, e.moniker),
          MakeTopic(if RunsLocally(delegated, tags, w) then Annotate else Prescan, PR, e.moniker), None, None, None),
        w.noticed)) &&
      ((exists k :: 0 <= k < |p| && Notifies(p[k])) <==>
        e.flow.PR? && (Delegates(delegated, tags, w) ||
          (RunsLocally(delegated, tags, w) && ClonesWell(w) && !w.started.Raised?)))
  {
    var p := ExecutePlan(delegated, tags, e, retries, ttl, w);
    if e.flow.PR? && (Delegates(delegated, tags, w) ||
        (RunsLocally(delegated, tags, w) && ClonesWell(w) && !w.started.Raised?)) {
      assert Notifies(p[|p| - 1]);
    }
  }

  // ---------- results coming back ----------

  /** The event whose handling a result resumes. */
  function Resumed(body: Body, w: AgentWorld): Event
    requires body.ScanOutcome? && w.Results?
  {
    Event(body.event, body.flow, body.moniker, w.now, w.dropBy, w.interval)
  }

  /** What handling a result starts. */
  function Resuming(m: Message, w: AgentWorld): seq<Effect>
    requires m.body.ScanOutcome? && w.Results?
  {
    if !m.body.scanned || !w.dispatch.Dispatched? || (m.body.flow.PUSH? && !w.executing) then []
    else Started(Resumed(m.body, w), w.enabled, w.started, w.noticed)
  }

  /** The dispatch of a result is made for a scan, and for a pull request whose delegation failed for good. */
  predicate Dispatches(body: Body)
    requires body.ScanOutcome?
  {
    body.scanned || (!body.success && body.flow.PR?)
  }

  function ResultsPlan(m: Message, w: AgentWorld): seq<Effect>
    requires w.Results?
  {
    if !m.body.ScanOutcome? || !w.valid then [Reject]
    else if Dispatches(m.body) && w.dispatch.DispatchRaises? then [Reject]
    else
      var starts := Resuming(m, w);
      starts + [if exists x :: x in starts && x.Publish? && x.answer.Raised? then Reject else Ack]
  }

  method ResolverResultsAgent(session: Session, m: Message, w: AgentWorld)
    requires w.Results?
    modifies session
    ensures session.done == old(session.done) + ResultsPlan(m, w)
  {
    if !m.body.ScanOutcome? || !w.valid {
      // An invalid signature is logged with a field the details do not have; either way it is rejected.
      session.Do(Reject);
      return;
    }
    var raised := false;
    if !m.body.success && !m.body.scanned && m.body.flow.PR? {
      raised := w.dispatch.DispatchRaises?;
    }
    if !raised && m.body.scanned {
      match w.dispatch {
        case DispatchRaises => raised := true;
        case Unhandled =>
        case Dispatched =>
          if m.body.flow.PR? || w.executing {
            raised := StartWorkflow(session, Resumed(m.body, w), w.enabled, w.started, w.noticed);
          }
      }
    }
    if raised {
      session.Do(Reject);
    } else {
      session.Do(Ack);
    }
  }

  /** How a result is settled: once, and rejected exactly when its body or signature is no good, or the
      dispatch or a publish raises; an unhandled route or event is acknowledged. */
  lemma ResultsFate(m: Message, w: AgentWorld)
    requires w.Results?
    ensures Settlements(ResultsPlan(m, w)) == 1
    ensures Fate(ResultsPlan(m, w)) == Some(
      if !m.body.ScanOutcome? || !w.valid ||
        ((m.body.scanned || (!m.body.success && m.body.flow.PR?)) && w.dispatch.DispatchRaises?) ||
        (Launches(m, w) && (w.started.Raised? || (m.body.flow.PR? && w.noticed.Raised?)))
      then Reject else Ack)
  {
    ShortFate(ResultsPlan(m, w));
    var starts := if m.body.ScanOutcome? then Resuming(m, w) else [];
    if m.body.ScanOutcome? && Launches(m, w) {
      assert starts[0] in starts && (m.body.flow.PR? && !w.started.Raised? ==> starts[1] in starts);
    }
  }

  /** A result of a scan that ran whose event has a handler, which has something left to wait for. */
  ghost predicate Launches(m: Message, w: AgentWorld)
    requires w.Results?
  {
    m.body.ScanOutcome? && m.body.scanned && w.valid && w.dispatch.Dispatched? &&
    (m.body.flow.PR? || (w.executing && w.enabled))
  }

  /** Handling a result neither scans nor delegates, starts the await workflow exactly for a scan that the
      agent submitted and whose event has a handler, and before anything else. */
  lemma ResultsNeverRescan(m: Message, w: AgentWorld)
    requires w.Results?
    ensures var p := ResultsPlan(m, w);
      (forall x :: x in p ==> !x.ExecScan? && !Requests(x)) &&
      (forall k :: 0 <= k < |p| && Awaits(p[k]) ==> k == 0) &&
      ((exists x :: x in p && Awaits(x)) <==> Launches(m, w)) &&
      ((exists x :: x in p && Notifies(x)) <==> Launches(m, w) && m.body.flow.PR? && !w.started.Raised?)
  {
    var p := ResultsPlan(m, w);
    assert p[0] in p;
    assert |p| > 1 ==> p[1] in p;
  }

  /** What handling a result says: the await message names the scan, workflow and service of the result, and
      the date, deadline and interval it was handled with; the notice tells that the scan started. */
  lemma ResultsSay(m: Message, w: AgentWorld, x: Effect)
    requires w.Results? && x in ResultsPlan(m, w) && x.Publish?
    ensures m.body.ScanOutcome?
    ensures x == (if Awaits(x)
      then Publish(ScanIn,
        Message(AwaitScan(m.body.event, m.body.flow, m.body.moniker, w.now, w.dropBy),
          MakeTopic(Await, m.body.flow, m.body.moniker), Some(w.interval), None, None), w.started)
      else Publish(ScanIn,
        Message(Notice(PR, m.body.moniker), MakeTopic(Annotate, PR, m.body.moniker), None, None, None), w.noticed))
    ensures Notifies(x) ==> m.body.flow.PR?
  {
    var k :| 0 <= k < |ResultsPlan(m, w)| && ResultsPlan(m, w)[k] == x;
  }
}
