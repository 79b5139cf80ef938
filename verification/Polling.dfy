/** The handler of a polled scan: `process_poll` around `execute_poll_scan_workflow`. */
module Polling {
  import opened Common
  import opened Topics
  import opened Topology
  import opened Routing
  import opened Backoff
  import opened Amqp

  /** Multiplier and cap, in milliseconds, of the polling service of one service name. */
  datatype PollConfig = PollConfig(multiplier: int, cap: int)

  datatype Inspection = Executing | Succeeded | Failed | ResponseError | OtherError

  datatype Policy = Passes | Breaks | PolicyError

  /** What the handler is answered: the channel, the scan, the policy (asked once or twice), the
      confirms of a report and of a re-enqueue, and whether the channel then closes. */
  datatype PollWorld = PollWorld(
    channel: bool, scan: Inspection, policies: bool, first: Policy, second: Policy,
    report: Answer, republish: Answer, closes: bool)

  datatype Verdict = Stop | Report(error: Fault) | Again | Foreign

  function Judge(w: PollWorld): Verdict {
    match w.scan
    case ResponseError => Stop
    case OtherError => Foreign
    case Executing => Again
    case Failed => if w.policies then Report(WorkflowFailure) else Again
    case Succeeded =>
      if !w.policies || w.first.PolicyError? then Again
      else if w.first.Passes? then Report(NoError)
      else match w.second
        case PolicyError => Again
        case Breaks => Report(PolicyViolation)
        case Passes => Report(StateMessage)
  }

  function AwaitMessage(body: Body, ttl: int): Message
    requires body.AwaitScan?
  {
    Message(body, AwaitTopic(body.flow, body.moniker), Some(ttl), None, None)
  }

  /** Same body, same routing key, the next wait, and no death record. */
  function Successor(m: Message, c: PollConfig, waited: int): Message {
    Message(m.body, m.key, Some(Next(waited, c.multiplier, c.cap)), None, None)
  }

  function ReportState(flow: Workflow, error: Fault): ScanState {
    if flow.PR? && !error.NoError? then Failure else Feedback
  }

  function ReportMessage(body: Body, error: Fault): Message
    requires body.AwaitScan?
  {
    Message(ScanReport(body.scan, body.flow, body.moniker, error),
            MakeTopic(ReportState(body.flow, error), body.flow, body.moniker), None, None, None)
  }

  /** The queue a finished poll reports to, fixed by the workflow and the outcome. */
  function ReportQueue(flow: Workflow, error: Fault): Queue {
    match flow
    case PUSH => GenerateSarif
    case PR => if error.NoError? then PrFeedback else PrScanFailure
  }

  /** Effects of a piece of handler code and whether it ends by raising. */
  datatype Outcome = Outcome(effects: seq<Effect>, raises: bool)

  function Reenqueue(m: Message, c: PollConfig, w: PollWorld): Outcome {
    if m.death.None? || m.death.value.originalExpiration.None? then Outcome([], true)
    else
      var sent := Publish(ScanIn, Successor(m, c, m.death.value.originalExpiration.value), w.republish);
      match w.republish
      case Confirmed => Outcome([sent, Ack], false)
      case Refused => Outcome([sent, Requeue], false)
      case Raised => Outcome([sent], true)
  }

  function Poll(m: Message, c: PollConfig, now: int, w: PollWorld): Outcome
    requires m.body.AwaitScan?
  {
    if now >= m.body.dropBy then Outcome([Ack], false)
    else if !w.channel then Outcome([], true)
    else
      var o := Inspected(m, c, w);
      Outcome(o.effects, o.raises || !w.closes)
  }

  /** The handler between opening and closing its channel. */
  function Inspected(m: Message, c: PollConfig, w: PollWorld): Outcome
    requires m.body.AwaitScan?
  {
    match Judge(w)
    case Stop => Outcome([Ack], false)
    case Again => Reenqueue(m, c, w)
    case Foreign => Outcome(Reenqueue(m, c, w).effects, true)
    case Report(error) =>
      var report := Publish(ScanIn, ReportMessage(m.body, error), w.report);
      if w.report.Raised? then
        var again := Reenqueue(m, c, w);
        Outcome([report] + again.effects, again.raises)
      else Outcome([report, Ack], false)
  }

  /** All a delivery from a polling queue makes happen. */
  function PollPlan(configs: map<string, PollConfig>, m: Message, now: int, w: PollWorld): seq<Effect> {
    if !m.body.AwaitScan? || m.body.moniker !in configs then [Reject]
    else
      var o := Poll(m, configs[m.body.moniker], now, w);
      if o.raises then o.effects + [Reject] else o.effects
  }

  // ---------- the handlers, step by step ----------

  /** The feedback services the polling service is configured with. */
  const Services := [PR, PUSH]

  function Times(n: nat, x: Effect): seq<Effect> {
    seq(n, _ => x)
  }

  function Count(services: seq<Workflow>, flow: Workflow): nat {
    if services == [] then 0
    else Count(services[..|services| - 1], flow) + if services[|services| - 1] == flow then 1 else 0
  }

  /** Every service is told of every finished scan; only those of its workflow publish. */
  method Broadcast(session: Session, services: seq<Workflow>, body: Body, error: Fault, world: Answer)
    returns (raised: bool)
    requires body.AwaitScan?
    modifies session
    ensures session.done == old(session.done) +
      Times(Count(services, body.flow), Publish(ScanIn, ReportMessage(body, error), world))
    ensures raised <==> world.Raised? && Count(services, body.flow) > 0
  {
    raised := false;
    for i := 0 to |services|
      invariant session.done == old(session.done) +
        Times(Count(services[..i], body.flow), Publish(ScanIn, ReportMessage(body, error), world))
      invariant raised <==> world.Raised? && Count(services[..i], body.flow) > 0
    {
      assert services[..i + 1][..i] == services[..i];
      if services[i] == body.flow {
        var answer := session.Send(ScanIn, ReportMessage(body, error), world);
        raised := raised || answer.Raised?;
      }
    }
    assert services[..|services|] == services;
  }

  lemma BroadcastReachesOneService(flow: Workflow)
    ensures Count(Services, flow) == 1
  {
    assert Services[..1] == [PR] && [PR][..0] == [];
    assert Count([PR], flow) == if PR == flow then 1 else 0;
  }

  method ExecutePollScanWorkflow(session: Session, m: Message, c: PollConfig, now: int, w: PollWorld)
    returns (raised: bool)
    requires m.body.AwaitScan?
    modifies session
    ensures session.done == old(session.done) + Poll(m, c, now, w).effects
    ensures raised == Poll(m, c, now, w).raises
  {
    var requeueOnFinally := true;
    raised := false;
    if now >= m.body.dropBy {
      session.Do(Ack);
      return;
    }
    if !w.channel {
      return true;
    }
    BroadcastReachesOneService(m.body.flow);
    if w.scan.ResponseError? {
      requeueOnFinally := false;
      session.Do(Ack);
    } else if w.scan.OtherError? {
      raised := true;
    } else if !w.scan.Executing? {
      // The inner try: whatever it raises is logged and leaves requeueOnFinally as it is.
      var swallowed := !w.policies;
      if !swallowed {
        if w.scan.Succeeded? && w.first.PolicyError? {
          swallowed := true;
        } else if w.scan.Succeeded? && w.first.Passes? {
          swallowed := Broadcast(session, Services, m.body, NoError, w.report);
        } else if w.scan.Failed? {
          swallowed := Broadcast(session, Services, m.body, WorkflowFailure, w.report);
        } else if w.second.PolicyError? {
          swallowed := true;
        } else if w.second.Breaks? {
          swallowed := Broadcast(session, Services, m.body, PolicyViolation, w.report);
        } else {
          swallowed := Broadcast(session, Services, m.body, StateMessage, w.report);
        }
      }
      if !swallowed {
        requeueOnFinally := false;
        session.Do(Ack);
      }
    }
    if requeueOnFinally {
      var failed := RequeueInFinally(session, m, c, w);
      if failed {
        return true;
      }
    }
    // The channel is closed last, and may fail to.
    raised := raised || !w.closes;
  }

  method RequeueInFinally(session: Session, m: Message, c: PollConfig, w: PollWorld) returns (raised: bool)
    modifies session
    ensures session.done == old(session.done) + Reenqueue(m, c, w).effects
    ensures raised == Reenqueue(m, c, w).raises
  {
    if m.death.None? || m.death.value.originalExpiration.None? {
      return true;
    }
    var backoff := m.death.value.originalExpiration.value * c.multiplier;
    if backoff > c.cap {
      backoff := c.cap;
    }
    var result := session.Send(ScanIn, Message(m.body, m.key, Some(backoff), None, None), w.republish);
    if result.Raised? {
      return true;
    }
    if result.Confirmed? {
      session.Do(Ack);
    } else {
      session.Do(Requeue);
    }
    raised := false;
  }

  method ProcessPoll(session: Session, configs: map<string, PollConfig>, m: Message, now: int, w: PollWorld)
    modifies session
    ensures session.done == old(session.done) + PollPlan(configs, m, now, w)
  {
    var raised := true;
    if m.body.AwaitScan? && m.body.moniker in configs {
      raised := ExecutePollScanWorkflow(session, m, configs[m.body.moniker], now, w);
    }
    if raised {
      session.Do(Reject);
    }
  }

  // ---------- what a plan amounts to ----------

  ghost predicate Serves(configs: map<string, PollConfig>, m: Message) {
    m.body.AwaitScan? && m.body.moniker in configs
  }

  ghost predicate Polls(configs: map<string, PollConfig>, m: Message, now: int, w: PollWorld) {
    Serves(configs, m) && now < m.body.dropBy && w.channel
  }

  /** The scan is over and its policy known, and this is what its report has to tell. */
  predicate Tells(w: PollWorld, error: Fault) {
    w.policies &&
    match error
    case WorkflowFailure => w.scan.Failed?
    case NoError => w.scan.Succeeded? && w.first.Passes?
    case PolicyViolation => w.scan.Succeeded? && w.first.Breaks? && w.second.Breaks?
    case StateMessage => w.scan.Succeeded? && w.first.Breaks? && w.second.Passes?
  }

  /** There is something to report. */
  predicate Finished(w: PollWorld) {
    w.policies &&
    (w.scan.Failed? || (w.scan.Succeeded? && (w.first.Passes? || (w.first.Breaks? && !w.second.PolicyError?))))
  }

  /** The scan is to be asked about again. */
  ghost predicate Continues(w: PollWorld) {
    !w.scan.ResponseError? && (Finished(w) ==> w.report.Raised?)
  }

  /** The three ends of a token: too old, stopped by an error response, or reported. */
  ghost predicate Ends(configs: map<string, PollConfig>, m: Message, now: int, w: PollWorld) {
    Serves(configs, m) && (now >= m.body.dropBy ||
      (w.channel && (w.scan.ResponseError? || (Finished(w) && !w.report.Raised?))))
  }

  /** Messages that came through an awaited queue carry what they waited. */
  ghost predicate Waited(m: Message) {
    m.death.Some? && m.death.value.originalExpiration.Some?
  }

  /** The faults that make the handler drop the token: an unknown service name, no channel,
      or a re-enqueue that raises. */
  ghost predicate Loses(configs: map<string, PollConfig>, m: Message, now: int, w: PollWorld) {
    !Serves(configs, m) || (now < m.body.dropBy &&
      (!w.channel || (Continues(w) && (!Waited(m) || w.republish.Raised?))))
  }

  /** A delivery ends its token, continues it once, is redelivered, or loses it: which, exactly. */
  lemma PollFate(configs: map<string, PollConfig>, m: Message, now: int, w: PollWorld)
    ensures Fate(PollPlan(configs, m, now, w)) == Some(
      if Loses(configs, m, now, w) then Reject
      else if Polls(configs, m, now, w) && Continues(w) && w.republish.Refused? then Requeue
      else Ack)
  {
    if Serves(configs, m) {
      var o := Poll(m, configs[m.body.moniker], now, w);
      InnerFate(m, configs[m.body.moniker], now, w);
      FateOfBoth(o.effects, [Reject]);
    }
  }

  /** A delivery that was settled already raises: an error other than a response error came out of loading
      the scan, or the channel did not close. */
  ghost predicate SettlesTwice(configs: map<string, PollConfig>, m: Message, now: int, w: PollWorld) {
    Polls(configs, m, now, w) && (Continues(w) ==> Waited(m) && !w.republish.Raised?) &&
    (w.scan.OtherError? || !w.closes)
  }

  /** A delivery is settled exactly once, unless the inner handler settles it and then raises: the outer
      handler settles it again. */
  lemma SettledOnce(configs: map<string, PollConfig>, m: Message, now: int, w: PollWorld)
    ensures Settlements(PollPlan(configs, m, now, w)) == if SettlesTwice(configs, m, now, w) then 2 else 1
  {
    if Serves(configs, m) {
      var o := Poll(m, configs[m.body.moniker], now, w);
      InnerFate(m, configs[m.body.moniker], now, w);
      FateOfBoth(o.effects, [Reject]);
    }
  }

  /** The inner handler settles once or, by raising, leaves that to the outer one. */
  lemma InnerFate(m: Message, c: PollConfig, now: int, w: PollWorld)
    requires m.body.AwaitScan?
    ensures var o, polls := Poll(m, c, now, w), now < m.body.dropBy && w.channel;
      var unsettled := (now < m.body.dropBy && !w.channel) || (polls && Continues(w) && (!Waited(m) ||
        w.republish.Raised?));
      Settlements(o.effects) == (if unsettled then 0 else 1) &&
      o.raises == (unsettled || (polls && (w.scan.OtherError? || !w.closes))) &&
      Fate(o.effects) == if unsettled then None
        else if polls && Continues(w) && w.republish.Refused? then Some(Requeue) else Some(Ack)
  {
    var again := Reenqueue(m, c, w);
    ReenqueueFate(m, c, w);
    if now < m.body.dropBy && w.channel && Judge(w).Report? {
      var report := Publish(ScanIn, ReportMessage(m.body, Judge(w).error), w.report);
      FateOfBoth([report], again.effects);
      ShortFate([report]);
      ShortFate([report, Ack]);
    } else {
      ShortFate([Ack]);
      ShortFate([]);
    }
  }

  lemma ReenqueueFate(m: Message, c: PollConfig, w: PollWorld)
    ensures var o := Reenqueue(m, c, w);
      var unsettled := !Waited(m) || w.republish.Raised?;
      Settlements(o.effects) == (if unsettled then 0 else 1) && o.raises == unsettled &&
      Fate(o.effects) == if unsettled then None else if w.republish.Refused? then Some(Requeue) else Some(Ack)
  {
    ShortFate(Reenqueue(m, c, w).effects);
  }

  /** What an acknowledged delivery has stored before: the one report of a finished scan if its
      publish was confirmed, the one successor of a continued one, nothing otherwise. */
  lemma AckMeans(configs: map<string, PollConfig>, m: Message, now: int, w: PollWorld, pc: nat)
    requires pc < |PollPlan(configs, m, now, w)| && PollPlan(configs, m, now, w)[pc].Ack?
    requires Unsettled(PollPlan(configs, m, now, w)[..pc])
    ensures Serves(configs, m)
    ensures Ends(configs, m, now, w) && (now >= m.body.dropBy || w.scan.ResponseError? || w.report.Refused?) ==>
      Stored(PollPlan(configs, m, now, w)[..pc]) == []
    ensures Ends(configs, m, now, w) && now < m.body.dropBy && !w.scan.ResponseError? && w.report.Confirmed? ==>
      exists error :: Tells(w, error) && Stored(PollPlan(configs, m, now, w)[..pc]) == [ReportMessage(m.body, error)]
    ensures !Ends(configs, m, now, w) ==>
      Waited(m) && now < m.body.dropBy && Stored(PollPlan(configs, m, now, w)[..pc]) ==
        [Successor(m, configs[m.body.moniker], m.death.value.originalExpiration.value)]
  {
    var p := PollPlan(configs, m, now, w);
    FirstSettles(p, pc);
    assert pc <= 3;
    ShortStored(p[..pc]);
    FateIs(p, pc);
    PollFate(configs, m, now, w);
    if Judge(w).Report? {
      assert Tells(w, Judge(w).error);
    }
  }

  /** A delivery reports exactly what its answers tell: that all is well of a scan that succeeded and whose
      policies pass at first asking, a failure of the workflow of one that failed, and otherwise what the
      second asking says.  The report names the scan, its workflow and its service. */
  lemma ReportsIff(configs: map<string, PollConfig>, m: Message, now: int, w: PollWorld, error: Fault)
    requires m.body.AwaitScan?
    ensures (exists x :: x in PollPlan(configs, m, now, w) && Reports(x) && x.message.body.error == error) <==>
      Polls(configs, m, now, w) && Tells(w, error)
    ensures forall x :: x in PollPlan(configs, m, now, w) && Reports(x) ==>
      x == Publish(ScanIn, Message(ScanReport(m.body.scan, m.body.flow, m.body.moniker, x.message.body.error),
        if m.body.flow.PR? && !(w.scan.Succeeded? && w.first.Passes?)
        then MakeTopic(Failure, PR, m.body.moniker) else MakeTopic(Feedback, m.body.flow, m.body.moniker),
        None, None, None), w.report)
  {
    var p := PollPlan(configs, m, now, w);
    forall k | 0 <= k < |p| && Reports(p[k]) ensures k == 0 && Polls(configs, m, now, w) && Finished(w) {
    }
    if Polls(configs, m, now, w) && Finished(w) {
      OneReport(m, configs[m.body.moniker], w, error);
      assert p[0] == Inspected(m, configs[m.body.moniker], w).effects[0];
    }
  }

  lemma OneReport(m: Message, c: PollConfig, w: PollWorld, error: Fault)
    requires m.body.AwaitScan? && Finished(w)
    ensures var p := Inspected(m, c, w).effects;
      p != [] && Reports(p[0]) && (p[0].message.body.error == error <==> Tells(w, error)) &&
      p[0] == Publish(ScanIn, Message(ScanReport(m.body.scan, m.body.flow, m.body.moniker, p[0].message.body.error),
        if m.body.flow.PR? && !(w.scan.Succeeded? && w.first.Passes?)
        then MakeTopic(Failure, PR, m.body.moniker) else MakeTopic(Feedback, m.body.flow, m.body.moniker),
        None, None, None), w.report)
  {
  }

  ghost predicate Reports(x: Effect) {
    x.Publish? && x.message.body.ScanReport?
  }

  ghost predicate Repeats(x: Effect) {
    x.Publish? && x.message.body.AwaitScan?
  }

  /** A delivery asks again exactly when the scan still runs, or its end, its policy or its report cannot be
      had: with the same body and key, after the capped multiple of the last wait. */
  lemma RepeatsIff(configs: map<string, PollConfig>, m: Message, now: int, w: PollWorld)
    requires Serves(configs, m)
    ensures var p, c := PollPlan(configs, m, now, w), configs[m.body.moniker];
      ((exists x :: x in p && Repeats(x)) <==>
        now < m.body.dropBy && w.channel && Waited(m) && !w.scan.ResponseError? &&
        (Finished(w) ==> w.report.Raised?)) &&
      forall x :: x in p && Repeats(x) ==>
        x == Publish(ScanIn, Message(m.body, m.key,
          Some(Min(m.death.value.originalExpiration.value * c.multiplier, c.cap)), None, None), w.republish)
  {
    var p := PollPlan(configs, m, now, w);
    if now < m.body.dropBy && w.channel && Waited(m) && Continues(w) {
      assert Repeats(p[if Finished(w) then 1 else 0]);
    }
  }

  /** A scan that still runs is never dropped: in time, with a channel, it has one successor exactly when that
      is confirmed, is redelivered when it is refused, and rejected when it raises. */
  lemma RunningGoesOn(configs: map<string, PollConfig>, m: Message, now: int, w: PollWorld)
    requires Serves(configs, m) && Waited(m) && now < m.body.dropBy && w.channel && w.scan.Executing?
    ensures var p, c := PollPlan(configs, m, now, w), configs[m.body.moniker];
      Stored(p) == (if w.republish.Confirmed?
        then [Message(m.body, m.key, Some(Min(m.death.value.originalExpiration.value * c.multiplier, c.cap)), None,
          None)]
        else []) &&
      Fate(p) == Some(match w.republish case Confirmed => Ack case Refused => Requeue case Raised => Reject)
  {
    var p, c := PollPlan(configs, m, now, w), configs[m.body.moniker];
    RunningPlan(configs, m, now, w);
    ShortStored(p);
    ShortFate(p);
  }

  lemma RunningPlan(configs: map<string, PollConfig>, m: Message, now: int, w: PollWorld)
    requires Serves(configs, m) && Waited(m) && now < m.body.dropBy && w.channel && w.scan.Executing?
    ensures var p, c := PollPlan(configs, m, now, w), configs[m.body.moniker];
      2 <= |p| <= 3 && (|p| == 3 ==> p[2] == Reject) &&
      p[0] == Publish(ScanIn, Message(m.body, m.key,
        Some(Min(m.death.value.originalExpiration.value * c.multiplier, c.cap)), None, None), w.republish) &&
      p[1] == match w.republish case Confirmed => Ack case Refused => Requeue case Raised => Reject
  {
  }

  /** A delivery is acknowledged without a word exactly when it is too old or the scan cannot be read. */
  lemma SilentAckIff(configs: map<string, PollConfig>, m: Message, now: int, w: PollWorld)
    ensures var p := PollPlan(configs, m, now, w);
      (exists k :: SilentAck(p, k)) <==>
      Serves(configs, m) && (now >= m.body.dropBy || (w.channel && w.scan.ResponseError?))
  {
    var p := PollPlan(configs, m, now, w);
    if Serves(configs, m) && (now >= m.body.dropBy || (w.channel && w.scan.ResponseError?)) {
      assert SilentAck(p, 0);
    } else {
      assert p[0].Publish? || |p| == 1;
    }
  }

  ghost predicate SilentAck(p: seq<Effect>, k: int) {
    0 <= k < |p| && p[k].Ack? && forall i :: 0 <= i < k ==> !p[i].Publish?
  }

  /** A message stored by a poll is a report of that scan or its one successor. */
  lemma PollStores(configs: map<string, PollConfig>, m: Message, now: int, w: PollWorld, pc: nat)
    requires pc < |PollPlan(configs, m, now, w)| && PollPlan(configs, m, now, w)[pc].Publish?
    ensures var x := PollPlan(configs, m, now, w)[pc];
      x.exchange == ScanIn && Polls(configs, m, now, w) &&
        x.answer == (if x.message.body.ScanReport? then w.report else w.republish) &&
      ((x.message.body.ScanReport? && Tells(w, x.message.body.error) &&
        x.message == ReportMessage(m.body, x.message.body.error)) ||
       (Waited(m) && x.message == Successor(m, configs[m.body.moniker], m.death.value.originalExpiration.value)))
  {
  }

  lemma FirstSettles(p: seq<Effect>, pc: nat)
    requires pc <= |p| && Unsettled(p[..pc])
    ensures forall k :: 0 <= k < pc ==> !p[k].Settles()
  {
    forall k | 0 <= k < pc ensures !p[k].Settles() {
      assert p[..pc][k] == p[k];
    }
  }
}
