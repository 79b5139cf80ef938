/** Delegated scans: the agent that runs a requested scan, and the handler of requests that
    came back from the dead-letter exchange. */
module Delegation {
  import opened Common
  import opened Topics
  import opened Topology
  import opened Routing
  import opened Amqp

  /** What the work of a granted request comes to: a scan whose resolver exit code was zero or not,
      or an exception before or after the scan was submitted. */
  datatype Resolving = Scans(success: bool) | Breaks(submitted: bool)

  /** Handing a result to the orchestrator of its event: it is found and its handler runs, its route or
      event has no handler, which is only logged, or something raises. */
  datatype Dispatching = Dispatched | Unhandled | DispatchRaises

  /** What the handler of a delivery is answered.  Of a runner, `executor`: its context is entered and the
      workflow is built from the public key; `cleanup`: leaving the contexts does not raise; `first`
      answers the publish of the normal path, `second` that of the exception path.  Of a result,
      `executing`: the scan still runs; `enabled`: the push workflow is; `now`, `dropBy` and `interval`
      go into the await message. */
  datatype AgentWorld =
    | Runner(executor: bool, valid: bool, canExecute: bool, work: Resolving, cleanup: bool, first: Answer,
      second: Answer)
    | Timeout(valid: bool, ttl: int, answer: Answer)
    | Results(valid: bool, dispatch: Dispatching, executing: bool, enabled: bool, started: Answer, noticed: Answer,
              now: int, dropBy: int, interval: int)

  /** `__DelegatedScanMessage_factory` as `delegated_scan_resubmit` calls it. */
  function RequestMessage(body: Body, key: string, retries: int, ttl: int): Message {
    Message(body, key, Some(ttl), Some(Max(retries, 0)), None)
  }

  function OutcomeMessage(request: Body, suffix: Option<string>, success: bool, scanned: bool): Message
    requires request.ScanRequest?
  {
    Message(ScanOutcome(request.event, request.flow, request.moniker, success, scanned), ResultTopic(suffix), None,
      None, None)
  }

  // ---------- the runner agent ----------

  datatype Attempt = Attempt(effects: seq<Effect>, raises: bool)

  function Send(m: Message, answer: Answer): Effect {
    Publish(ResolverScan, m, answer)
  }

  function AttemptRun(tag: string, body: Body, w: AgentWorld): Attempt
    requires body.ScanRequest? && w.Runner?
  {
    if !w.valid then Attempt([], !w.cleanup)
    else if !w.canExecute then
      Attempt([Send(OutcomeMessage(body, Some(tag), false, false), w.first)], w.first.Raised? || !w.cleanup)
    else match w.work
      case Breaks(submitted) => Attempt(if submitted then [ExecScan(body.event)] else [], true)
      case Scans(success) =>
        Attempt([ExecScan(body.event), Send(OutcomeMessage(body, Some(tag), success, true), w.first)],
                w.first.Raised? || !w.cleanup)
  }

  /** When the executor cannot be entered, or the workflow cannot be built from the public key, the exception
      handler trips over a name that was never bound, and the delivery is left unsettled; so it is when
      the failure report raises. */
  function RunnerPlan(tag: string, m: Message, w: AgentWorld): seq<Effect>
    requires w.Runner?
  {
    if !m.body.ScanRequest? then [Reject]
    else if !w.executor then []
    else
      var a := AttemptRun(tag, m.body, w);
      if !a.raises then a.effects + [Ack]
      else a.effects + [Send(OutcomeMessage(m.body, Some(tag), false, false), w.second)] +
           if w.second.Raised? then [] else [Reject]
  }

  method ResolverRunner(session: Session, tag: string, m: Message, w: AgentWorld)
    requires w.Runner?
    modifies session
    ensures session.done == old(session.done) + RunnerPlan(tag, m, w)
  {
    if !m.body.ScanRequest? {
      session.Do(Reject);
      return;
    }
    if !w.executor {
      return;
    }
    var raised := false;
    if w.valid {
      if !w.canExecute {
        raised := SendFailureResponse(session, tag, m.body, w.first);
      } else if w.work.Breaks? {
        if w.work.submitted {
          session.Do(ExecScan(m.body.event));
        }
        raised := true;
      } else {
        session.Do(ExecScan(m.body.event));
        var answer := session.Send(ResolverScan, OutcomeMessage(m.body, Some(tag), w.work.success, true), w.first);
        raised := answer.Raised?;
      }
    }
    raised := raised || !w.cleanup;
    if raised {
      var failed := SendFailureResponse(session, tag, m.body, w.second);
      if !failed {
        session.Do(Reject);
      }
    } else {
      session.Do(Ack);
    }
  }

  method SendFailureResponse(session: Session, tag: string, body: Body, world: Answer) returns (raised: bool)
    requires body.ScanRequest?
    modifies session
    ensures session.done == old(session.done) + [Send(OutcomeMessage(body, Some(tag), false, false), world)]
    ensures raised == world.Raised?
  {
    var answer := session.Send(ResolverScan, OutcomeMessage(body, Some(tag), false, false), world);
    raised := answer.Raised?;
  }

  // ---------- the timeout agent ----------

  ghost predicate TimedOut(m: Message) {
    m.death.Some? && m.death.value.reason.Expired?
  }

  function TimeoutPlan(m: Message, w: AgentWorld): seq<Effect>
    requires w.Timeout?
  {
    if !m.body.ScanRequest? || !w.valid then [Reject]
    else if m.death.None? || !m.death.value.reason.Expired? then [Ack]
    else if m.retries.None? then [Reject]
    else
      var left := m.retries.value - 1;
      [Send(if left > 0 then RequestMessage(m.body, m.key, left, w.ttl) else OutcomeMessage(m.body, None, false,
        false), w.answer)] +
      [if w.answer.Raised? then Reject else Ack]
  }

  method ResolverTimeoutAgent(session: Session, m: Message, w: AgentWorld)
    requires w.Timeout?
    modifies session
    ensures session.done == old(session.done) + TimeoutPlan(m, w)
  {
    if !m.body.ScanRequest? || !w.valid {
      // An invalid signature is logged with a field the details do not have; either way it is rejected.
      session.Do(Reject);
      return;
    }
    var raised := HandleResolverScanTimeout(session, m, w);
    if raised {
      session.Do(Reject);
    } else {
      session.Do(Ack);
    }
  }

  method HandleResolverScanTimeout(session: Session, m: Message, w: AgentWorld) returns (raised: bool)
    requires w.Timeout? && w.valid && m.body.ScanRequest?
    modifies session
    ensures session.done + [if raised then Reject else Ack] == old(session.done) + TimeoutPlan(m, w)
  {
    raised := false;
    if m.death.Some? && m.death.value.reason.Expired? {
      if m.retries.None? {
        return true;
      }
      var resubmits := m.retries.value - 1;
      if resubmits > 0 {
        var answer := session.Send(ResolverScan, RequestMessage(m.body, m.key, resubmits, w.ttl), w.answer);
        raised := answer.Raised?;
      } else {
        var answer := session.Send(ResolverScan, OutcomeMessage(m.body, None, false, false), w.answer);
        raised := answer.Raised?;
      }
    }
  }

  // ---------- how deliveries are settled ----------

  /** The attempt of an agent raises: in its work, at its publish, or on leaving its contexts. */
  ghost predicate AttemptFails(w: AgentWorld)
    requires w.Runner?
  {
    !w.cleanup || (w.valid && ((w.canExecute && w.work.Breaks?) || w.first.Raised?))
  }

  /** An agent's delivery is left unsettled exactly when its executor cannot be entered or its workflow cannot
      be built, or when its attempt fails and so does the failure report. */
  ghost predicate LeftUnsettled(m: Message, w: AgentWorld)
    requires w.Runner?
  {
    m.body.ScanRequest? && (!w.executor || (AttemptFails(w) && w.second.Raised?))
  }

  /** How an agent's delivery is settled: not at all exactly when left so, else once; rejected exactly when
      the body is none of its own or the attempt failed. */
  lemma RunnerFate(tag: string, m: Message, w: AgentWorld)
    requires w.Runner?
    ensures Settlements(RunnerPlan(tag, m, w)) == (if LeftUnsettled(m, w) then 0 else 1)
    ensures Fate(RunnerPlan(tag, m, w)) ==
      if LeftUnsettled(m, w) then None
      else if !m.body.ScanRequest? || AttemptFails(w) then Some(Reject) else Some(Ack)
  {
    if !m.body.ScanRequest? || !w.executor {
      ShortFate(RunnerPlan(tag, m, w));
    } else {
      var a := AttemptRun(tag, m.body, w);
      var end: seq<Effect> :=
        if !a.raises then [Ack]
        else [Send(OutcomeMessage(m.body, Some(tag), false, false),
          w.second)] + if w.second.Raised? then [] else [Reject];
      assert a.raises <==> AttemptFails(w);
      assert RunnerPlan(tag, m, w) == a.effects + end;
      ShortFate(a.effects);
      ShortFate(end);
      FateOfBoth(a.effects, end);
    }
  }

  /** A returned request is always settled once: rejected exactly when its body or signature is no good, or
      it timed out and either has no retry header or its publish raises. */
  lemma TimeoutFate(m: Message, w: AgentWorld)
    requires w.Timeout?
    ensures Settlements(TimeoutPlan(m, w)) == 1
    ensures Fate(TimeoutPlan(m, w)) == Some(
      if !m.body.ScanRequest? || !w.valid || (TimedOut(m) && (m.retries.None? ||
        w.answer.Raised?)) then Reject else Ack)
  {
    ShortFate(TimeoutPlan(m, w));
  }

  // ---------- what the handlers say ----------

  /** The agent gets its scan submitted and leaves the clone well. */
  predicate Ran(w: AgentWorld)
    requires w.Runner?
  {
    w.executor && w.valid && w.canExecute && w.work.Scans?
  }

  /** What an agent does for a request.  It scans for its event, once and before anything else, exactly when
      its work gets to submit the scan; then it publishes, under its tag, first of all that there was a scan
      and whether the resolver succeeded, exactly when the scan ran well; anything else that it ever
      publishes says that there was none. */
  lemma RunnerSays(tag: string, m: Message, w: AgentWorld)
    requires w.Runner? && m.body.ScanRequest?
    ensures var p := RunnerPlan(tag, m, w);
      ((exists k :: 0 <= k < |p| && p[k].ExecScan?) <==>
        w.executor && w.valid && w.canExecute && (w.work.Scans? || w.work.submitted)) &&
      (forall k :: 0 <= k < |p| && p[k].ExecScan? ==> k == 0 && p[k].event == m.body.event) &&
      (Ran(w) ==> |p| > 1 && p[1].Publish? && p[1].answer == w.first) &&
      forall k :: 0 <= k < |p| && p[k].Publish? ==>
        var scanned := Ran(w) && k == 1;
        p[k].exchange == ResolverScan && p[k].message == Message(
          ScanOutcome(m.body.event, m.body.flow, m.body.moniker, scanned && w.work.success, scanned),
          ResultTopic(Some(tag)), None, None, None)
  {
    var p := RunnerPlan(tag, m, w);
    if w.executor && w.valid && w.canExecute && (w.work.Scans? || w.work.submitted) {
      assert p[0].ExecScan?;
    }
  }

  /** What the timeout handler publishes: nothing but for a request that expired and has a retry header; of
      such a one, while more than one retry is left, the request under its key with one fewer, and else that
      it failed without a scan. */
  lemma TimeoutSays(m: Message, w: AgentWorld)
    requires w.Timeout?
    ensures var p := TimeoutPlan(m, w);
      ((exists k :: 0 <= k < |p| && p[k].Publish?) <==>
        m.body.ScanRequest? && w.valid && TimedOut(m) && m.retries.Some?) &&
      forall k :: 0 <= k < |p| && p[k].Publish? ==>
        k == 0 && p[k] == Publish(ResolverScan,
          if m.retries.value > 1
          then Message(m.body, m.key, Some(w.ttl), Some(m.retries.value - 1), None)
          else Message(ScanOutcome(m.body.event, m.body.flow, m.body.moniker, false, false), ResultTopic(None),
            None, None, None),
          w.answer)
  {
    var p := TimeoutPlan(m, w);
    if m.body.ScanRequest? && w.valid && TimedOut(m) && m.retries.Some? {
      assert p[0].Publish?;
    }
  }

  // ---------- what the plans amount to ----------

  function Answered(plan: seq<Effect>): nat {
    if plan == [] then 0 else AnsweredAt(plan, 0) + Answered(plan[1..])
  }

  /** Faults after an outcome was stored, and outcomes that were not stored. */
  ghost predicate AnsweredOnce(w: AgentWorld)
    requires w.Runner?
  {
    w.executor && match w.valid
    case false => !w.cleanup && w.second.Confirmed?
    case true =>
      if w.canExecute && w.work.Breaks? then w.second.Confirmed?
      else if w.first.Confirmed? then w.cleanup || !w.second.Confirmed?
      else (w.first.Raised? || !w.cleanup) && w.second.Confirmed?
  }

  /** An agent delivery stores exactly one result exactly when its one outcome is confirmed and
      nothing fails after it, or when an exception before that leads to a confirmed failure report. */
  lemma RunnerAnswersOnce(tag: string, m: Message, w: AgentWorld)
    requires w.Runner? && m.body.ScanRequest?
    ensures Answered(RunnerPlan(tag, m, w)) == 1 <==> AnsweredOnce(w)
  {
    ShortAnswered(RunnerPlan(tag, m, w));
  }

  function AnsweredAt(p: seq<Effect>, k: nat): nat {
    if k < |p| && p[k].Publish? && p[k].answer.Confirmed? && p[k].message.body.ScanOutcome? then 1 else 0
  }

  lemma ShortAnswered(p: seq<Effect>)
    requires |p| <= 4
    ensures Answered(p) == AnsweredAt(p, 0) + AnsweredAt(p, 1) + AnsweredAt(p, 2) + AnsweredAt(p, 3)
  {
    if |p| > 0 {
      var q := p[1..];
      assert forall k :: 0 <= k < |q| ==> q[k] == p[k + 1];
      if |q| > 0 {
        var r := q[1..];
        assert forall k :: 0 <= k < |r| ==> r[k] == q[k + 1];
        if |r| > 0 {
          var t := r[1..];
          assert forall k :: 0 <= k < |t| ==> t[k] == r[k + 1];
          assert |t| > 0 ==> t[1..] == [];
        }
      }
    }
  }
}
