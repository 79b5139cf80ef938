/** What the messages of delegated scanning say, in every run: what an event leaves, that outcomes tell of scans
    that ran, that such scans are awaited, and that what is awaited was given. */
module DelegationMessages {
  import opened Common
  import opened Topics
  import opened Topology
  import opened Routing
  import opened Amqp
  import opened Delegation
  import opened Orchestration
  import opened DelegationRuns
  import opened DelegationTheorems

  // ---------- outcomes say what happened ----------

  /** An agent that is past its scan, and an outcome that tells of one, have it among the scans. */
  ghost predicate Honest(s: AgentState) {
    forall i :: 0 <= i < |s.records| ==> HonestAt(s, i)
  }

  ghost predicate HonestAt(s: AgentState, i: nat)
    requires i < |s.records|
  {
    var r := s.records[i];
    match r.message.body
    case ScanRequest(event, _, _) => PastScan(r) ==> event in s.scans
    case ScanOutcome(event, _, _, _, scanned) => scanned ==> event in s.scans
    case _ => true
  }

  ghost predicate PastScan(r: AgentRecord) {
    r.place.Held? && r.place.queue.ResolverReq? && r.place.world.Runner? && r.place.pc > 0 &&
    RunnerPlan(r.place.queue.tag, r.message, r.place.world) != [] &&
    RunnerPlan(r.place.queue.tag, r.message, r.place.world)[0].ExecScan?
  }

  lemma WorkIsHonest(site: Site, s: AgentState, i: nat)
    requires Wired(site) && Inv(site, s) && Enabled(site, s, Work(i)) && Honest(s)
    ensures Honest(Apply(site, s, Work(i)))
  {
    var t, n := Apply(site, s, Work(i)), |s.records|;
    WorkChanges(site, s, i);
    assert forall event :: event in s.scans ==> event in t.scans;
    forall k | 0 <= k < |t.records| ensures HonestAt(t, k) {
      if k == i {
        WorkerIsHonest(site, s, i);
      } else if k < n {
        assert HonestAt(s, k);
      } else {
        StoredIsHonest(site, s, i);
      }
    }
  }

  lemma WorkerIsHonest(site: Site, s: AgentState, i: nat)
    requires Wired(site) && Inv(site, s) && Enabled(site, s, Work(i)) && HonestAt(s, i)
    ensures i < |Apply(site, s, Work(i)).records| && HonestAt(Apply(site, s, Work(i)), i)
  {
    var r := s.records[i];
    WorkChanges(site, s, i);
    assert Ok(site, s.records, i);
    if Asks(r) && r.place.queue.ResolverReq? {
      RunnerSays(r.place.queue.tag, r.message, r.place.world);
    }
  }

  lemma StoredIsHonest(site: Site, s: AgentState, i: nat)
    requires Wired(site) && Inv(site, s) && Enabled(site, s, Work(i)) && HonestAt(s, i)
    requires |s.records| < |Apply(site, s, Work(i)).records|
    ensures HonestAt(Apply(site, s, Work(i)), |s.records|)
  {
    var r := s.records[i];
    WorkChanges(site, s, i);
    assert Ok(site, s.records, i);
    if Storing(site, s, i) {
      if r.place.queue.ResolverReq? {
        RunnerSays(r.place.queue.tag, r.message, r.place.world);
      } else {
        TimeoutSays(r.message, r.place.world);
      }
    } else if Launching(site, s, i) {
      ResultStarts(r.message, r.place.world, r.place.pc);
    }
  }

  lemma StepIsHonest(site: Site, s: AgentState, a: Action)
    requires Wired(site) && Inv(site, s) && Enabled(site, s, a) && Honest(s)
    ensures Honest(Apply(site, s, a))
  {
    var t := Apply(site, s, a);
    match a
    case Arrive(_, _, _, _, _) =>
      var more, _ := ArriveLeaves(site, s, a);
      forall k | 0 <= k < |t.records| ensures HonestAt(t, k) {
        if k < |s.records| {
          assert HonestAt(s, k);
        } else {
          assert Born(site, a, s.now, more[k - |s.records|]);
        }
      }
    case Age(i) =>
      AgeMoves(site, s, i);
      forall k | 0 <= k < |t.records| ensures HonestAt(t, k) {
        assert k < |s.records| ==> HonestAt(s, k);
      }
    case Work(i) => WorkIsHonest(site, s, i);
    case _ =>
      forall k | 0 <= k < |t.records| ensures HonestAt(t, k) {
        assert HonestAt(s, k);
      }
  }

  /** In every state of every run, whatever crashes and whatever is forged or refused, an outcome tells of a
      scan only when an agent has run one for its event. */
  lemma {:induction false} OutcomesAreHonest(site: Site, states: seq<AgentState>, acts: seq<Action>, k: nat)
    requires Behaviour(site, states, acts) && k < |states|
    ensures Honest(states[k])
    ensures forall i | 0 <= i < |states[k].records| && states[k].records[i].message.body.ScanOutcome? ::
      states[k].records[i].message.body.scanned ==> states[k].records[i].message.body.event in states[k].scans
  {
    if k > 0 {
      OutcomesAreHonest(site, states, acts, k - 1);
      Always(site, states, acts, k - 1);
      StepIsHonest(site, states[k - 1], acts[k - 1]);
    }
    forall i | 0 <= i < |states[k].records| && states[k].records[i].message.body.ScanOutcome?
      ensures states[k].records[i].message.body.scanned ==>
        states[k].records[i].message.body.event in states[k].scans {
      assert HonestAt(states[k], i);
    }
  }

  /** An agent has run its scan and had the outcome of the normal path confirmed. */
  ghost predicate ToldItsScan(r: AgentRecord) {
    Asks(r) && (
    match r.place
    case Held(q, w, _, pc, _) => q.ResolverReq? && w.Runner? && Ran(w) && w.first.Confirmed? && pc >= 2
    case Settled(_, q, w, _, pc, _) => q.ResolverReq? && w.Runner? && Ran(w) && w.first.Confirmed? && pc >= 2
    case _ => false)
  }

  /** A result of a scan that ran was dispatched, and its await message confirmed. */
  ghost predicate StartedWaiting(r: AgentRecord) {
    match r.place
    case Held(_, w, _, pc, _) => w.Results? && Launches(r.message, w) && w.started.Confirmed? && pc >= 1
    case Settled(_, _, w, _, _, _) => w.Results? && Launches(r.message, w) && w.started.Confirmed?
    case _ => false
  }

  /** The await message of a result. */
  ghost predicate AwaitsResult(r: AgentRecord, d: AgentRecord)
    requires r.place.Held? || r.place.Settled?
  {
    var w := r.place.world;
    w.Results? && r.message.body.ScanOutcome? && d.message == AwaitOfResult(r.message.body, w) &&
    d.place == Ready(AwaitedScans)
  }

  /** A result whose wait was started, under a name without a dot, has its await message stored. */
  lemma ResultIsAwaited(site: Site, states: seq<AgentState>, acts: seq<Action>, k: nat, j: nat)
    requires Behaviour(site, states, acts) && k < |states| && j < |states[k].records|
    requires StartedWaiting(states[k].records[j]) && Dotless(states[k].records[j].message.body.moniker)
    ensures exists n :: 0 <= n < |states[k].records| && AwaitsResult(states[k].records[j], states[k].records[n])
  {
    Always(site, states, acts, k);
    var rs := states[k].records;
    var p, m := rs[j].place, rs[j].message;
    assert Ok(site, rs, j);
    var plan := ResultsPlan(m, p.world);
    assert plan[0] in plan;
    ResultsSay(m, p.world, plan[0]);
    assert p.pc >= 1;
    FirstStored(plan, 0, p.pc);
    assert Ok(site, rs, p.sent[0]);
    assert AwaitsResult(rs[j], rs[p.sent[0]]);
  }

  /** The first message a plan stores. */
  lemma {:induction false} FirstStored(plan: seq<Effect>, k: nat, pc: nat)
    requires k < pc <= |plan| && plan[k].Publish? && plan[k].answer.Confirmed?
    requires forall i :: 0 <= i < k ==> !plan[i].Publish?
    ensures Stored(plan[..pc]) != [] && Stored(plan[..pc])[0] == plan[k].message
  {
    assert plan[..pc][..pc - 1] == plan[..pc - 1];
    if k < pc - 1 {
      FirstStored(plan, k, pc - 1);
    } else {
      StoresNothing(plan[..k]);
    }
  }

  lemma {:induction false} StoresNothing(plan: seq<Effect>)
    requires forall i :: 0 <= i < |plan| ==> !plan[i].Publish?
    ensures Stored(plan) == []
  {
    if plan != [] {
      StoresNothing(plan[..|plan| - 1]);
    }
  }

  /** A delegated scan is followed up.  When an agent ran the scan of a request and its outcome was confirmed,
      the scan is among those that ran and the outcome says so, and whether the resolver succeeded; and when
      the handler of that outcome then started the wait, and the service name has no dot, the await message
      of the scan is stored with the deadline given. */
  lemma DelegatedScanIsAwaited(site: Site, states: seq<AgentState>, acts: seq<Action>, k: nat, i: nat)
    requires Behaviour(site, states, acts) && k < |states| && i < |states[k].records|
    requires ToldItsScan(states[k].records[i])
    ensures var rs, body := states[k].records, states[k].records[i].message.body;
      body.event in states[k].scans &&
      exists j :: i < j < |rs| &&
        rs[j].message.body ==
          ScanOutcome(body.event, body.flow, body.moniker, states[k].records[i].place.world.work.success, true) &&
        (StartedWaiting(rs[j]) && Dotless(body.moniker) ==>
          exists n :: 0 <= n < |rs| && AwaitsResult(rs[j], rs[n]))
  {
    Always(site, states, acts, k);
    var rs := states[k].records;
    var p, m := rs[i].place, rs[i].message;
    assert Ok(site, rs, i);
    RunnerSays(p.queue.tag, m, p.world);
    FirstStored(RunnerPlan(p.queue.tag, m, p.world), 1, p.pc);
    var j := p.sent[0];
    assert rs[j].message.body == ScanOutcome(m.body.event, m.body.flow, m.body.moniker, p.world.work.success, true);
    OutcomesAreHonest(site, states, acts, k);
    if StartedWaiting(rs[j]) && Dotless(m.body.moniker) {
      ResultIsAwaited(site, states, acts, k, j);
    }
  }

  // ---------- pull requests are told ----------

  ghost predicate Told(r: AgentRecord) {
    r.message.body.Notice?
  }

  lemma {:induction false} KeptAllJoins(site: Site, now: int, a: seq<Effect>, b: seq<Effect>)
    ensures KeptAll(site, now, a + b) == KeptAll(site, now, a) + KeptAll(site, now, b)
  {
    if a == [] {
      assert a + b == b;
    } else {
      assert (a + b)[1..] == a[1..] + b;
      KeptAllJoins(site, now, a[1..], b);
      JoinsRegroup(Kept(site, now, a[0]), KeptAll(site, now, a[1..]), KeptAll(site, now, b));
    }
  }

  lemma {:induction false} NoneTold(site: Site, a: Action, now: int, p: seq<Effect>)
    requires Wired(site) && a.Arrive? && EventPlanned(site, a, p)
    requires forall c :: 0 <= c < |p| ==> !Notifies(p[c])
    ensures forall k :: 0 <= k < |KeptAll(site, now, p)| ==> !Told(KeptAll(site, now, p)[k])
  {
    if p != [] {
      NoneTold(site, a, now, p[1..]);
      KeptIs(site, a, now, p[0]);
    }
  }

  /** The event ends with a notice: its scan is awaited, or it was delegated. */
  ghost predicate Announces(site: Site, a: Action)
    requires a.Arrive?
  {
    a.event.flow.PR? && (Delegates(false, site.tags, a.w) ||
      (RunsLocally(false, site.tags, a.w) && ClonesWell(a.w) && !a.w.started.Raised?))
  }

  function NoticeQueue(local: bool): Queue {
    if local then PrAnnotating else PrescanPrAnnotating
  }

  lemma LastKept(site: Site, now: int, x: Effect, moniker: string, local: bool)
    requires Wired(site) && Dotless(moniker) && x.Publish? && x.exchange == ScanIn && x.answer.Confirmed?
    requires x.message.key == MakeTopic(if local then Annotate else Prescan, PR, moniker)
    ensures KeptAll(site, now, [x]) == [Record(x.message, now, [Mark(x.message)], Ready(NoticeQueue(local)))]
  {
    assert WiredIn(site, Annotate, PR, moniker) && WiredIn(site, Prescan, PR, moniker);
    CopiesOne(x.message, now, [Mark(x.message)], NoticeQueue(local));
    assert KeptAll(site, now, [x]) == Kept(site, now, x) + [];
  }

  lemma NoticesKept(site: Site, a: Action, now: int) returns (more: seq<AgentRecord>)
    requires Wired(site) && a.Arrive? && Dotless(a.event.moniker) && a.w.noticed.Confirmed? && Announces(site, a)
    ensures KeptAll(site, now, EventEffects(site, a)) == more && more != []
    ensures forall k :: 0 <= k < |more| - 1 ==> !Told(more[k])
    ensures more[|more| - 1].message.body == Notice(PR, a.event.moniker)
    ensures more[|more| - 1].place == Ready(NoticeQueue(RunsLocally(false, site.tags, a.w)))
  {
    var p, local := EventEffects(site, a), RunsLocally(false, site.tags, a.w);
    EventPlan(site, a);
    NoticesIff(false, site.tags, a.event, a.retries, a.ttl, a.w);
    var front, last := p[..|p| - 1], p[|p| - 1];
    assert Notifies(last) && p == front + [last];
    NoneTold(site, a, now, front);
    LastKept(site, now, last, a.event.moniker, local);
    KeptAllJoins(site, now, front, [last]);
    more := KeptAll(site, now, p);
  }

  /** A pull-request event that is handled to its end, under a name without a dot and with its notice confirmed:
      the last record that it adds is a notice, and no other one is: in the queue of annotations when its scan
      is awaited, and in that of annotations before the scan when it was delegated; any other event leaves none. */
  lemma NoticesArrive(site: Site, s: AgentState, a: Action) returns (more: seq<AgentRecord>)
    requires Wired(site) && a.Arrive? && a.upto == |EventEffects(site, a)|
    requires Dotless(a.event.moniker) && a.w.noticed.Confirmed?
    ensures Apply(site, s, a).records == s.records + more
    ensures forall k :: 0 <= k < |more| - One(Announces(site, a)) ==> !Told(more[k])
    ensures Announces(site, a) ==>
      more != [] && more[|more| - 1].message.body == Notice(PR, a.event.moniker) &&
      more[|more| - 1].place ==
        Ready(if RunsLocally(false, site.tags, a.w) then PrAnnotating else PrescanPrAnnotating)
  {
    var p := EventEffects(site, a);
    assert p[..a.upto] == p;
    AbsorbIs(site, s, p);
    if Announces(site, a) {
      more := NoticesKept(site, a, s.now);
    } else {
      EventPlan(site, a);
      NoticesIff(false, site.tags, a.event, a.retries, a.ttl, a.w);
      NoneTold(site, a, s.now, p);
      more := KeptAll(site, s.now, p);
    }
  }

  // ---------- what an event leaves ----------

  lemma {:induction false} KeptHas(site: Site, now: int, p: seq<Effect>, c: nat, q: Queue)
    requires c < |p| && p[c].Publish? && p[c].answer.Confirmed? && site.route(p[c].exchange, p[c].message.key) == {q}
    ensures exists k ::
      0 <= k < |KeptAll(site, now, p)| &&
      KeptAll(site, now, p)[k] == Record(p[c].message, now, [Mark(p[c].message)], Ready(q))
  {
    var m := p[c].message;
    if c == 0 {
      CopiesOne(m, now, [Mark(m)], q);
      assert KeptAll(site, now, p)[0] == Record(m, now, [Mark(m)], Ready(q));
    } else {
      KeptHas(site, now, p[1..], c - 1, q);
      var k :| 0 <= k < |KeptAll(site, now, p[1..])| &&
        KeptAll(site, now, p[1..])[k] == Record(m, now, [Mark(m)], Ready(q));
      assert KeptAll(site, now, p)[|Kept(site, now, p[0])| + k] == KeptAll(site, now, p[1..])[k];
    }
  }

  lemma {:induction false} RanIs(p: seq<Effect>, event: nat)
    ensures event in ScansOf(p) <==> exists c :: 0 <= c < |p| && p[c] == ExecScan(event)
  {
    if p != [] {
      RanIs(p[1..], event);
      if event in ScansOf(p[1..]) {
        var c :| 0 <= c < |p[1..]| && p[1..][c] == ExecScan(event);
        assert p[c + 1] == ExecScan(event);
      }
      if c :| 0 <= c < |p| && p[c] == ExecScan(event) {
        assert c > 0 ==> p[1..][c - 1] == ExecScan(event);
      }
    }
  }

  /** An event that is handled to its end: a delegated one has its request in the queue of its tag; a local one has
      its scan among those that ran when an attempt submitted it; and when its context was left well, its workflow
      is on, the publish is confirmed and the service name has no dot, it has its await message stored. */
  lemma EventLeaves(site: Site, s: AgentState, a: Action)
    requires Wired(site) && a.Arrive? && a.upto == |EventEffects(site, a)|
    ensures var t := Apply(site, s, a);
      (Delegates(false, site.tags, a.w) ==>
        exists k :: |s.records| <= k < |t.records| &&
          t.records[k].message.body == ScanRequest(a.event.id, a.event.flow, a.event.moniker) &&
          t.records[k].place == Ready(ResolverReq(a.w.tag.value))) &&
      (RunsLocally(false, site.tags, a.w) && Submits(a.w) ==> a.event.id in t.scans) &&
      (RunsLocally(false, site.tags, a.w) && ClonesWell(a.w) && (a.event.flow.PR? || a.w.enabled) &&
        a.w.started.Confirmed? && Dotless(a.event.moniker) ==>
        exists k :: |s.records| <= k < |t.records| &&
          t.records[k].message == AwaitOf(a.event) && t.records[k].place == Ready(AwaitedScans))
  {
    var p, w, n := EventEffects(site, a), a.w, |s.records|;
    assert p[..a.upto] == p;
    AbsorbIs(site, s, p);
    OneRoute(false, site.tags, a.event, a.retries, a.ttl, w);
    if Delegates(false, site.tags, w) {
      var x :| x in p && StoresRequest(x);
      EventSays(false, site.tags, a.event, a.retries, a.ttl, w, x);
      assert WiredFor(site, w.tag.value, a.event.moniker, None);
      EffectLeaves(site, s, a, x, ResolverReq(w.tag.value));
    }
    if RunsLocally(false, site.tags, w) && Submits(w) {
      var x :| x in p && x.ExecScan?;
      EventSays(false, site.tags, a.event, a.retries, a.ttl, w, x);
      RanIs(p, a.event.id);
    }
    if RunsLocally(false, site.tags, w) && ClonesWell(w) && (a.event.flow.PR? || w.enabled) &&
        w.started.Confirmed? && Dotless(a.event.moniker) {
      var x :| x in p && Awaits(x);
      EventSays(false, site.tags, a.event, a.retries, a.ttl, w, x);
      assert WiredIn(site, Await, a.event.flow, a.event.moniker);
      EffectLeaves(site, s, a, x, AwaitedScans);
    }
  }

  lemma EffectLeaves(site: Site, s: AgentState, a: Action, x: Effect, q: Queue)
    requires a.Arrive? && a.upto == |EventEffects(site, a)| && x in EventEffects(site, a)
    requires x.Publish? && x.answer.Confirmed? && site.route(x.exchange, x.message.key) == {q}
    ensures exists k ::
      |s.records| <= k < |Apply(site, s, a).records| &&
      Apply(site, s, a).records[k] == Record(x.message, s.now, [Mark(x.message)], Ready(q))
  {
    var p := EventEffects(site, a);
    assert p[..a.upto] == p;
    AbsorbIs(site, s, p);
    var c :| 0 <= c < |p| && p[c] == x;
    KeptHas(site, s.now, p, c, q);
    var k :| 0 <= k < |KeptAll(site, s.now, p)| &&
      KeptAll(site, s.now, p)[k] == Record(x.message, s.now, [Mark(x.message)], Ready(q));
    assert Apply(site, s, a).records[|s.records| + k] == KeptAll(site, s.now, p)[k];
  }

  // ---------- what is awaited was given ----------

  /** The step gives this await message: an event arrives whose it is, or the result of a scan that ran is
      taken by a handler that will be answered this date, deadline and interval. */
  ghost predicate Gives(s: AgentState, a: Action, m: Message) {
    (a.Arrive? && m == AwaitOf(a.event)) ||
    (a.Take? && a.world.Results? && a.i < |s.records| && s.records[a.i].message.body.ScanOutcome? &&
      s.records[a.i].message.body.scanned && m == AwaitOfResult(s.records[a.i].message.body, a.world))
  }

  /** The await message that the result of a scan gives. */
  function AwaitOfResult(body: Body, w: AgentWorld): Message
    requires body.ScanOutcome? && w.Results?
  {
    Message(AwaitScan(body.event, body.flow, body.moniker, w.now, w.dropBy), AwaitTopic(body.flow, body.moniker),
      Some(w.interval), None, None)
  }

  /** What a handler is answered was settled when it took its delivery. */
  lemma {:induction false} HeldWasTaken(site: Site, states: seq<AgentState>, acts: seq<Action>, k: nat, i: nat)
      returns (a: nat)
    requires Behaviour(site, states, acts) && k < |states|
    requires i < |states[k].records| && states[k].records[i].place.Held?
    ensures a < k && acts[a] == Take(i, states[k].records[i].place.world) && i < |states[a].records|
    ensures states[a].records[i].message == states[k].records[i].message
  {
    assert k > 0;
    var s, act := states[k - 1], acts[k - 1];
    Always(site, states, acts, k - 1);
    StepChanges(site, s, act);
    if act == Take(i, states[k].records[i].place.world) {
      a := k - 1;
    } else {
      HeldStays(site, s, act, i);
      a := HeldWasTaken(site, states, acts, k - 1, i);
    }
  }

  lemma HeldStays(site: Site, s: AgentState, a: Action, i: nat)
    requires Wired(site) && Inv(site, s) && Enabled(site, s, a)
    requires i < |Apply(site, s, a).records| && Apply(site, s, a).records[i].place.Held?
    requires a != Take(i, Apply(site, s, a).records[i].place.world)
    ensures i < |s.records| && s.records[i].place.Held?
    ensures s.records[i].place.world == Apply(site, s, a).records[i].place.world
  {
    StepChanges(site, s, a);
    if i >= |s.records| {
      AddsReady(site, s, a, i);
    } else {
      match a
      case Age(_) => AgeMoves(site, s, a.i);
      case Work(_) => WorkChanges(site, s, a.i);
      case _ =>
    }
  }

  /** Every await message that is stored was given by an event that arrived or by the result of a scan that ran:
      with the scan, workflow, service, date and deadline of that, under their topic, and kept for its interval. */
  lemma {:induction false} AwaitWasGiven(site: Site, states: seq<AgentState>, acts: seq<Action>, k: nat, n: nat)
    requires Behaviour(site, states, acts) && k < |states|
    requires n < |states[k].records| && states[k].records[n].message.body.AwaitScan?
    ensures exists a :: 0 <= a < k && Gives(states[a], acts[a], states[k].records[n].message)
  {
    assert k > 0;
    var s, act := states[k - 1], acts[k - 1];
    Always(site, states, acts, k - 1);
    StepChanges(site, s, act);
    if n < |s.records| {
      assert s.records[n].message == states[k].records[n].message;
      AwaitWasGiven(site, states, acts, k - 1, n);
    } else if act.Arrive? {
      var more, _ := ArriveLeaves(site, s, act);
      assert Born(site, act, s.now, more[n - |s.records|]);
      assert Gives(s, act, states[k].records[n].message);
    } else if act.Work? {
      var a := WorkGives(site, states, acts, k - 1, act.i, n);
    } else {
      assert act.Age?;
      AgeMoves(site, s, act.i);
    }
  }

  lemma WorkGives(site: Site, states: seq<AgentState>, acts: seq<Action>, k: nat, i: nat, n: nat) returns (a: nat)
    requires Behaviour(site, states, acts) && k < |acts| && acts[k] == Work(i)
    requires |states[k].records| <= n < |states[k + 1].records| && states[k + 1].records[n].message.body.AwaitScan?
    ensures a < k && Gives(states[a], acts[a], states[k + 1].records[n].message)
  {
    Always(site, states, acts, k);
    ResultStarted(site, states[k], i, n);
    a := TakenGives(site, states, acts, k, i);
  }

  lemma ResultStarted(site: Site, s: AgentState, i: nat, n: nat)
    requires Wired(site) && Inv(site, s) && Enabled(site, s, Work(i))
    requires |s.records| <= n < |Apply(site, s, Work(i)).records|
    requires Apply(site, s, Work(i)).records[n].message.body.AwaitScan?
    ensures var r := s.records[i];
      r.place.Held? && r.place.world.Results? && r.message.body.ScanOutcome? && r.message.body.scanned &&
      Apply(site, s, Work(i)).records[n].message == AwaitOfResult(r.message.body, r.place.world)
  {
    OnlyResultsStart(site, s, i, n);
    ResultGives(s.records[i].message, s.records[i].place.world, Apply(site, s, Work(i)).records[n].message);
  }

  lemma TakenGives(site: Site, states: seq<AgentState>, acts: seq<Action>, k: nat, i: nat) returns (a: nat)
    requires Behaviour(site, states, acts) && k < |states|
    requires i < |states[k].records| && states[k].records[i].place.Held? && states[k].records[i].place.world.Results?
    requires states[k].records[i].message.body.ScanOutcome? && states[k].records[i].message.body.scanned
    ensures a < k &&
      Gives(states[a], acts[a], AwaitOfResult(states[k].records[i].message.body, states[k].records[i].place.world))
  {
    a := HeldWasTaken(site, states, acts, k, i);
  }

  /** An await message that an effect adds is one of a result. */
  lemma OnlyResultsStart(site: Site, s: AgentState, i: nat, n: nat)
    requires Wired(site) && Inv(site, s) && Enabled(site, s, Work(i))
    requires |s.records| <= n < |Apply(site, s, Work(i)).records|
    requires Apply(site, s, Work(i)).records[n].message.body.AwaitScan?
    ensures s.records[i].message.body.ScanOutcome? && s.records[i].place.world.Results?
    ensures Publishes(ResultsPlan(s.records[i].message, s.records[i].place.world),
      Apply(site, s, Work(i)).records[n].message)
  {
    var r := s.records[i];
    assert Ok(site, s.records, i);
    WorkChanges(site, s, i);
    if Asks(r) && EffectOf(s, i).Publish? {
      HandlerStores(r.place.queue, r.message, r.place.world, r.place.pc);
    } else if EffectOf(s, i).Publish? {
      assert EffectOf(s, i) in ResultsPlan(r.message, r.place.world);
    }
  }

  ghost predicate Publishes(plan: seq<Effect>, m: Message) {
    exists x :: x in plan && x.Publish? && x.message == m
  }

  lemma ResultGives(m: Message, w: AgentWorld, await: Message)
    requires w.Results? && Publishes(ResultsPlan(m, w), await) && await.body.AwaitScan?
    ensures m.body.ScanOutcome? && m.body.scanned
    ensures await == AwaitOfResult(m.body, w)
  {
    var x :| x in ResultsPlan(m, w) && x.Publish? && x.message == await;
    ResultsSay(m, w, x);
    ResultsNeverRescan(m, w);
    assert Awaits(x);
  }
}
