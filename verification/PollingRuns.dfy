/** Runs of the scan polling workflow: any interleaving of started scans, the clock, expiring
    messages, deliveries to any number of agents, single effects of their handlers, and crashes
    between any two effects. */
module PollingRuns {
  import opened Common
  import opened Topics
  import opened Topology
  import opened Routing
  import opened Backoff
  import opened Amqp
  import opened Polling

  datatype Site = Site(route: Route, configs: map<string, PollConfig>)

  type PollState = State<PollWorld>
  type PollRecord = Record<PollWorld>

  /** `Start` is `workflow_start`; `legacy` scans were started by an installation that still
      published to the legacy exchange. */
  datatype Action =
    | Tick(delta: nat)
    | Start(legacy: bool, body: Body, ttl: int)
    | Age(i: nat)
    | Take(i: nat, world: PollWorld)
    | Work(i: nat)
    | Fail(i: nat)

  predicate PollingQueue(q: Queue) {
    q == PollingScans || q == PollingScansLegacy
  }

  function PlanOf(site: Site, m: Message, clock: int, w: PollWorld): seq<Effect> {
    PollPlan(site.configs, m, clock, w)
  }

  ghost predicate Enabled(site: Site, s: PollState, a: Action) {
    match a
    case Tick(_) => true
    case Start(legacy, body, ttl) => body.AwaitScan? && body.timestamp <= s.now && (legacy ==> body.flow.PR?)
    case Age(i) => Expirable(s, i)
    case Take(i, _) => i < |s.records| && s.records[i].place.Ready? && PollingQueue(s.records[i].place.queue)
    case Work(i) =>
      i < |s.records| && s.records[i].place.Held? &&
      var r := s.records[i];
      r.place.pc < |PlanOf(site, r.message, r.place.clock, r.place.world)|
    case Fail(i) => i < |s.records| && s.records[i].place.Held?
  }

  ghost function Apply(site: Site, s: PollState, a: Action): PollState
    requires Enabled(site, s, a)
  {
    match a
    case Tick(delta) => s.(now := s.now + delta)
    case Start(legacy, body, ttl) =>
      Put(site.route, s, if legacy then ScanInLegacy else ScanIn, AwaitMessage(body, ttl), [ttl])
    case Age(i) => Expire(site.route, s, i)
    case Take(i, w) => Deliver(s, i, w)
    case Work(i) =>
      var r := s.records[i];
      Perform(site.route, s, i, PlanOf(site, r.message, r.place.clock, r.place.world)[r.place.pc])
    case Fail(i) => Crash(s, i)
  }

  ghost predicate Behaviour(site: Site, states: seq<PollState>, acts: seq<Action>) {
    (exists tags :: site.route == StandardRoute(tags)) &&
    |states| == |acts| + 1 && states[0].records == [] &&
    forall k :: 0 <= k < |acts| ==>
      Enabled(site, states[k], acts[k]) && states[k + 1] == Apply(site, states[k], acts[k])
  }

  // ---------- what the topology promises the protocol ----------

  ghost predicate Wired(route: Route) {
    forall s: ScanState, w: Workflow, moniker: string :: WiredFor(route, s, w, moniker)
  }

  ghost predicate WiredFor(route: Route, s: ScanState, w: Workflow, moniker: string) {
    var fits := Dotless(moniker);
    route(ScanIn, MakeTopic(s, w, moniker)) == (if fits &&
      Destination(s, w).Some? then {Destination(s, w).value} else {}) &&
    route(ScanInLegacy, AwaitTopic(PR, moniker)) == (if fits then {AwaitedScansLegacy} else {}) &&
    (fits ==> route(ScanPolling, AwaitTopic(w, moniker)) == {PollingScans}) &&
    (fits ==> route(ScanPollingLegacy, AwaitTopic(PR, moniker)) == {PollingScansLegacy})
  }

  lemma StandardIsWired(tags: set<string>)
    ensures Wired(StandardRoute(tags))
  {
    forall s: ScanState, w: Workflow, moniker: string
      ensures WiredFor(StandardRoute(tags), s, w, moniker)
    {
      WiredOne(tags, s, w, moniker);
    }
  }

  lemma WiredOne(tags: set<string>, s: ScanState, w: Workflow, moniker: string)
    ensures WiredFor(StandardRoute(tags), s, w, moniker)
  {
    StandardIsConfigured(tags);
    ScanInReaches(Standard(tags), tags, s, w, moniker);
    LegacyInReaches(tags, moniker);
    if Dotless(moniker) {
      PollingReaches(Standard(tags), tags, w, moniker);
      LegacyReaches(Standard(tags), tags, moniker);
    }
  }

  lemma LegacyInReaches(tags: set<string>, moniker: string)
    ensures Reached(Standard(tags), ScanInLegacy, AwaitTopic(PR,
      moniker)) == if Dotless(moniker) then {AwaitedScansLegacy} else {}
  {
    forall q
      ensures Gets(tags, ScanInLegacy, AwaitTopic(PR, moniker), q) <==> Dotless(moniker) && q == AwaitedScansLegacy {
      LegacyGets(tags, moniker, q);
    }
    StandardIsConfigured(tags);
    ReachedOnly(Standard(tags), tags, ScanInLegacy, AwaitTopic(PR, moniker),
      if Dotless(moniker) then Some(AwaitedScansLegacy) else None);
  }

  // ---------- the invariant ----------

  /** The waits of a token's messages: each the backoff of the last, and all but the last over before drop_by. */
  ghost predicate Waits(site: Site, body: Body, ttls: seq<int>)
    requires body.AwaitScan?
  {
    |ttls| >= 1 &&
    (if body.moniker in site.configs
     then Backed(ttls, site.configs[body.moniker].multiplier, site.configs[body.moniker].cap)
     else |ttls| == 1) &&
    (|ttls| >= 2 ==> body.timestamp + Sum(ttls[..|ttls| - 1]) < body.dropBy)
  }

  ghost predicate Legacy(r: PollRecord)
    requires r.message.body.AwaitScan?
  {
    |r.lineage| == 1 && r.message.body.flow.PR?
  }

  /** Waiting for its time to live in an awaited queue. */
  ghost predicate Soaking(r: PollRecord, q: Queue)
    requires r.message.body.AwaitScan? && |r.lineage| >= 1
  {
    (q == AwaitedScans || (q == AwaitedScansLegacy && Legacy(r))) &&
    r.message.ttl == Some(r.lineage[|r.lineage| - 1]) && r.message.death == None &&
    r.at >= r.message.body.timestamp + Sum(r.lineage[..|r.lineage| - 1])
  }

  /** Dead-lettered to a polling queue after all of its waits. */
  ghost predicate Soaked(r: PollRecord, q: Queue)
    requires r.message.body.AwaitScan? && |r.lineage| >= 1
  {
    (q == PollingScans || (q == PollingScansLegacy && Legacy(r))) &&
    r.message.ttl == None && r.message.death == Some(Death(Expired, Some(r.lineage[|r.lineage| - 1]))) &&
    r.at >= r.message.body.timestamp + Sum(r.lineage)
  }

  /** Record j carries on the token of record i. */
  ghost predicate Continued(rs: seq<PollRecord>, i: nat, j: nat) {
    i < j < |rs| && rs[j].message.body == rs[i].message.body && rs[j].message.key == rs[i].message.key
  }

  ghost predicate Placed(site: Site, rs: seq<PollRecord>, i: nat)
    requires i < |rs| && rs[i].message.body.AwaitScan? && |rs[i].lineage| >= 1
  {
    var r := rs[i];
    match r.place
    case Ready(q) => Soaking(r, q) || Soaked(r, q)
    case Held(q, w, clock, pc, sent) =>
      Soaked(r, q) && r.at <= clock && Followed(PlanOf(site, r.message, clock, w), rs, i, pc, sent)
    case DeadLettered(to, _, _) => |to| == 1 && Continued(rs, i, to[0]) && rs[to[0]].lineage == r.lineage
    case Settled(how, q, w, clock, pc, sent) =>
      Soaked(r, q) && r.at <= clock && Followed(PlanOf(site, r.message, clock, w), rs, i, pc, sent) &&
      pc < |PlanOf(site, r.message, clock, w)| && PlanOf(site, r.message, clock, w)[pc] == how && (how.Ack? ||
        how.Reject?)
  }

  ghost predicate Ok(site: Site, rs: seq<PollRecord>, i: nat, now: int)
    requires i < |rs|
  {
    var r := rs[i];
    r.at <= now &&
    match r.message.body
    case AwaitScan(_, flow, moniker, _, _) =>
      Dotless(moniker) && r.message.key == AwaitTopic(flow, moniker) && r.message.retries == None &&
      Waits(site, r.message.body, r.lineage) && Placed(site, rs, i)
    case ScanReport(_, flow, _, error) => r.place == Ready(ReportQueue(flow, error))
    case _ => false
  }

  ghost predicate Inv(site: Site, s: PollState) {
    forall i :: 0 <= i < |s.records| ==> Ok(site, s.records, i, s.now)
  }

  lemma OkStays(site: Site, before: seq<PollRecord>, after: seq<PollRecord>, i: nat, now: int, later: int)
    requires i < |before| && Ok(site, before, i, now) && now <= later
    requires Grown(before, after) && after[i] == before[i]
    ensures Ok(site, after, i, later)
  {
    var r := before[i];
    if r.message.body.AwaitScan? {
      match r.place
      case Ready(_) =>
      case Held(q, w, clock, pc, sent) =>
        FollowedGrows(PlanOf(site, r.message, clock, w), before, after, i, pc, sent);
      case DeadLettered(to, _, _) => assert after[to[0]].message == before[to[0]].message;
      case Settled(how, q, w, clock, pc, sent) =>
        FollowedGrows(PlanOf(site, r.message, clock, w), before, after, i, pc, sent);
    }
  }

  /** One record changes place and at most one is added: the others stay as they are. */
  lemma InvByParts(site: Site, s: PollState, t: PollState, i: nat)
    requires Wired(site.route) && Inv(site, s) && i < |s.records| && s.now <= t.now
    requires Grown(s.records, t.records)
    requires forall k :: 0 <= k < |s.records| && k != i ==> t.records[k] == s.records[k]
    requires Ok(site, t.records, i, t.now)
    requires forall k :: |s.records| <= k < |t.records| ==> Ok(site, t.records, k, t.now)
    ensures Inv(site, t)
  {
    forall k | 0 <= k < |t.records| ensures Ok(site, t.records, k, t.now) {
      if k < |s.records| && k != i {
        OkStays(site, s.records, t.records, k, s.now, t.now);
      }
    }
  }

  lemma TickKeeps(site: Site, s: PollState, delta: nat)
    requires Wired(site.route) && Inv(site, s)
    ensures Inv(site, s.(now := s.now + delta))
  {
    var t := s.(now := s.now + delta);
    forall k | 0 <= k < |t.records| ensures Ok(site, t.records, k, t.now) {
      OkStays(site, s.records, t.records, k, s.now, t.now);
    }
  }

  lemma StartKeeps(site: Site, s: PollState, legacy: bool, body: Body, ttl: int)
    requires Wired(site.route) && Inv(site, s) && Enabled(site, s, Start(legacy, body, ttl))
    ensures Inv(site, Apply(site, s, Start(legacy, body, ttl)))
  {
    var m := AwaitMessage(body, ttl);
    var e := if legacy then ScanInLegacy else ScanIn;
    var t := Apply(site, s, Start(legacy, body, ttl));
    assert WiredFor(site.route, Await, body.flow, body.moniker);
    if Dotless(body.moniker) {
      PutOne(site.route, s, e, m, [ttl], if legacy then AwaitedScansLegacy else AwaitedScans);
      assert [ttl][..0] == [];
      assert Ok(site, t.records, |s.records|, t.now);
      forall k | 0 <= k < |s.records| ensures Ok(site, t.records, k, t.now) {
        OkStays(site, s.records, t.records, k, s.now, t.now);
      }
    } else {
      PutNone(site.route, s, e, m, [ttl]);
    }
  }

  function PollingSide(q: Queue): Queue {
    if q == AwaitedScans then PollingScans else PollingScansLegacy
  }

  /** An expired await message moves to the one polling queue on its side. */
  lemma AgeMoves(site: Site, s: PollState, i: nat)
    requires Wired(site.route) && Inv(site, s) && Expirable(s, i)
    ensures s.records[i].message.body.AwaitScan? && |s.records[i].lineage| >= 1 &&
      Soaking(s.records[i], s.records[i].place.queue)
    ensures Expire(site.route, s, i).records == s.records[i := s.records[i].(place := DeadLettered([|s.records|],
      Expired, []))] +
      [Record(Dead(s.records[i].message, Expired), s.now, s.records[i].lineage,
        Ready(PollingSide(s.records[i].place.queue)))]
    ensures Expire(site.route, s, i).now == s.now
  {
    var r := s.records[i];
    assert Ok(site, s.records, i, s.now);
    var q := r.place.queue;
    assert !Soaked(r, q) || DeadLettersOf(q).None?;
    assert WiredFor(site.route, Await, r.message.body.flow, r.message.body.moniker);
    PutOne(site.route, s, DeadLettersOf(q).value, Dead(r.message, Expired), r.lineage, PollingSide(q));
    assert Ids(|s.records|, |s.records| + 1) == [|s.records|];
  }

  lemma AgeKeeps(site: Site, s: PollState, i: nat)
    requires Wired(site.route) && Inv(site, s) && Expirable(s, i)
    ensures Inv(site, Expire(site.route, s, i))
  {
    AgeMoves(site, s, i);
    AgeFits(site, s, Expire(site.route, s, i), i);
  }

  lemma AgeFits(site: Site, s: PollState, t: PollState, i: nat)
    requires Wired(site.route) && Inv(site, s) && Expirable(s, i)
    requires s.records[i].message.body.AwaitScan? && |s.records[i].lineage| >= 1 &&
      Soaking(s.records[i], s.records[i].place.queue)
    requires t.now == s.now
    requires t.records == s.records[i := s.records[i].(place := DeadLettered([|s.records|], Expired, []))] +
      [Record(Dead(s.records[i].message, Expired), s.now, s.records[i].lineage,
        Ready(PollingSide(s.records[i].place.queue)))]
    ensures Inv(site, t)
  {
    var r, n := s.records[i], |s.records|;
    assert Ok(site, s.records, i, s.now);
    SoaksThrough(site, r, t.records[n]);
    assert Continued(t.records, i, n);
    assert Ok(site, t.records, i, t.now);
    assert Ok(site, t.records, n, t.now);
    InvByParts(site, s, t, i);
  }

  lemma SoaksThrough(site: Site, r: PollRecord, d: PollRecord)
    requires r.message.body.AwaitScan? && r.place.Ready? && |r.lineage| >= 1 && Soaking(r, r.place.queue)
    requires d.message == Dead(r.message, Expired) && d.lineage == r.lineage
    requires r.message.ttl.Some? && d.at >= r.at + r.message.ttl.value
    ensures Soaked(d, PollingSide(r.place.queue))
  {
    SumMore(r.lineage[..|r.lineage| - 1], r.lineage[|r.lineage| - 1]);
    assert r.lineage[..|r.lineage| - 1] + [r.lineage[|r.lineage| - 1]] == r.lineage;
  }

  lemma TakeKeeps(site: Site, s: PollState, i: nat, w: PollWorld)
    requires Wired(site.route) && Inv(site, s) && Enabled(site, s, Take(i, w))
    ensures Inv(site, Deliver(s, i, w))
  {
    assert Ok(site, s.records, i, s.now);
    var t := Deliver(s, i, w);
    assert Followed(PlanOf(site, s.records[i].message, s.now, w), t.records, i, 0, []);
    InvByParts(site, s, t, i);
  }

  lemma FailKeeps(site: Site, s: PollState, i: nat)
    requires Wired(site.route) && Inv(site, s) && Enabled(site, s, Fail(i))
    ensures Inv(site, Crash(s, i))
  {
    assert Ok(site, s.records, i, s.now);
    InvByParts(site, s, Crash(s, i), i);
  }

  lemma WorkKeeps(site: Site, s: PollState, i: nat)
    requires Wired(site.route) && Inv(site, s) && Enabled(site, s, Work(i))
    ensures Inv(site, Apply(site, s, Work(i)))
  {
    var r := s.records[i];
    var p := r.place;
    assert Ok(site, s.records, i, s.now);
    assert r.message.body.AwaitScan?;
    var plan := PlanOf(site, r.message, p.clock, p.world);
    var x := plan[p.pc];
    var t := Apply(site, s, Work(i));
    NoScans(site, r.message, p.clock, p.world, p.pc);
    match x
    case Publish(e, m, answer) =>
      if answer.Confirmed? {
        WorkStores(site, s, i);
      } else {
        assert t.records[i].place == Held(p.queue, p.world, p.clock, p.pc + 1, p.sent + []);
        FollowedGrows(plan, s.records, t.records, i, p.pc, p.sent);
        FollowedMore(plan, t.records, i, p.pc, p.sent, []);
        InvByParts(site, s, t, i);
      }
    case Requeue => InvByParts(site, s, t, i);
    case Ack => WorkSettles(site, s, t, i);
    case Reject => WorkSettles(site, s, t, i);
    case ExecScan(_) =>
  }

  lemma WorkSettles(site: Site, s: PollState, t: PollState, i: nat)
    requires Wired(site.route) && Inv(site, s) && Enabled(site, s, Work(i)) && t == Apply(site, s, Work(i))
    requires var r := s.records[i]; var x := PlanOf(site, r.message, r.place.clock,
      r.place.world)[r.place.pc]; x.Ack? || x.Reject?
    ensures Inv(site, t)
  {
    var r := s.records[i];
    var p := r.place;
    assert Ok(site, s.records, i, s.now);
    var plan := PlanOf(site, r.message, p.clock, p.world);
    assert DeadLettersOf(p.queue) == None;
    assert t.records[i].place == Settled(plan[p.pc], p.queue, p.world, p.clock, p.pc, p.sent);
    FollowedGrows(plan, s.records, t.records, i, p.pc, p.sent);
    InvByParts(site, s, t, i);
  }

  lemma NoScans(site: Site, m: Message, clock: int, w: PollWorld, pc: nat)
    requires pc < |PlanOf(site, m, clock, w)|
    ensures !PlanOf(site, m, clock, w)[pc].ExecScan?
  {
  }

  ghost predicate Storing(site: Site, s: PollState, i: nat) {
    Enabled(site, s, Work(i)) &&
    var r := s.records[i];
    var x := PlanOf(site, r.message, r.place.clock, r.place.world)[r.place.pc];
    x.Publish? && x.answer.Confirmed?
  }

  ghost function StoredNow(site: Site, s: PollState, i: nat): Message
    requires Storing(site, s, i)
  {
    var r := s.records[i];
    PlanOf(site, r.message, r.place.clock, r.place.world)[r.place.pc].message
  }

  function StoreQueue(m: Message): Queue {
    if m.body.ScanReport? then ReportQueue(m.body.flow, m.body.error) else AwaitedScans
  }

  /** A confirmed publish of a poll adds one record: a report where reports of its kind are
      consumed, or a successor in the current awaited queue. */
  lemma WorkMoves(site: Site, s: PollState, i: nat)
    requires Wired(site.route) && Inv(site, s) && Storing(site, s, i)
    ensures var r, m := s.records[i], StoredNow(site, s, i);
      var t := Apply(site, s, Work(i));
      t.now == s.now && t.records ==
        s.records[i := r.(place := Held(r.place.queue, r.place.world, r.place.clock, r.place.pc + 1,
          r.place.sent + [|s.records|]))] +
        [Record(m, s.now, r.lineage + [Mark(m)], Ready(StoreQueue(m)))]
  {
    var r, m := s.records[i], StoredNow(site, s, i);
    assert Ok(site, s.records, i, s.now);
    PollStores(site.configs, r.message, r.place.clock, r.place.world, r.place.pc);
    var body := r.message.body;
    assert WiredFor(site.route, Await, body.flow, body.moniker);
    if m.body.ScanReport? {
      assert WiredFor(site.route, ReportState(body.flow, m.body.error), body.flow, body.moniker);
    }
    PutOne(site.route, s, ScanIn, m, r.lineage + [Mark(m)], StoreQueue(m));
    assert Ids(|s.records|, |s.records| + 1) == [|s.records|];
  }

  lemma WorkStores(site: Site, s: PollState, i: nat)
    requires Wired(site.route) && Inv(site, s) && Storing(site, s, i)
    ensures Inv(site, Apply(site, s, Work(i)))
  {
    WorkMoves(site, s, i);
    WorkFits(site, s, Apply(site, s, Work(i)), i);
  }

  lemma WorkFits(site: Site, s: PollState, t: PollState, i: nat)
    requires Wired(site.route) && Inv(site, s) && Storing(site, s, i)
    requires var r, m := s.records[i], StoredNow(site, s, i);
      t.now == s.now && t.records ==
        s.records[i := r.(place := Held(r.place.queue, r.place.world, r.place.clock, r.place.pc + 1,
          r.place.sent + [|s.records|]))] +
        [Record(m, s.now, r.lineage + [Mark(m)], Ready(StoreQueue(m)))]
    ensures Inv(site, t)
  {
    var r := s.records[i];
    assert Ok(site, s.records, i, s.now);
    SenderFits(site, s, t, i);
    StoredFits(site, r, StoredNow(site, s, i), r.place.clock, r.place.world, r.place.pc, t, |s.records|);
    InvByParts(site, s, t, i);
  }

  lemma SenderFits(site: Site, s: PollState, t: PollState, i: nat)
    requires Inv(site, s) && Storing(site, s, i) && t.now == s.now
    requires var r, m, n := s.records[i], StoredNow(site, s, i), |s.records|;
      |t.records| == n + 1 && Grown(s.records, t.records) &&
      t.records[i] == r.(place := Held(r.place.queue, r.place.world, r.place.clock, r.place.pc + 1,
        r.place.sent + [n])) &&
      t.records[n].message == m && t.records[n].lineage == r.lineage + [Mark(m)]
    ensures Ok(site, t.records, i, t.now)
  {
    var r := s.records[i];
    var p := r.place;
    assert Ok(site, s.records, i, s.now);
    var plan := PlanOf(site, r.message, p.clock, p.world);
    FollowedGrows(plan, s.records, t.records, i, p.pc, p.sent);
    FollowedMore(plan, t.records, i, p.pc, p.sent, [|s.records|]);
  }

  lemma StoredFits(site: Site, r: PollRecord, m: Message, clock: int, w: PollWorld, pc: nat, t: PollState, n: nat)
    requires r.message.body.AwaitScan? && Waits(site, r.message.body, r.lineage)
    requires r.place.Held? && Soaked(r, r.place.queue) && r.at <= clock && r.at <= t.now &&
      Dotless(r.message.body.moniker)
    requires r.message.key == AwaitTopic(r.message.body.flow, r.message.body.moniker)
    requires pc < |PlanOf(site, r.message, clock, w)| && PlanOf(site, r.message, clock, w)[pc].Publish?
    requires m == PlanOf(site, r.message, clock, w)[pc].message
    requires n < |t.records| && t.records[n] == Record(m, t.now, r.lineage + [Mark(m)], Ready(StoreQueue(m)))
    ensures Ok(site, t.records, n, t.now)
  {
    PollStores(site.configs, r.message, clock, w, pc);
    if !m.body.ScanReport? {
      var c := site.configs[r.message.body.moniker];
      BackedMore(r.lineage, c.multiplier, c.cap);
      assert (r.lineage + [Mark(m)])[..|r.lineage|] == r.lineage;
      assert Soaking(t.records[n], AwaitedScans);
    }
  }

  lemma StepKeeps(site: Site, s: PollState, a: Action)
    requires Wired(site.route) && Inv(site, s) && Enabled(site, s, a)
    ensures Inv(site, Apply(site, s, a))
  {
    match a
    case Tick(delta) => TickKeeps(site, s, delta);
    case Start(legacy, body, ttl) => StartKeeps(site, s, legacy, body, ttl);
    case Age(i) => AgeKeeps(site, s, i);
    case Take(i, w) => TakeKeeps(site, s, i, w);
    case Work(i) => WorkKeeps(site, s, i);
    case Fail(i) => FailKeeps(site, s, i);
  }

  lemma {:induction false} Always(site: Site, states: seq<PollState>, acts: seq<Action>, k: nat)
    requires Behaviour(site, states, acts) && k < |states|
    ensures Wired(site.route) && Inv(site, states[k])
  {
    var tags :| site.route == StandardRoute(tags);
    StandardIsWired(tags);
    if k > 0 {
      Always(site, states, acts, k - 1);
      StepKeeps(site, states[k - 1], acts[k - 1]);
    }
  }
}
