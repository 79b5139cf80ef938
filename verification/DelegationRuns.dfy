/** Runs of delegated scanning: events that delegate or scan and start the await workflow, requests that
    wait in the queue of their tag until an agent takes them or they expire, agents, timeout handlers and
    handlers of results whose single effects interleave, and crashes.  The await messages and notices
    that are started are stored and stay: what becomes of them are the runs of polling. */
module DelegationRuns {
  import opened Common
  import opened Topics
  import opened Topology
  import opened Routing
  import opened Amqp
  import opened Delegation
  import opened Orchestration

  datatype Site = Site(route: Route, tags: set<string>)

  type AgentState = State<AgentWorld>
  type AgentRecord = Record<AgentWorld>

  /** `upto`: how much of an event's plan happens before its process ends or dies. */
  datatype Action =
    | Tick(delta: nat)
    | Arrive(event: Event, retries: int, ttl: int, w: EventWorld, upto: nat)
    | Age(i: nat)
    | Take(i: nat, world: AgentWorld)
    | Work(i: nat)
    | Fail(i: nat)

  function EventEffects(site: Site, a: Action): seq<Effect>
    requires a.Arrive?
  {
    ExecutePlan(false, site.tags, a.event, a.retries, a.ttl, a.w)
  }

  function PlanOf(q: Queue, m: Message, w: AgentWorld): seq<Effect> {
    if q.ResolverReq? && w.Runner? then RunnerPlan(q.tag, m, w)
    else if q.ResolverTimeout? && w.Timeout? then TimeoutPlan(m, w)
    else if q.FinishedResolverScans? && w.Results? then ResultsPlan(m, w)
    else []
  }

  predicate Consumes(q: Queue, w: AgentWorld) {
    (q.ResolverReq? && w.Runner?) || (q.ResolverTimeout? && w.Timeout?) || (q.FinishedResolverScans? && w.Results?)
  }

  ghost predicate Enabled(site: Site, s: AgentState, a: Action) {
    match a
    case Tick(_) => true
    case Arrive(_, _, _, _, upto) => upto <= |EventEffects(site, a)|
    case Age(i) => Expirable(s, i) && s.records[i].place.queue.ResolverReq?
    case Take(i, w) => i < |s.records| && s.records[i].place.Ready? && Consumes(s.records[i].place.queue, w)
    case Work(i) =>
      i < |s.records| && s.records[i].place.Held? &&
      s.records[i].place.pc < |PlanOf(s.records[i].place.queue, s.records[i].message, s.records[i].place.world)|
    case Fail(i) => i < |s.records| && s.records[i].place.Held?
  }

  /** What an event's effects leave in the queues and among the scans. */
  ghost function Absorb(site: Site, s: AgentState, effects: seq<Effect>): AgentState
    decreases |effects|
  {
    if effects == [] then s
    else
      var x := effects[0];
      var t := if x.Publish? && x.answer.Confirmed? then Put(site.route, s, x.exchange, x.message, [Mark(x.message)])
               else if x.ExecScan? then s.(scans := s.scans + [x.event])
               else s;
      Absorb(site, t, effects[1..])
  }

  ghost function EffectOf(s: AgentState, i: nat): Effect
    requires i < |s.records| && s.records[i].place.Held?
    requires s.records[i].place.pc < |PlanOf(s.records[i].place.queue, s.records[i].message, s.records[i].place.world)|
  {
    PlanOf(s.records[i].place.queue, s.records[i].message, s.records[i].place.world)[s.records[i].place.pc]
  }

  ghost function Apply(site: Site, s: AgentState, a: Action): AgentState
    requires Enabled(site, s, a)
  {
    match a
    case Tick(delta) => s.(now := s.now + delta)
    case Arrive(_, _, _, _, upto) => Absorb(site, s, EventEffects(site, a)[..upto])
    case Age(i) => Expire(site.route, s, i)
    case Take(i, w) => Deliver(s, i, w)
    case Work(i) => Perform(site.route, s, i, EffectOf(s, i))
    case Fail(i) => Crash(s, i)
  }

  ghost predicate Behaviour(site: Site, states: seq<AgentState>, acts: seq<Action>) {
    site.route == StandardRoute(site.tags) && (forall t :: t in site.tags ==> ValidTag(t)) &&
    |states| == |acts| + 1 && states[0].records == [] && states[0].scans == [] &&
    forall k :: 0 <= k < |acts| ==>
      Enabled(site, states[k], acts[k]) && states[k + 1] == Apply(site, states[k], acts[k])
  }

  // ---------- what the topology promises ----------

  ghost predicate Wired(site: Site) {
    (forall tag, moniker, suffix :: tag in site.tags ==> WiredFor(site, tag, moniker, suffix)) &&
    forall state, flow, moniker :: WiredIn(site, state, flow, moniker)
  }

  ghost predicate WiredFor(site: Site, tag: string, moniker: string, suffix: Option<string>) {
    site.route(ResolverScan, MakeTopicForTag(tag, moniker)) == {ResolverReq(tag)} &&
    site.route(ResolverScan, ResultTopic(suffix)) == {FinishedResolverScans} &&
    site.route(ResolverDlx, MakeTopicForTag(tag, moniker)) == {ResolverTimeout}
  }

  ghost predicate WiredIn(site: Site, state: ScanState, flow: Workflow, moniker: string) {
    site.route(ScanIn, MakeTopic(state, flow, moniker)) ==
      if Dotless(moniker) && Destination(state, flow).Some? then {Destination(state, flow).value} else {}
  }

  lemma StandardIsWired(site: Site)
    requires site.route == StandardRoute(site.tags) && forall t :: t in site.tags ==> ValidTag(t)
    ensures Wired(site)
  {
    StandardIsConfigured(site.tags);
    forall tag, moniker, suffix | tag in site.tags ensures WiredFor(site, tag, moniker, suffix) {
      TagIsolation(Standard(site.tags), site.tags, tag, moniker, suffix);
    }
    forall state, flow, moniker ensures WiredIn(site, state, flow, moniker) {
      ScanInReaches(Standard(site.tags), site.tags, state, flow, moniker);
    }
  }

  /** A result topic with a tag is never the one without. */
  lemma SuffixesDiffer(tag: string)
    ensures ResultTopic(Some(tag)) != ResultTopic(None)
  {
    ResultTopicWords(Some(tag));
    ResultTopicWords(None);
    assert |CompleteWords(Some(tag))| > |CompleteWords(None)|;
  }

  // ---------- the invariant ----------

  /** Retry headers of a request's submissions: each one less, never negative, none zero but a first. */
  ghost predicate Countdown(headers: seq<int>) {
    |headers| >= 1 && headers[0] >= 0 &&
    (forall k :: 0 <= k < |headers| ==> headers[k] == headers[0] - k) &&
    (|headers| >= 2 ==> headers[|headers| - 1] >= 1)
  }

  ghost predicate Keyed(site: Site, m: Message, tag: string)
    requires m.body.ScanRequest?
  {
    tag in site.tags && m.key == MakeTopicForTag(tag, m.body.moniker)
  }

  ghost predicate Waiting(site: Site, m: Message, q: Queue)
    requires m.body.ScanRequest?
  {
    q.ResolverReq? && Keyed(site, m, q.tag) && m.death.None? && m.ttl.Some?
  }

  ghost predicate Back(site: Site, m: Message, q: Queue)
    requires m.body.ScanRequest?
  {
    q.ResolverTimeout? && m.death.Some? && m.ttl.None? && exists tag :: Keyed(site, m, tag)
  }

  ghost predicate At(site: Site, m: Message, q: Queue)
    requires m.body.ScanRequest?
  {
    Waiting(site, m, q) || Back(site, m, q)
  }

  ghost predicate Answers(rs: seq<AgentRecord>, i: nat, j: nat)
    requires i < |rs| && rs[i].message.body.ScanRequest?
  {
    i < j < |rs| && rs[j].message.body.ScanOutcome? && rs[j].message.body.event == rs[i].message.body.event
  }

  ghost predicate Placed(site: Site, rs: seq<AgentRecord>, i: nat)
    requires i < |rs| && rs[i].message.body.ScanRequest?
  {
    var m := rs[i].message;
    match rs[i].place
    case Ready(q) => At(site, m, q)
    case Held(q, w, clock, pc, sent) =>
      At(site, m, q) && Consumes(q, w) && Followed(PlanOf(q, m, w), rs, i, pc, sent)
    case DeadLettered(to, reason, after) =>
      |to| == 1 && i < to[0] < |rs| && rs[to[0]].message == Dead(m, reason) && rs[to[0]].lineage == rs[i].lineage &&
      (reason.Expired? ==> after == []) && forall k :: 0 <= k < |after| ==> Answers(rs, i, after[k])
    case Settled(how, q, w, clock, pc, sent) =>
      At(site, m, q) && Consumes(q, w) && Followed(PlanOf(q, m, w), rs, i, pc, sent) &&
      pc < |PlanOf(q, m, w)| && PlanOf(q, m, w)[pc] == how && (how.Ack? || (how.Reject? && q.ResolverTimeout?))
  }

  /** An outcome waits for its handler, is in its hands, or was settled by it. */
  ghost predicate Resulting(r: AgentRecord)
    requires r.message.body.ScanOutcome?
  {
    match r.place
    case Ready(q) => q == FinishedResolverScans
    case Held(q, w, clock, pc, sent) =>
      q == FinishedResolverScans && w.Results? && pc <= |ResultsPlan(r.message, w)| &&
        Unsettled(ResultsPlan(r.message, w)[..pc])
    case Settled(how, q, w, clock, pc, sent) =>
      q == FinishedResolverScans && w.Results? && pc < |ResultsPlan(r.message, w)| &&
        ResultsPlan(r.message, w)[pc] == how && how.Settles() &&
      Unsettled(ResultsPlan(r.message, w)[..pc])
    case DeadLettered(_, _, _) => false
  }

  /** Under a name without a dot, all that its handler has stored is there. */
  ghost predicate Launched(rs: seq<AgentRecord>, i: nat)
    requires i < |rs| && rs[i].message.body.ScanOutcome?
  {
    Dotless(rs[i].message.body.moniker) ==>
    match rs[i].place
    case Held(_, w, _, pc, sent) => w.Results? && Followed(ResultsPlan(rs[i].message, w), rs, i, pc, sent)
    case Settled(_, _, w, _, pc, sent) => w.Results? && Followed(ResultsPlan(rs[i].message, w), rs, i, pc, sent)
    case _ => true
  }

  ghost predicate Ok(site: Site, rs: seq<AgentRecord>, i: nat)
    requires i < |rs|
  {
    var r := rs[i];
    match r.message.body
    case ScanRequest(_, _, _) =>
      Countdown(r.lineage) && r.message.retries == Some(r.lineage[|r.lineage| - 1]) && Placed(site, rs, i)
    case ScanOutcome(_, _, _, _, _) =>
      Resulting(r) && Launched(rs, i) && |r.lineage| >= 2 && Countdown(r.lineage[..|r.lineage| - 1]) &&
      (r.message.key == ResultTopic(None) ==> |r.lineage| - 1 == Max(1, r.lineage[0]))
    case AwaitScan(_, _, _, _, _) => r.place == Ready(AwaitedScans)
    case Notice(_, _) => r.place == Ready(PrAnnotating) || r.place == Ready(PrescanPrAnnotating)
    case _ => false
  }

  ghost predicate Inv(site: Site, s: AgentState) {
    forall i :: 0 <= i < |s.records| ==> Ok(site, s.records, i)
  }

  lemma OkStays(site: Site, before: seq<AgentRecord>, after: seq<AgentRecord>, i: nat)
    requires i < |before| && Ok(site, before, i) && Grown(before, after) && after[i] == before[i]
    ensures Ok(site, after, i)
  {
    var r := before[i];
    if r.message.body.ScanRequest? {
      match r.place
      case Ready(_) =>
      case Held(q, w, clock, pc, sent) => FollowedGrows(PlanOf(q, r.message, w), before, after, i, pc, sent);
      case DeadLettered(to, _, later) =>
        assert after[to[0]].message == before[to[0]].message;
        forall k | 0 <= k < |later| ensures Answers(after, i, later[k]) {
          assert after[later[k]].message == before[later[k]].message;
        }
      case Settled(how, q, w, clock, pc, sent) => FollowedGrows(PlanOf(q, r.message, w), before, after, i, pc, sent);
    } else if r.message.body.ScanOutcome? {
      LaunchedStays(before, after, i);
    }
  }

  lemma LaunchedStays(before: seq<AgentRecord>, after: seq<AgentRecord>, i: nat)
    requires i < |before| && before[i].message.body.ScanOutcome? && Launched(before, i) && Grown(before, after)
    requires after[i] == before[i]
    ensures Launched(after, i)
  {
    if Dotless(before[i].message.body.moniker) {
      match before[i].place
      case Held(_, w, _, pc, sent) => FollowedGrows(ResultsPlan(before[i].message, w), before, after, i, pc, sent);
      case Settled(_, _, w, _, pc, sent) =>
        FollowedGrows(ResultsPlan(before[i].message, w), before, after, i, pc, sent);
      case _ =>
    }
  }

  lemma InvByParts(site: Site, s: AgentState, t: AgentState, i: nat)
    requires Inv(site, s) && i < |s.records| && Grown(s.records, t.records)
    requires forall k :: 0 <= k < |s.records| && k != i ==> t.records[k] == s.records[k]
    requires Ok(site, t.records, i)
    requires forall k :: |s.records| <= k < |t.records| ==> Ok(site, t.records, k)
    ensures Inv(site, t)
  {
    forall k | 0 <= k < |t.records| ensures Ok(site, t.records, k) {
      if k < |s.records| && k != i {
        OkStays(site, s.records, t.records, k);
      }
    }
  }

  // ---------- events ----------

  /** What one effect of an event leaves among the records. */
  ghost function Kept(site: Site, now: int, x: Effect): seq<AgentRecord> {
    if x.Publish? && x.answer.Confirmed? then Copies(site.route(x.exchange, x.message.key), x.message, now,
      [Mark(x.message)]) else []
  }

  ghost function KeptAll(site: Site, now: int, effects: seq<Effect>): seq<AgentRecord> {
    if effects == [] then [] else Kept(site, now, effects[0]) + KeptAll(site, now, effects[1..])
  }

  function ScansOf(effects: seq<Effect>): seq<nat> {
    if effects == [] then [] else (if effects[0].ExecScan? then [effects[0].event] else []) + ScansOf(effects[1..])
  }

  ghost function AbsorbedOne(site: Site, s: AgentState, x: Effect): AgentState {
    State(s.now, s.records + Kept(site, s.now, x), s.scans + if x.ExecScan? then [x.event] else [])
  }

  lemma AbsorbStep(site: Site, s: AgentState, effects: seq<Effect>)
    requires effects != []
    ensures Absorb(site, s, effects) == Absorb(site, AbsorbedOne(site, s, effects[0]), effects[1..])
  {
    assert s.records + [] == s.records && s.scans + [] == s.scans;
  }

  lemma {:induction false} AbsorbIs(site: Site, s: AgentState, effects: seq<Effect>)
    ensures Absorb(site, s, effects) ==
      State(s.now, s.records + KeptAll(site, s.now, effects), s.scans + ScansOf(effects))
    decreases |effects|
  {
    if effects == [] {
      assert s.records + [] == s.records && s.scans + [] == s.scans;
    } else {
      var x, rest := effects[0], effects[1..];
      AbsorbStep(site, s, effects);
      AbsorbIs(site, AbsorbedOne(site, s, x), rest);
      JoinsRegroup(s.records, Kept(site, s.now, x), KeptAll(site, s.now, rest));
      JoinsRegroup(s.scans, if x.ExecScan? then [x.event] else [], ScansOf(rest));
    }
  }

  /** The await message that an event gives. */
  function AwaitOf(e: Event): Message {
    Message(AwaitScan(e.id, e.flow, e.moniker, e.now, e.dropBy), AwaitTopic(e.flow, e.moniker), Some(e.interval), None,
      None)
  }

  /** A record that an event may leave: its request, its await message, or a notice. */
  ghost predicate Born(site: Site, a: Action, now: int, r: AgentRecord)
    requires a.Arrive?
  {
    match r.message.body
    case ScanRequest(_, _, _) =>
      r.message.body == ScanRequest(a.event.id, a.event.flow, a.event.moniker) && r.lineage == [Max(a.retries, 0)] &&
      r.message.retries == Some(Max(a.retries, 0)) && r.place.Ready? && Waiting(site, r.message, r.place.queue)
    case AwaitScan(_, _, _, _, _) => r.message == AwaitOf(a.event) && r.place == Ready(AwaitedScans)
    case Notice(_, _) => r.place == Ready(PrAnnotating) || r.place == Ready(PrescanPrAnnotating)
    case _ => false
  }

  /** A publish of an event that counts: its request or its await message. */
  ghost predicate Weighs(x: Effect) {
    x.Publish? && x.answer.Confirmed? && !x.message.body.Notice?
  }

  /** An effect that scans, or lets an agent scan. */
  ghost predicate Tries(x: Effect) {
    x.ExecScan? || (x.Publish? && x.answer.Confirmed? && x.message.body.ScanRequest?)
  }

  /** An effect that an event may have. */
  ghost predicate EventEffect(site: Site, a: Action, x: Effect)
    requires a.Arrive?
  {
    match x
    case ExecScan(event) => event == a.event.id
    case Publish(exchange, m, _) =>
      (exchange == ResolverScan && a.w.tag.Some? && a.w.tag.value in site.tags &&
        m == RequestMessage(RequestOf(a.event), MakeTopicForTag(a.w.tag.value, a.event.moniker), a.retries, a.ttl)) ||
      (exchange == ScanIn && m == AwaitOf(a.event)) ||
      (exchange == ScanIn && m == NoticeMessage(Annotate, PR, a.event.moniker)) ||
      (exchange == ScanIn && m == NoticeMessage(Prescan, PR, a.event.moniker))
    case _ => false
  }

  /** At most one effect weighs, and at most one tries. */
  ghost predicate EventPlanned(site: Site, a: Action, p: seq<Effect>)
    requires a.Arrive?
  {
    (forall c :: 0 <= c < |p| ==> EventEffect(site, a, p[c])) &&
    (forall c, d :: 0 <= c < d < |p| ==> !(Weighs(p[c]) && Weighs(p[d]))) &&
    forall c, d :: 0 <= c < d < |p| ==> !(Tries(p[c]) && Tries(p[d]))
  }

  lemma EventPlan(site: Site, a: Action)
    requires a.Arrive?
    ensures EventPlanned(site, a, EventEffects(site, a))
  {
    var p := EventEffects(site, a);
    forall c, d | 0 <= c < d < |p| ensures !(Weighs(p[c]) && Weighs(p[d])) && !(Tries(p[c]) && Tries(p[d])) {
      EventWeighsOnce(site, a, c, d);
    }
  }

  lemma EventWeighsOnce(site: Site, a: Action, c: nat, d: nat)
    requires a.Arrive? && c < d < |EventEffects(site, a)|
    ensures var p := EventEffects(site, a); !(Weighs(p[c]) && Weighs(p[d])) && !(Tries(p[c]) && Tries(p[d]))
  {
  }

  lemma CopiesOne(m: Message, at: int, lineage: seq<int>, q: Queue)
    ensures Copies<AgentWorld>({q}, m, at, lineage) == [Record(m, at, lineage, Ready(q))]
  {
    assert {q} - {q} == {};
    assert Copies<AgentWorld>({q}, m, at, lineage) == [Record(m, at, lineage, Ready(q))] + Copies<AgentWorld>({}, m,
      at, lineage);
  }

  lemma KeptIs(site: Site, a: Action, now: int, x: Effect)
    requires Wired(site) && a.Arrive? && EventEffect(site, a, x)
    ensures var kept := Kept(site, now, x);
      |kept| <= 1 &&
      (kept != [] ==>
          Born(site, a, now, kept[0]) && x.Publish? && kept[0].message == x.message && x.answer.Confirmed?)
  {
    if x.Publish? && x.answer.Confirmed? {
      var m, marks := x.message, [Mark(x.message)];
      if x.exchange == ResolverScan {
        assert WiredFor(site, a.w.tag.value, a.event.moniker, None);
        CopiesOne(m, now, marks, ResolverReq(a.w.tag.value));
      } else if m.body.AwaitScan? {
        assert WiredIn(site, Await, a.event.flow, a.event.moniker);
        CopiesOne(m, now, marks, AwaitedScans);
      } else {
        assert WiredIn(site, Annotate, PR, a.event.moniker) && WiredIn(site, Prescan, PR, a.event.moniker);
        CopiesOne(m, now, marks, PrAnnotating);
        CopiesOne(m, now, marks, PrescanPrAnnotating);
      }
    }
  }

  ghost predicate Asks(r: AgentRecord) {
    r.message.body.ScanRequest?
  }

  ghost predicate NoneAsks(rs: seq<AgentRecord>) {
    forall k :: 0 <= k < |rs| ==> !Asks(rs[k])
  }

  ghost predicate AtMostOneHeavy(rs: seq<AgentRecord>) {
    forall i, j :: 0 <= i < j < |rs| ==> rs[i].message.body.Notice? || rs[j].message.body.Notice?
  }

  /** What effects of an event leave is born of it, and at most one record of it is no notice. */
  lemma {:induction false} KeptAreBorn(site: Site, a: Action, now: int, p: seq<Effect>)
    requires Wired(site) && a.Arrive? && EventPlanned(site, a, p)
    ensures forall k :: 0 <= k < |KeptAll(site, now, p)| ==> Born(site, a, now, KeptAll(site, now, p)[k])
    ensures AtMostOneHeavy(KeptAll(site, now, p))
    ensures (forall c :: 0 <= c < |p| ==> !Weighs(p[c])) ==>
      forall k :: 0 <= k < |KeptAll(site, now, p)| ==> KeptAll(site, now, p)[k].message.body.Notice?
  {
    if p != [] {
      KeptAreBorn(site, a, now, p[1..]);
      KeptIs(site, a, now, p[0]);
    }
  }

  /** The effects of an event leave a request or a scan, or neither. */
  lemma {:induction false} KeptOrRan(site: Site, a: Action, now: int, p: seq<Effect>)
    requires Wired(site) && a.Arrive? && EventPlanned(site, a, p)
    ensures ScansOf(p) == [] || (ScansOf(p) == [a.event.id] && NoneAsks(KeptAll(site, now, p)))
    ensures (forall c :: 0 <= c < |p| ==> !Tries(p[c])) ==> ScansOf(p) == [] && NoneAsks(KeptAll(site, now, p))
  {
    if p != [] {
      KeptOrRan(site, a, now, p[1..]);
      KeptIs(site, a, now, p[0]);
      assert [a.event.id] + [] == [a.event.id];
    }
  }

  /** What an event leaves. */
  lemma ArriveLeaves(site: Site, s: AgentState, a: Action) returns (more: seq<AgentRecord>, ran: seq<nat>)
    requires Wired(site) && a.Arrive? && Enabled(site, s, a)
    ensures Apply(site, s, a) == State(s.now, s.records + more, s.scans + ran)
    ensures AtMostOneHeavy(more) && forall k :: 0 <= k < |more| ==> Born(site, a, s.now, more[k])
    ensures ran == [] || (ran == [a.event.id] && NoneAsks(more))
  {
    var p := EventEffects(site, a)[..a.upto];
    EventPlan(site, a);
    AbsorbIs(site, s, p);
    KeptAreBorn(site, a, s.now, p);
    KeptOrRan(site, a, s.now, p);
    more, ran := KeptAll(site, s.now, p), ScansOf(p);
  }

  lemma ArriveKeeps(site: Site, s: AgentState, a: Action)
    requires Wired(site) && Inv(site, s) && a.Arrive? && Enabled(site, s, a)
    ensures Inv(site, Apply(site, s, a))
  {
    var more, _ := ArriveLeaves(site, s, a);
    var t := Apply(site, s, a);
    forall k | 0 <= k < |t.records| ensures Ok(site, t.records, k) {
      if k < |s.records| {
        OkStays(site, s.records, t.records, k);
      } else {
        assert t.records[k] == more[k - |s.records|];
      }
    }
  }

  // ---------- expiry, delivery, crash ----------

  lemma AgeMoves(site: Site, s: AgentState, i: nat)
    requires Wired(site) && Inv(site, s) && Enabled(site, s, Age(i))
    ensures s.records[i].message.body.ScanRequest? && Waiting(site, s.records[i].message, s.records[i].place.queue)
    ensures Expire(site.route, s, i).records ==
      s.records[i := s.records[i].(place := DeadLettered([|s.records|], Expired, []))] +
      [Record(Dead(s.records[i].message, Expired), s.now, s.records[i].lineage, Ready(ResolverTimeout))]
    ensures Expire(site.route, s, i).scans == s.scans
  {
    var r := s.records[i];
    assert Ok(site, s.records, i);
    assert WiredFor(site, r.place.queue.tag, r.message.body.moniker, None);
    PutOne(site.route, s, ResolverDlx, Dead(r.message, Expired), r.lineage, ResolverTimeout);
    assert Ids(|s.records|, |s.records| + 1) == [|s.records|];
  }

  lemma AgeKeeps(site: Site, s: AgentState, i: nat)
    requires Wired(site) && Inv(site, s) && Enabled(site, s, Age(i))
    ensures Inv(site, Expire(site.route, s, i))
  {
    AgeMoves(site, s, i);
    var r, t, n := s.records[i], Expire(site.route, s, i), |s.records|;
    assert Ok(site, s.records, i);
    assert Keyed(site, t.records[n].message, r.place.queue.tag);
    assert Ok(site, t.records, n);
    InvByParts(site, s, t, i);
  }

  lemma TakeKeeps(site: Site, s: AgentState, i: nat, w: AgentWorld)
    requires Inv(site, s) && Enabled(site, s, Take(i, w))
    ensures Inv(site, Deliver(s, i, w))
  {
    assert Ok(site, s.records, i);
    var t := Deliver(s, i, w);
    assert Followed(PlanOf(s.records[i].place.queue, s.records[i].message, w), t.records, i, 0, []);
    InvByParts(site, s, t, i);
  }

  lemma FailKeeps(site: Site, s: AgentState, i: nat)
    requires Inv(site, s) && Enabled(site, s, Fail(i))
    ensures Inv(site, Crash(s, i))
  {
    assert Ok(site, s.records, i);
    InvByParts(site, s, Crash(s, i), i);
  }

  // ---------- effects ----------

  /** What a handler publishes: an outcome under its agent's tag, or for an expired request one
      submission with one retry fewer, or when none is left a failed outcome without a tag. */
  lemma HandlerStores(q: Queue, m: Message, w: AgentWorld, pc: nat)
    requires m.body.ScanRequest? && pc < |PlanOf(q, m, w)| && PlanOf(q, m, w)[pc].Publish?
    ensures var x := PlanOf(q, m, w)[pc];
      x.exchange == ResolverScan &&
        Mark(x.message) == (if x.message.body.ScanOutcome? then 0 else x.message.retries.value) &&
      ((x.message.body.ScanOutcome? && x.message.body.event == m.body.event &&
        ((q.ResolverReq? && x.message.key == ResultTopic(Some(q.tag))) ||
         (q.ResolverTimeout? && TimedOut(m) && x.message.key == ResultTopic(None) && m.retries.Some? &&
           m.retries.value <= 1))) ||
       (q.ResolverTimeout? && TimedOut(m) && m.retries.Some? && m.retries.value - 1 > 0 && w.Timeout? &&
        x.message == RequestMessage(m.body, m.key, m.retries.value - 1, w.ttl)))
  {
  }

  function StoreQueue(m: Message, tag: string): Queue {
    if m.body.ScanOutcome? then FinishedResolverScans else ResolverReq(tag)
  }

  /** An agent or a timeout handler stores what it publishes. */
  ghost predicate Storing(site: Site, s: AgentState, i: nat) {
    Enabled(site, s, Work(i)) && Asks(s.records[i]) && EffectOf(s, i).Publish? && EffectOf(s, i).answer.Confirmed?
  }

  /** The handler of a result has a publish confirmed. */
  ghost predicate Launching(site: Site, s: AgentState, i: nat) {
    Enabled(site, s, Work(i)) && s.records[i].message.body.ScanOutcome? && EffectOf(s, i).Publish? &&
      EffectOf(s, i).answer.Confirmed?
  }

  lemma WorkMoves(site: Site, s: AgentState, i: nat) returns (tag: string)
    requires Wired(site) && Inv(site, s) && Storing(site, s, i)
    ensures s.records[i].message.body.ScanRequest? && Keyed(site, s.records[i].message, tag)
    ensures var r, m := s.records[i], EffectOf(s, i).message;
      Apply(site, s, Work(i)).records ==
        s.records[i := r.(place := Held(r.place.queue, r.place.world, r.place.clock, r.place.pc + 1,
          r.place.sent + [|s.records|]))] +
        [Record(m, s.now, r.lineage + [Mark(m)], Ready(StoreQueue(m, tag)))]
    ensures Apply(site, s, Work(i)).scans == s.scans
  {
    var r, m := s.records[i], EffectOf(s, i).message;
    tag := StoresOnward(site, s, i);
    PutOne(site.route, s, ResolverScan, m, r.lineage + [Mark(m)], StoreQueue(m, tag));
    assert Ids(|s.records|, |s.records| + 1) == [|s.records|];
  }

  /** Where what is stored goes. */
  lemma StoresOnward(site: Site, s: AgentState, i: nat) returns (tag: string)
    requires Wired(site) && Inv(site, s) && Storing(site, s, i)
    ensures s.records[i].message.body.ScanRequest? && Keyed(site, s.records[i].message, tag)
    ensures EffectOf(s, i).exchange == ResolverScan
    ensures site.route(ResolverScan, EffectOf(s, i).message.key) == {StoreQueue(EffectOf(s, i).message, tag)}
  {
    var r, m := s.records[i], EffectOf(s, i).message;
    assert Ok(site, s.records, i);
    HandlerStores(r.place.queue, r.message, r.place.world, r.place.pc);
    if Waiting(site, r.message, r.place.queue) {
      tag := r.place.queue.tag;
    } else {
      tag :| Keyed(site, r.message, tag);
    }
    assert WiredFor(site, tag, r.message.body.moniker, None);
    assert r.place.queue.ResolverReq? ==> WiredFor(site, tag, r.message.body.moniker, Some(r.place.queue.tag));
  }

  lemma WorkStores(site: Site, s: AgentState, i: nat)
    requires Wired(site) && Inv(site, s) && Storing(site, s, i)
    ensures Inv(site, Apply(site, s, Work(i)))
  {
    var tag := WorkMoves(site, s, i);
    WorkFits(site, s, Apply(site, s, Work(i)), i, tag);
  }

  lemma WorkFits(site: Site, s: AgentState, t: AgentState, i: nat, tag: string)
    requires Inv(site, s) && Storing(site, s, i)
    requires s.records[i].message.body.ScanRequest? && Keyed(site, s.records[i].message, tag)
    requires var r, m := s.records[i], EffectOf(s, i).message;
      t.records ==
        s.records[i := r.(place := Held(r.place.queue, r.place.world, r.place.clock, r.place.pc + 1,
          r.place.sent + [|s.records|]))] +
        [Record(m, s.now, r.lineage + [Mark(m)], Ready(StoreQueue(m, tag)))]
    ensures Inv(site, t)
  {
    assert Ok(site, s.records, i);
    SenderFits(site, s, t, i);
    StoredFits(site, s.records[i], t, |s.records|, tag);
    InvByParts(site, s, t, i);
  }

  lemma SenderFits(site: Site, s: AgentState, t: AgentState, i: nat)
    requires Inv(site, s) && Storing(site, s, i)
    requires var r, m, n := s.records[i], EffectOf(s, i).message, |s.records|;
      |t.records| == n + 1 && Grown(s.records, t.records) &&
      t.records[i] == r.(place := Held(r.place.queue, r.place.world, r.place.clock, r.place.pc + 1,
        r.place.sent + [n])) &&
      t.records[n].message == m && t.records[n].lineage == r.lineage + [Mark(m)]
    ensures Ok(site, t.records, i)
  {
    var r := s.records[i];
    var p := r.place;
    assert Ok(site, s.records, i);
    var plan := PlanOf(p.queue, r.message, p.world);
    FollowedGrows(plan, s.records, t.records, i, p.pc, p.sent);
    FollowedMore(plan, t.records, i, p.pc, p.sent, [|s.records|]);
  }

  lemma StoredFits(site: Site, r: AgentRecord, t: AgentState, n: nat, tag: string)
    requires r.message.body.ScanRequest? && r.place.Held? && Keyed(site, r.message, tag)
    requires Countdown(r.lineage) && r.message.retries == Some(r.lineage[|r.lineage| - 1])
    requires r.place.pc < |PlanOf(r.place.queue, r.message, r.place.world)|
    requires PlanOf(r.place.queue, r.message, r.place.world)[r.place.pc].Publish?
    requires n < |t.records|
    requires var m := PlanOf(r.place.queue, r.message, r.place.world)[r.place.pc].message;
      t.records[n].message == m && t.records[n].lineage == r.lineage + [Mark(m)] &&
        t.records[n].place == Ready(StoreQueue(m, tag))
    ensures Ok(site, t.records, n)
  {
    HandlerStores(r.place.queue, r.message, r.place.world, r.place.pc);
    var d := t.records[n];
    assert d.lineage[..|d.lineage| - 1] == r.lineage;
    if d.message.body.ScanOutcome? && r.place.queue.ResolverReq? {
      SuffixesDiffer(r.place.queue.tag);
    }
  }

  /** What a result starts: the await message before the annotation. */
  lemma ResultStarts(m: Message, w: AgentWorld, pc: nat)
    requires w.Results? && pc < |ResultsPlan(m, w)| && ResultsPlan(m, w)[pc].Publish?
    ensures m.body.ScanOutcome?
    ensures var x := ResultsPlan(m, w)[pc];
      x.exchange == ScanIn &&
      if pc == 0 then x.message.body.AwaitScan? && x.message.body.scan == m.body.event &&
        x.message.key == MakeTopic(Await, m.body.flow, m.body.moniker)
      else x.message == NoticeMessage(Annotate, PR, m.body.moniker)
  {
  }

  /** What a result starts is stored in its one queue, or nowhere under a dotted service name. */
  lemma LaunchMoves(site: Site, s: AgentState, i: nat)
    requires Wired(site) && Inv(site, s) && Launching(site, s, i)
    ensures var r, m, t, n := s.records[i], EffectOf(s, i).message, Apply(site, s, Work(i)), |s.records|;
      var p := r.place;
      var more := if Dotless(r.message.body.moniker)
        then [Record(m, s.now, r.lineage + [Mark(m)], Ready(if p.pc == 0 then AwaitedScans else PrAnnotating))] else [];
      t.scans == s.scans &&
      t.records == s.records[i := r.(place := Held(p.queue, p.world, p.clock, p.pc + 1, p.sent + Ids(n,
        n + |more|)))] + more
    ensures EffectOf(s, i).message.body.AwaitScan? || EffectOf(s, i).message.body.Notice?
    ensures EffectOf(s, i).message.body.AwaitScan? <==> s.records[i].place.pc == 0
  {
    var r, m := s.records[i], EffectOf(s, i).message;
    var p := r.place;
    assert Ok(site, s.records, i);
    ResultStarts(r.message, p.world, p.pc);
    assert WiredIn(site, Await, r.message.body.flow, r.message.body.moniker) &&
      WiredIn(site, Annotate, PR, r.message.body.moniker);
    if Dotless(r.message.body.moniker) {
      PutOne(site.route, s, ScanIn, m, r.lineage + [Mark(m)], if p.pc == 0 then AwaitedScans else PrAnnotating);
    } else {
      PutNone(site.route, s, ScanIn, m, r.lineage + [Mark(m)]);
    }
  }

  lemma LaunchKeeps(site: Site, s: AgentState, i: nat)
    requires Wired(site) && Inv(site, s) && Launching(site, s, i)
    ensures Inv(site, Apply(site, s, Work(i)))
  {
    LaunchMoves(site, s, i);
    assert Ok(site, s.records, i);
    ResultGoesOn(s.records[i], Apply(site, s, Work(i)).records[i]);
    LaunchFollows(site, s, i);
    InvByParts(site, s, Apply(site, s, Work(i)), i);
  }

  lemma LaunchFollows(site: Site, s: AgentState, i: nat)
    requires Wired(site) && Inv(site, s) && Launching(site, s, i)
    ensures Launched(Apply(site, s, Work(i)).records, i)
  {
    LaunchMoves(site, s, i);
    var p, m, after := s.records[i].place, s.records[i].message, Apply(site, s, Work(i)).records;
    assert Ok(site, s.records, i);
    if Dotless(m.body.moniker) {
      var plan := ResultsPlan(m, p.world);
      FollowedGrows(plan, s.records, after, i, p.pc, p.sent);
      FollowedMore(plan, after, i, p.pc, p.sent, [|s.records|]);
      assert Ids(|s.records|, |s.records| + 1) == [|s.records|];
    }
  }

  /** An effect that does not settle takes a result on. */
  lemma ResultGoesOn(r: AgentRecord, d: AgentRecord)
    requires r.message.body.ScanOutcome? && Resulting(r) && r.place.Held? &&
      r.place.pc < |ResultsPlan(r.message, r.place.world)|
    requires !ResultsPlan(r.message, r.place.world)[r.place.pc].Settles()
    requires d.message == r.message && d.place.Held? && d.place.queue == r.place.queue && d.place.world == r.place.world
    requires d.place.pc == r.place.pc + 1
    ensures Resulting(d)
  {
    var plan, pc := ResultsPlan(r.message, r.place.world), r.place.pc;
    forall x | x in plan[..pc + 1] ensures !x.Settles() {
      assert x in plan[..pc] || x == plan[pc];
    }
  }

  lemma WorkKeeps(site: Site, s: AgentState, i: nat)
    requires Wired(site) && Inv(site, s) && Enabled(site, s, Work(i))
    ensures Inv(site, Apply(site, s, Work(i)))
  {
    var x := EffectOf(s, i);
    assert Ok(site, s.records, i);
    if Storing(site, s, i) {
      WorkStores(site, s, i);
    } else if Launching(site, s, i) {
      LaunchKeeps(site, s, i);
    } else if x.Reject? && s.records[i].place.queue.ResolverReq? {
      RejectKeeps(site, s, i);
    } else {
      PlainKeeps(site, s, i);
    }
  }

  ghost predicate Plain(site: Site, s: AgentState, i: nat) {
    Enabled(site, s, Work(i)) && !(EffectOf(s, i).Publish? && EffectOf(s, i).answer.Confirmed?) &&
    !(EffectOf(s, i).Reject? && s.records[i].place.queue.ResolverReq?)
  }

  /** An effect that stores nothing moves only its record. */
  lemma PlainMoves(site: Site, s: AgentState, i: nat)
    requires Plain(site, s, i)
    requires Consumes(s.records[i].place.queue, s.records[i].place.world)
    ensures var r, p, x := s.records[i], s.records[i].place, EffectOf(s, i);
      Apply(site, s, Work(i)).records == s.records[i := r.(place :=
        if x.Settles() then Settled(x, p.queue, p.world, p.clock, p.pc, p.sent)
        else Held(p.queue, p.world, p.clock, p.pc + 1, p.sent))]
    ensures Apply(site, s, Work(i)).scans == if EffectOf(s, i).ExecScan? then s.scans + [EffectOf(s,
      i).event] else s.scans
  {
    var p := s.records[i].place;
    NeverRequeues(p.queue, s.records[i].message, p.world, p.pc);
    assert Ids(|s.records|, |s.records|) == [] && p.sent + [] == p.sent;
    assert !p.queue.ResolverReq? ==> DeadLettersOf(p.queue).None?;
  }

  lemma PlainKeeps(site: Site, s: AgentState, i: nat)
    requires Inv(site, s) && Plain(site, s, i)
    ensures Inv(site, Apply(site, s, Work(i)))
  {
    var r, t, x := s.records[i], Apply(site, s, Work(i)), EffectOf(s, i);
    var p := r.place;
    assert Ok(site, s.records, i);
    PlainMoves(site, s, i);
    PlainFits(site, s, t, i);
    InvByParts(site, s, t, i);
  }

  ghost predicate MovedPlainly(s: AgentState, t: AgentState, i: nat)
    requires i < |s.records| && s.records[i].place.Held?
    requires s.records[i].place.pc < |PlanOf(s.records[i].place.queue, s.records[i].message, s.records[i].place.world)|
  {
    var r, p, x := s.records[i], s.records[i].place, EffectOf(s, i);
    t.records == s.records[i := r.(place :=
      if x.Settles() then Settled(x, p.queue, p.world, p.clock, p.pc, p.sent)
      else Held(p.queue, p.world, p.clock, p.pc + 1, p.sent))]
  }

  lemma PlainFits(site: Site, s: AgentState, t: AgentState, i: nat)
    requires Inv(site, s) && Plain(site, s, i) && MovedPlainly(s, t, i)
    ensures Ok(site, t.records, i)
  {
    assert Ok(site, s.records, i);
    if Asks(s.records[i]) {
      RequestFits(site, s, t, i);
    } else {
      ResultFits(site, s, t, i);
    }
  }

  lemma RequestFits(site: Site, s: AgentState, t: AgentState, i: nat)
    requires Inv(site, s) && Plain(site, s, i) && MovedPlainly(s, t, i) && Asks(s.records[i])
    ensures Ok(site, t.records, i)
  {
    var r, x := s.records[i], EffectOf(s, i);
    var p := r.place;
    assert Ok(site, s.records, i);
    var plan := PlanOf(p.queue, r.message, p.world);
    NeverRequeues(p.queue, r.message, p.world, p.pc);
    FollowedGrows(plan, s.records, t.records, i, p.pc, p.sent);
    if !x.Settles() {
      FollowedMore(plan, t.records, i, p.pc, p.sent, []);
      assert p.sent + [] == p.sent;
    }
  }

  lemma ResultFits(site: Site, s: AgentState, t: AgentState, i: nat)
    requires Inv(site, s) && Plain(site, s, i) && MovedPlainly(s, t, i) && s.records[i].message.body.ScanOutcome?
    ensures Ok(site, t.records, i)
  {
    var r := s.records[i];
    assert Ok(site, s.records, i);
    if !EffectOf(s, i).Settles() {
      ResultGoesOn(r, t.records[i]);
    }
    if Dotless(r.message.body.moniker) {
      var plan, p := ResultsPlan(r.message, r.place.world), r.place;
      FollowedGrows(plan, s.records, t.records, i, p.pc, p.sent);
      if !plan[p.pc].Settles() {
        FollowedMore(plan, t.records, i, p.pc, p.sent, []);
        assert p.sent + [] == p.sent;
      }
    }
  }

  lemma NeverRequeues(q: Queue, m: Message, w: AgentWorld, pc: nat)
    requires pc < |PlanOf(q, m, w)|
    ensures !PlanOf(q, m, w)[pc].Requeue?
  {
  }

  /** A failing agent rejects: the request goes to the timeout queue, marked rejected. */
  lemma RejectMoves(site: Site, s: AgentState, i: nat)
    requires Wired(site) && Inv(site, s) && Enabled(site, s, Work(i))
    requires EffectOf(s, i).Reject? && s.records[i].place.queue.ResolverReq?
    ensures s.records[i].message.body.ScanRequest? && Waiting(site, s.records[i].message, s.records[i].place.queue)
    ensures Apply(site, s, Work(i)).records ==
      s.records[i := s.records[i].(place := DeadLettered([|s.records|], Rejected, s.records[i].place.sent))] +
      [Record(Dead(s.records[i].message, Rejected), s.now, s.records[i].lineage, Ready(ResolverTimeout))]
    ensures Apply(site, s, Work(i)).scans == s.scans
  {
    var r := s.records[i];
    assert Ok(site, s.records, i);
    assert WiredFor(site, r.place.queue.tag, r.message.body.moniker, None);
    PutOne(site.route, s, ResolverDlx, Dead(r.message, Rejected), r.lineage, ResolverTimeout);
    assert Ids(|s.records|, |s.records| + 1) == [|s.records|];
  }

  lemma RejectKeeps(site: Site, s: AgentState, i: nat)
    requires Wired(site) && Inv(site, s) && Enabled(site, s, Work(i))
    requires EffectOf(s, i).Reject? && s.records[i].place.queue.ResolverReq?
    ensures Inv(site, Apply(site, s, Work(i)))
  {
    RejectMoves(site, s, i);
    var r, t, n := s.records[i], Apply(site, s, Work(i)), |s.records|;
    assert Ok(site, s.records, i);
    assert Keyed(site, t.records[n].message, r.place.queue.tag);
    assert Ok(site, t.records, n);
    forall k | 0 <= k < |r.place.sent| ensures Answers(t.records, i, r.place.sent[k]) {
      SentAnswers(site, s, i, k);
    }
    InvByParts(site, s, t, i);
  }

  /** Everything an agent has stored for a request is an outcome of its event. */
  lemma SentAnswers(site: Site, s: AgentState, i: nat, k: nat)
    requires Inv(site, s) && i < |s.records| && s.records[i].message.body.ScanRequest?
    requires s.records[i].place.Held? || s.records[i].place.Settled?
    requires s.records[i].place.queue.ResolverReq? && k < |s.records[i].place.sent|
    ensures Answers(s.records, i, s.records[i].place.sent[k])
  {
    var r := s.records[i];
    assert Ok(site, s.records, i);
    var plan := PlanOf(r.place.queue, r.message, r.place.world);
    var c := StoredIsPlanned(plan[..r.place.pc], k);
    HandlerStores(r.place.queue, r.message, r.place.world, c);
  }

  lemma {:induction false} StoredIsPlanned(plan: seq<Effect>, k: nat) returns (c: nat)
    requires k < |Stored(plan)|
    ensures c < |plan| && plan[c].Publish? && plan[c].message == Stored(plan)[k]
  {
    var front := plan[..|plan| - 1];
    if k < |Stored(front)| {
      c := StoredIsPlanned(front, k);
    } else {
      c := |plan| - 1;
    }
  }

  lemma StepKeeps(site: Site, s: AgentState, a: Action)
    requires Wired(site) && Inv(site, s) && Enabled(site, s, a)
    ensures Inv(site, Apply(site, s, a))
  {
    match a
    case Tick(_) =>
      forall k | 0 <= k < |s.records| ensures Ok(site, Apply(site, s, a).records, k) {
        OkStays(site, s.records, s.records, k);
      }
    case Arrive(_, _, _, _, _) => ArriveKeeps(site, s, a);
    case Age(i) => AgeKeeps(site, s, i);
    case Take(i, w) => TakeKeeps(site, s, i, w);
    case Work(i) => WorkKeeps(site, s, i);
    case Fail(i) => FailKeeps(site, s, i);
  }

  lemma {:induction false} Always(site: Site, states: seq<AgentState>, acts: seq<Action>, k: nat)
    requires Behaviour(site, states, acts) && k < |states|
    ensures Wired(site) && Inv(site, states[k])
  {
    StandardIsWired(site);
    if k > 0 {
      Always(site, states, acts, k - 1);
      StepKeeps(site, states[k - 1], acts[k - 1]);
    }
  }
}
