/** What holds of every run of delegated scanning. */
module DelegationTheorems {
  import opened Common
  import opened Topics
  import opened Topology
  import opened Routing
  import opened Amqp
  import opened Delegation
  import opened Orchestration
  import opened DelegationRuns

  // ---------- what a step changes ----------

  predicate Touches(a: Action, i: nat) {
    match a
    case Age(k) => k == i
    case Take(k, _) => k == i
    case Work(k) => k == i
    case Fail(k) => k == i
    case _ => false
  }

  ghost predicate Bouncing(site: Site, s: AgentState, i: nat) {
    Enabled(site, s, Work(i)) && EffectOf(s, i).Reject? && s.records[i].place.queue.ResolverReq?
  }

  /** An effect moves its record, and adds one when an agent's or timeout handler's publish is confirmed,
      when an agent rejects, and when a result starts something under a name without a dot. */
  lemma WorkChanges(site: Site, s: AgentState, i: nat)
    requires Wired(site) && Inv(site, s) && Enabled(site, s, Work(i))
    ensures var t, n := Apply(site, s, Work(i)), |s.records|;
      Grown(s.records, t.records) && (forall k :: 0 <= k < n && k != i ==> t.records[k] == s.records[k]) &&
      (Storing(site, s, i) ==>
        |t.records| == n + 1 && t.records[n].message == EffectOf(s, i).message && t.records[n].place.Ready?) &&
      (Bouncing(site, s, i) ==>
        |t.records| == n + 1 && t.records[n].message == Dead(s.records[i].message, Rejected) &&
          t.records[n].place == Ready(ResolverTimeout)) &&
      (Launching(site, s, i) ==>
        n <= |t.records| <= n + 1 &&
          (|t.records| == n + 1 ==> t.records[n].message == EffectOf(s, i).message && t.records[n].place.Ready?)) &&
      (!Storing(site, s, i) && !Bouncing(site, s, i) && !Launching(site, s, i) ==> |t.records| == n) &&
      t.scans == if EffectOf(s, i).ExecScan? then s.scans + [EffectOf(s, i).event] else s.scans
    ensures var p, x, q := s.records[i].place, EffectOf(s, i), Apply(site, s, Work(i)).records[i].place;
      if Bouncing(site, s, i) then q == DeadLettered([|s.records|], Rejected, p.sent)
      else if x.Settles() then q == Settled(x, p.queue, p.world, p.clock, p.pc, p.sent)
      else (q.Held? && q.queue == p.queue && q.world == p.world && q.pc == p.pc + 1 &&
            (Storing(site, s, i) ==> q.sent == p.sent + [|s.records|]) &&
            (!Storing(site, s, i) && !Launching(site, s, i) ==> q.sent == p.sent))
  {
    assert Ok(site, s.records, i);
    if Storing(site, s, i) {
      var _ := WorkMoves(site, s, i);
    } else if Launching(site, s, i) {
      LaunchMoves(site, s, i);
    } else if Bouncing(site, s, i) {
      RejectMoves(site, s, i);
    } else {
      PlainMoves(site, s, i);
    }
  }

  lemma StepChanges(site: Site, s: AgentState, a: Action)
    requires Wired(site) && Inv(site, s) && Enabled(site, s, a)
    ensures var t := Apply(site, s, a);
      Grown(s.records, t.records) &&
      (forall k :: 0 <= k < |s.records| && !Touches(a, k) ==> t.records[k] == s.records[k]) &&
      (!a.Arrive? ==> |t.records| <= |s.records| + 1) && (!a.Arrive? && !a.Work? ==> t.scans == s.scans)
  {
    match a
    case Arrive(_, _, _, _, _) => var _, _ := ArriveLeaves(site, s, a);
    case Age(i) => AgeMoves(site, s, i);
    case Work(i) => WorkChanges(site, s, i);
    case _ =>
  }

  // ---------- who stands for an event ----------

  /** Waiting for an agent, or back because no agent took it in time; a rejected copy is neither. */
  predicate Live(m: Message, q: Queue) {
    q.ResolverReq? || (q.ResolverTimeout? && m.death.Some? && m.death.value.reason.Expired?)
  }

  /** A live request with nothing stored for it yet, or one whose agent failed and could not even report. */
  ghost predicate Open(r: AgentRecord) {
    match r.place
    case Ready(q) => Live(r.message, q)
    case Held(q, _, _, _, sent) => Live(r.message, q) && sent == []
    case Settled(_, q, _, _, _, sent) => Live(r.message, q) && sent == []
    case DeadLettered(_, reason, after) => reason.Rejected? && after == []
  }

  /** One record owns an event's request: an open request, or its outcome. */
  ghost predicate Owner(r: AgentRecord, event: nat) {
    match r.message.body
    case ScanRequest(x, _, _) => x == event && Open(r)
    case ScanOutcome(x, _, _, _, _) => x == event
    case _ => false
  }

  /** One record can start, or has started, the await workflow of an event: an open request, an outcome
      whose handler has not begun, or the await message itself. */
  ghost predicate Starter(r: AgentRecord, event: nat) {
    match r.message.body
    case ScanRequest(x, _, _) => x == event && Open(r)
    case ScanOutcome(x, _, _, _, _) => x == event && (r.place.Ready? || (r.place.Held? && r.place.pc == 0))
    case AwaitScan(x, _, _, _, _) => x == event
    case _ => false
  }

  /** A live request whose handler has not begun: only from here can an agent's scan come. */
  ghost predicate Untried(r: AgentRecord, event: nat) {
    match r.message.body
    case ScanRequest(x, _, _) => x == event && (
      match r.place
      case Ready(q) => Live(r.message, q)
      case Held(q, _, _, pc, _) => Live(r.message, q) && pc == 0
      case _ => false)
    case _ => false
  }

  datatype Role = Owning | Starting | Trying

  ghost predicate Plays(role: Role, r: AgentRecord, event: nat) {
    match role
    case Owning => Owner(r, event)
    case Starting => Starter(r, event)
    case Trying => Untried(r, event)
  }

  ghost function Playing(role: Role, event: nat): AgentRecord -> bool {
    (r: AgentRecord) => Plays(role, r, event)
  }

  function Occurs(scans: seq<nat>, event: nat): nat {
    if scans == [] then 0 else Occurs(scans[..|scans| - 1], event) + One(scans[|scans| - 1] == event)
  }

  /** How many records play a role for an event; of trying, the scans that ran count too. */
  ghost function Count(role: Role, s: AgentState, event: nat): nat {
    Number(s.records, Playing(role, event)) + if role.Trying? then Occurs(s.scans, event) else 0
  }

  ghost predicate Mentions(r: AgentRecord, event: nat) {
    match r.message.body
    case ScanRequest(x, _, _) => x == event
    case ScanOutcome(x, _, _, _, _) => x == event
    case AwaitScan(x, _, _, _, _) => x == event
    case _ => false
  }

  /** Every event has an id of its own. */
  ghost predicate FreshStep(s: AgentState, a: Action) {
    a.Arrive? ==> a.event.id !in s.scans && forall i :: 0 <= i < |s.records| ==> !Mentions(s.records[i], a.event.id)
  }

  ghost predicate Fresh(states: seq<AgentState>, acts: seq<Action>)
    requires |states| == |acts| + 1
  {
    forall k :: 0 <= k < |acts| ==> FreshStep(states[k], acts[k])
  }

  predicate IsCrash(a: Action) {
    a.Fail?
  }

  function Crashes(acts: seq<Action>): nat {
    HowMany(acts, IsCrash)
  }

  /** No crash, and every event has an id of its own. */
  ghost predicate Calm(states: seq<AgentState>, acts: seq<Action>)
    requires |states| == |acts| + 1
  {
    Fresh(states, acts) && forall k :: 0 <= k < |acts| ==> !acts[k].Fail?
  }

  /** No agent faults after its outcome was confirmed, at least not so that it stores another. */
  predicate Steady(w: AgentWorld) {
    w.Runner? ==> !(w.first.Confirmed? && !w.cleanup && w.second.Confirmed?)
  }

  ghost predicate Holding(s: AgentState, p: AgentWorld -> bool) {
    forall i :: 0 <= i < |s.records| && s.records[i].place.Held? ==> p(s.records[i].place.world)
  }

  ghost predicate Taking(acts: seq<Action>, p: AgentWorld -> bool) {
    forall k :: 0 <= k < |acts| && acts[k].Take? ==> p(acts[k].world)
  }

  lemma HoldingKeeps(site: Site, s: AgentState, a: Action, p: AgentWorld -> bool)
    requires Wired(site) && Inv(site, s) && Enabled(site, s, a) && Holding(s, p) && (a.Take? ==> p(a.world))
    ensures Holding(Apply(site, s, a), p)
  {
    match a
    case Arrive(_, _, _, _, _) =>
      var more, _ := ArriveLeaves(site, s, a);
      forall k | 0 <= k < |more| ensures more[k].place.Ready? {
        assert Born(site, a, s.now, more[k]);
      }
    case Age(i) => AgeMoves(site, s, i);
    case Work(i) => WorkChanges(site, s, i);
    case _ =>
  }

  lemma {:induction false} HoldingAlways(site: Site, states: seq<AgentState>, acts: seq<Action>, k: nat,
      p: AgentWorld -> bool)
    requires Behaviour(site, states, acts) && Taking(acts, p) && k < |states|
    ensures Holding(states[k], p)
  {
    if k > 0 {
      HoldingAlways(site, states, acts, k - 1, p);
      Always(site, states, acts, k - 1);
      HoldingKeeps(site, states[k - 1], acts[k - 1], p);
    }
  }

  // ---------- no step makes two out of one ----------

  /** A handler's publish for a request is confirmed after it has stored a message already. */
  ghost predicate StoresLate(site: Site, s: AgentState, a: Action) {
    a.Work? && Storing(site, s, a.i) && s.records[a.i].place.sent != []
  }

  ghost function Surplus(site: Site, s: AgentState, a: Action, role: Role): nat {
    One(!role.Trying? && StoresLate(site, s, a))
  }

  ghost function Surpluses(site: Site, states: seq<AgentState>, acts: seq<Action>, k: nat, role: Role): nat
    requires |states| == |acts| + 1 && k < |states|
  {
    if k == 0 then 0
    else Surpluses(site, states, acts, k - 1, role) + Surplus(site, states[k - 1], acts[k - 1], role)
  }

  lemma {:induction false} OccursNot(scans: seq<nat>, event: nat)
    ensures Occurs(scans, event) == 0 <==> event !in scans
  {
    if scans != [] {
      OccursNot(scans[..|scans| - 1], event);
      assert scans == scans[..|scans| - 1] + [scans[|scans| - 1]];
    }
  }

  lemma OccursMore(scans: seq<nat>, x: nat, event: nat)
    ensures Occurs(scans + [x], event) == Occurs(scans, event) + One(x == event)
  {
    assert (scans + [x])[..|scans|] == scans;
  }

  /** An arriving event brings in one for itself, and none for any other. */
  lemma ArriveCounts(site: Site, s: AgentState, a: Action, role: Role, event: nat)
    requires Wired(site) && Inv(site, s) && Enabled(site, s, a) && a.Arrive? && FreshStep(s, a)
    ensures Count(role, Apply(site, s, a), event) <= if a.event.id == event then 1 else Count(role, s, event)
  {
    var more, ran := ArriveLeaves(site, s, a);
    var p := Playing(role, event);
    NumberJoins(s.records, more, p);
    MoreCounts(site, s.now, a, role, event, more);
    if a.event.id == event {
      NumberNone(s.records, p);
      OccursNot(s.scans, event);
    }
    if ran != [] {
      OccursMore(s.scans, a.event.id, event);
      if role.Trying? {
        NumberNone(more, p);
      }
    } else {
      assert s.scans + [] == s.scans;
    }
  }

  lemma BornPlays(site: Site, now: int, a: Action, role: Role, event: nat, r: AgentRecord)
    requires a.Arrive? && Born(site, a, now, r) && Plays(role, r, event)
    ensures a.event.id == event && !r.message.body.Notice?
  {
  }

  lemma MoreCounts(site: Site, now: int, a: Action, role: Role, event: nat, more: seq<AgentRecord>)
    requires a.Arrive? && AtMostOneHeavy(more) && forall k :: 0 <= k < |more| ==> Born(site, a, now, more[k])
    ensures Number(more, Playing(role, event)) <= One(a.event.id == event)
  {
    var p := Playing(role, event);
    forall k | 0 <= k < |more| && p(more[k]) ensures a.event.id == event && !more[k].message.body.Notice? {
      BornPlays(site, now, a, role, event, more[k]);
    }
    if a.event.id == event {
      NumberUnique(more, p);
    } else {
      NumberNone(more, p);
    }
  }

  /** A steady handler of a request that stores a message has stored none before, and for a live request;
      and an agent scans first of all. */
  lemma StoresOnce(q: Queue, m: Message, w: AgentWorld, pc: nat)
    requires m.body.ScanRequest? && pc < |PlanOf(q, m, w)|
    ensures PlanOf(q, m, w)[pc].ExecScan? ==> pc == 0 && q.ResolverReq? && PlanOf(q, m, w)[pc].event == m.body.event
    ensures PlanOf(q, m, w)[pc].Publish? ==> Live(m, q) && (PlanOf(q, m, w)[pc].message.body.ScanRequest? ==> pc == 0)
    ensures Steady(w) && PlanOf(q, m, w)[pc].Publish? && PlanOf(q, m, w)[pc].answer.Confirmed? ==>
      Stored(PlanOf(q, m, w)[..pc]) == []
  {
    if PlanOf(q, m, w)[pc].Publish? {
      assert pc <= 2;
      ShortStored(PlanOf(q, m, w)[..pc]);
    }
  }

  lemma ResultsNeverScan(m: Message, w: AgentWorld, pc: nat)
    requires w.Results? && pc < |ResultsPlan(m, w)|
    ensures !ResultsPlan(m, w)[pc].ExecScan?
  {
  }

  /** What an effect makes of the record it moves and the one it may add. */
  lemma WorkPlays(site: Site, s: AgentState, i: nat, role: Role, event: nat)
    requires Wired(site) && Inv(site, s) && Enabled(site, s, Work(i))
    ensures var t, n := Apply(site, s, Work(i)), |s.records|;
      n <= |t.records| &&
      One(Plays(role, t.records[i], event)) + (if |t.records| > n then One(Plays(role, t.records[n], event)) else 0) +
        One(role.Trying? && EffectOf(s, i).ExecScan? && EffectOf(s, i).event == event)
      <= One(Plays(role, s.records[i], event)) + Surplus(site, s, Work(i), role)
  {
    assert Ok(site, s.records, i);
    if Asks(s.records[i]) {
      RequestPlays(site, s, i, role, event);
    } else {
      ResultPlays(site, s, i, role, event);
    }
  }

  lemma RequestPlays(site: Site, s: AgentState, i: nat, role: Role, event: nat)
    requires Wired(site) && Inv(site, s) && Enabled(site, s, Work(i)) && Asks(s.records[i])
    ensures var t, n := Apply(site, s, Work(i)), |s.records|;
      n <= |t.records| &&
      One(Plays(role, t.records[i], event)) + (if |t.records| > n then One(Plays(role, t.records[n], event)) else 0) +
        One(role.Trying? && EffectOf(s, i).ExecScan? && EffectOf(s, i).event == event)
      <= One(Plays(role, s.records[i], event)) + Surplus(site, s, Work(i), role)
  {
    var r := s.records[i];
    var p := r.place;
    assert Ok(site, s.records, i);
    if Storing(site, s, i) {
      StoringPlays(site, s, i, role, event);
    } else {
      WorkChanges(site, s, i);
      StoresOnce(p.queue, r.message, p.world, p.pc);
    }
  }

  lemma StoringPlays(site: Site, s: AgentState, i: nat, role: Role, event: nat)
    requires Wired(site) && Inv(site, s) && Storing(site, s, i)
    ensures var t, n := Apply(site, s, Work(i)), |s.records|;
      |t.records| == n + 1 && !EffectOf(s, i).ExecScan? &&
      One(Plays(role, t.records[i], event)) + One(Plays(role, t.records[n], event)) <=
        One(Plays(role, s.records[i], event)) + Surplus(site, s, Work(i), role)
  {
    var r := s.records[i];
    var p := r.place;
    assert Ok(site, s.records, i);
    WorkChanges(site, s, i);
    StoresOnce(p.queue, r.message, p.world, p.pc);
    HandlerStores(p.queue, r.message, p.world, p.pc);
  }

  lemma ResultPlays(site: Site, s: AgentState, i: nat, role: Role, event: nat)
    requires Wired(site) && Inv(site, s) && Enabled(site, s, Work(i)) && s.records[i].message.body.ScanOutcome?
    ensures var t, n := Apply(site, s, Work(i)), |s.records|;
      n <= |t.records| && !EffectOf(s, i).ExecScan? &&
      One(Plays(role, t.records[i], event)) + (if |t.records| > n then One(Plays(role, t.records[n], event)) else 0)
      <= One(Plays(role, s.records[i], event))
  {
    var r := s.records[i];
    var p := r.place;
    assert Ok(site, s.records, i);
    WorkChanges(site, s, i);
    ResultsNeverScan(r.message, p.world, p.pc);
    if EffectOf(s, i).Publish? {
      ResultStarts(r.message, p.world, p.pc);
    }
  }

  lemma WorkCounts(site: Site, s: AgentState, i: nat, role: Role, event: nat)
    requires Wired(site) && Inv(site, s) && Enabled(site, s, Work(i))
    ensures Count(role, Apply(site, s, Work(i)), event) <= Count(role, s, event) + Surplus(site, s, Work(i), role)
  {
    WorkChanges(site, s, i);
    NumberStep(s.records, Apply(site, s, Work(i)).records, i, Playing(role, event));
    WorkPlays(site, s, i, role, event);
    if EffectOf(s, i).ExecScan? {
      OccursMore(s.scans, EffectOf(s, i).event, event);
    }
  }

  lemma AgeCounts(site: Site, s: AgentState, i: nat, role: Role, event: nat)
    requires Wired(site) && Inv(site, s) && Enabled(site, s, Age(i))
    ensures Count(role, Apply(site, s, Age(i)), event) <= Count(role, s, event)
  {
    AgeMoves(site, s, i);
    NumberStep(s.records, Apply(site, s, Age(i)).records, i, Playing(role, event));
  }

  lemma StepCounts(site: Site, s: AgentState, a: Action, role: Role, event: nat)
    requires Wired(site) && Inv(site, s) && Enabled(site, s, a) && FreshStep(s, a)
    ensures Count(role, Apply(site, s, a), event) <=
      if a.Arrive? && a.event.id == event then 1
      else Count(role, s, event) + One(a.Fail?) + Surplus(site, s, a, role)
  {
    match a
    case Tick(_) =>
    case Arrive(_, _, _, _, _) => ArriveCounts(site, s, a, role, event);
    case Age(i) => AgeCounts(site, s, i, role, event);
    case Take(i, _) => NumberStep(s.records, Apply(site, s, a).records, i, Playing(role, event));
    case Work(i) => WorkCounts(site, s, i, role, event);
    case Fail(i) => NumberStep(s.records, Apply(site, s, a).records, i, Playing(role, event));
  }

  /** Conservation with crashes and late faults: an event's open requests and outcomes, and its possible and
      actual await messages, each number at most one more than the crashes there were and the messages that
      handlers stored after they had stored one; its scans that ran or may still run number at most one
      more than the crashes. */
  lemma {:induction false} CountsBounded(
      site: Site, states: seq<AgentState>, acts: seq<Action>, k: nat, role: Role, event: nat)
    requires Behaviour(site, states, acts) && Fresh(states, acts) && k < |states|
    ensures Count(role, states[k], event) <= 1 + Crashes(acts[..k]) + Surpluses(site, states, acts, k, role)
  {
    if k == 0 {
      NothingYet(role, states[0], event);
    } else {
      CountsBounded(site, states, acts, k - 1, role, event);
      Always(site, states, acts, k - 1);
      StepCounts(site, states[k - 1], acts[k - 1], role, event);
      HowManyMore(acts, IsCrash, k);
    }
  }

  /** Steady handlers store nothing late. */
  lemma SteadyIsNotLate(site: Site, s: AgentState, a: Action)
    requires Inv(site, s) && Enabled(site, s, a) && Holding(s, Steady)
    ensures !StoresLate(site, s, a)
  {
    if a.Work? && Storing(site, s, a.i) {
      var r := s.records[a.i];
      assert Ok(site, s.records, a.i);
      StoresOnce(r.place.queue, r.message, r.place.world, r.place.pc);
    }
  }

  lemma {:induction false} SteadyHasNoSurplus(
      site: Site, states: seq<AgentState>, acts: seq<Action>, k: nat, role: Role)
    requires Behaviour(site, states, acts) && Taking(acts, Steady) && k < |states|
    ensures Surpluses(site, states, acts, k, role) == 0
  {
    if k > 0 {
      SteadyHasNoSurplus(site, states, acts, k - 1, role);
      Always(site, states, acts, k - 1);
      HoldingAlways(site, states, acts, k - 1, Steady);
      SteadyIsNotLate(site, states[k - 1], acts[k - 1]);
    }
  }

  lemma {:induction false} TryingHasNoSurplus(site: Site, states: seq<AgentState>, acts: seq<Action>, k: nat)
    requires |states| == |acts| + 1 && k < |states|
    ensures Surpluses(site, states, acts, k, Trying) == 0
  {
    if k > 0 {
      TryingHasNoSurplus(site, states, acts, k - 1);
    }
  }

  lemma NothingYet(role: Role, s: AgentState, event: nat)
    requires s.records == [] && s.scans == []
    ensures Count(role, s, event) == 0
  {
  }

  lemma OnePlays(site: Site, states: seq<AgentState>, acts: seq<Action>, k: nat, role: Role, event: nat)
    requires Behaviour(site, states, acts) && Calm(states, acts) && k < |states|
    requires role.Trying? || Taking(acts, Steady)
    ensures Count(role, states[k], event) <= 1
    ensures var rs := states[k].records;
      forall i, j :: 0 <= i < |rs| && 0 <= j < |rs| && Plays(role, rs[i], event) && Plays(role, rs[j], event) ==> i == j
  {
    CountsBounded(site, states, acts, k, role, event);
    HowManyNone(acts[..k], IsCrash);
    if role.Trying? {
      TryingHasNoSurplus(site, states, acts, k);
    } else {
      SteadyHasNoSurplus(site, states, acts, k, role);
    }
    var rs, p := states[k].records, Playing(role, event);
    NumberUnique(rs, p);
    forall i, j | 0 <= i < |rs| && 0 <= j < |rs| && Plays(role, rs[i], event) && Plays(role, rs[j], event)
      ensures i == j {
      assert p(rs[i]) && p(rs[j]);
    }
  }

  // ---------- at most one scan, and at most one await message ----------

  lemma {:induction false} OccursTwice(scans: seq<nat>, a: nat, b: nat)
    requires a < b < |scans| && scans[a] == scans[b]
    ensures Occurs(scans, scans[a]) >= 2
  {
    var front := scans[..|scans| - 1];
    if b < |scans| - 1 {
      OccursTwice(front, a, b);
    } else {
      OccursNot(front, scans[a]);
      assert scans[a] == front[a];
    }
  }

  /** Without crashes an event runs at most one scan in the whole run, local or delegated, the handling of
      results included; and while a request of it is still to be tried none has run. */
  lemma AtMostOneScan(site: Site, states: seq<AgentState>, acts: seq<Action>, k: nat)
    requires Behaviour(site, states, acts) && Calm(states, acts) && k < |states|
    ensures forall a, b :: 0 <= a < b < |states[k].scans| ==> states[k].scans[a] != states[k].scans[b]
    ensures forall i, event | 0 <= i < |states[k].records| ::
      Untried(states[k].records[i], event) ==> event !in states[k].scans
  {
    var s := states[k];
    forall a, b | 0 <= a < b < |s.scans| ensures s.scans[a] != s.scans[b] {
      OnePlays(site, states, acts, k, Trying, s.scans[a]);
      if s.scans[a] == s.scans[b] {
        OccursTwice(s.scans, a, b);
      }
    }
    forall i, event | 0 <= i < |s.records| && Untried(s.records[i], event) ensures event !in s.scans {
      OnePlays(site, states, acts, k, Trying, event);
      NumberNone(s.records, Playing(Trying, event));
      assert Playing(Trying, event)(s.records[i]);
      OccursNot(s.scans, event);
    }
  }

  /** Without crashes and faults after an outcome, an event stores at most one await message in the whole
      run, whichever route it took; and none while its request is open or its outcome not yet handled. */
  lemma AtMostOneAwait(site: Site, states: seq<AgentState>, acts: seq<Action>, k: nat, i: nat, j: nat)
    requires Behaviour(site, states, acts) && Calm(states, acts) && Taking(acts, Steady) && k < |states|
    requires i < |states[k].records| && states[k].records[i].message.body.AwaitScan?
    requires j < |states[k].records| && Starter(states[k].records[j], states[k].records[i].message.body.scan)
    ensures i == j
  {
    OnePlays(site, states, acts, k, Starting, states[k].records[i].message.body.scan);
    assert Plays(Starting, states[k].records[i], states[k].records[i].message.body.scan);
  }

  // ---------- no request is lost ----------

  predicate Bounced(m: Message) {
    m.death.Some? && m.death.value.reason.Rejected?
  }

  lemma SentContinues(site: Site, s: AgentState, i: nat)
    requires Inv(site, s) && i < |s.records| && Asks(s.records[i])
    requires (s.records[i].place.Held? || s.records[i].place.Settled?) && s.records[i].place.sent != []
    ensures var j := s.records[i].place.sent[0];
      i < j < |s.records| && Follows(s.records[i], s.records[j]) &&
        (Asks(s.records[j]) ==> !Bounced(s.records[j].message))
  {
    var r := s.records[i];
    assert Ok(site, s.records, i);
    var plan := PlanOf(r.place.queue, r.message, r.place.world);
    var c := StoredIsPlanned(plan[..r.place.pc], 0);
    HandlerStores(r.place.queue, r.message, r.place.world, c);
  }

  /** A submission or an outcome of the same event. */
  ghost predicate Follows(r: AgentRecord, d: AgentRecord)
    requires Asks(r)
  {
    (Asks(d) || d.message.body.ScanOutcome?) && d.message.body.event == r.message.body.event
  }

  /** The owner that a submission leads to. */
  lemma {:induction false} FindOwner(site: Site, s: AgentState, i: nat) returns (o: nat)
    requires Inv(site, s) && i < |s.records| && Asks(s.records[i]) && !Bounced(s.records[i].message)
    ensures o < |s.records| && Owner(s.records[o], s.records[i].message.body.event)
    decreases |s.records| - i
  {
    var rs := s.records;
    var r := rs[i];
    var event := r.message.body.event;
    o := i;
    assert Ok(site, rs, i);
    if !Owner(r, event) {
      var next: nat;
      if r.place.DeadLettered? {
        next := if r.place.reason.Expired? then r.place.to[0] else r.place.after[0];
        assert r.place.reason.Rejected? ==> Answers(rs, i, next);
      } else {
        SentContinues(site, s, i);
        next := r.place.sent[0];
      }
      if Asks(rs[next]) {
        o := FindOwner(site, s, next);
      } else {
        o := next;
      }
    }
  }

  /** Conservation: in a run without crashes, and without faults after an outcome, every submitted
      request has exactly one owner at every moment: so one outcome at most over the whole run, none
      while it waits or is worked on, and the copies that failing agents leave behind add nothing. */
  lemma ExactlyOneOwner(site: Site, states: seq<AgentState>, acts: seq<Action>, k: nat, i: nat)
    requires Behaviour(site, states, acts) && Calm(states, acts) && Taking(acts, Steady) && k < |states|
    requires i < |states[k].records| && Asks(states[k].records[i])
    requires !Bounced(states[k].records[i].message)
    ensures var rs, event := states[k].records, states[k].records[i].message.body.event;
      exists o :: 0 <= o < |rs| && Owner(rs[o], event) && forall j :: 0 <= j < |rs| && Owner(rs[j], event) ==> j == o
  {
    var event := states[k].records[i].message.body.event;
    Always(site, states, acts, k);
    OnePlays(site, states, acts, k, Owning, event);
    var o := FindOwner(site, states[k], i);
    assert Plays(Owning, states[k].records[o], event);
  }

  /** Signatures are valid and reports are confirmed; contexts may still fail to open or close. */
  predicate Good(w: AgentWorld) {
    match w
    case Runner(_, valid, _, _, _, first, second) => valid && first.Confirmed? && second.Confirmed?
    case Timeout(valid, _, answer) => valid && answer.Confirmed?
    case _ => true
  }

  ghost predicate InTransit(r: AgentRecord) {
    r.place.Ready? || r.place.Held?
  }

  ghost predicate NoneGone(s: AgentState) {
    forall i :: 0 <= i < |s.records| && Asks(s.records[i]) && Open(s.records[i]) ==> InTransit(s.records[i])
  }

  /** A good handler has stored something before it settles a live request. */
  lemma SettlesLater(q: Queue, m: Message, w: AgentWorld, pc: nat)
    requires m.body.ScanRequest? && m.retries.Some? && Live(m, q) && Consumes(q, w) && Good(w)
    requires pc < |PlanOf(q, m, w)| && PlanOf(q, m, w)[pc].Settles()
    ensures Stored(PlanOf(q, m, w)[..pc]) != []
  {
    var front := PlanOf(q, m, w)[..pc];
    var x := front[|front| - 1];
    assert x.Publish? && x.answer.Confirmed?;
  }

  lemma NoneGoneKeeps(site: Site, s: AgentState, a: Action)
    requires Wired(site) && Inv(site, s) && Enabled(site, s, a) && NoneGone(s) && Holding(s, Good)
    ensures NoneGone(Apply(site, s, a))
  {
    var t, n := Apply(site, s, a), |s.records|;
    StepChanges(site, s, a);
    forall i | 0 <= i < |t.records| && Asks(t.records[i]) && Open(t.records[i]) ensures InTransit(t.records[i]) {
      if i < n && a == Work(i) {
        WorkTransits(site, s, i);
      } else if i < n {
        assert Touches(a, i) || t.records[i] == s.records[i];
        if a.Age? && Touches(a, i) {
          AgeMoves(site, s, i);
        }
      } else {
        AddsReady(site, s, a, i);
      }
    }
  }

  lemma AddsReady(site: Site, s: AgentState, a: Action, i: nat)
    requires Wired(site) && Inv(site, s) && Enabled(site, s, a) && |s.records| <= i < |Apply(site, s, a).records|
    ensures Apply(site, s, a).records[i].place.Ready?
  {
    match a
    case Arrive(_, _, _, _, _) =>
      var more, _ := ArriveLeaves(site, s, a);
      assert Born(site, a, s.now, more[i - |s.records|]);
    case Age(k) => AgeMoves(site, s, k);
    case Work(k) => WorkChanges(site, s, k);
    case _ => StepChanges(site, s, a);
  }

  lemma WorkTransits(site: Site, s: AgentState, i: nat)
    requires Wired(site) && Inv(site, s) && Enabled(site, s, Work(i)) && Holding(s, Good)
    requires Grown(s.records, Apply(site, s, Work(i)).records)
    requires Asks(Apply(site, s, Work(i)).records[i]) && Open(Apply(site, s, Work(i)).records[i])
    ensures InTransit(Apply(site, s, Work(i)).records[i])
  {
    var r := s.records[i];
    assert Ok(site, s.records, i);
    WorkChanges(site, s, i);
    if EffectOf(s, i).Settles() && Live(r.message, r.place.queue) {
      SettlesLater(r.place.queue, r.message, r.place.world, r.place.pc);
    }
  }

  lemma {:induction false} NoneGoneAlways(site: Site, states: seq<AgentState>, acts: seq<Action>, k: nat)
    requires Behaviour(site, states, acts) && Taking(acts, Good) && k < |states|
    ensures NoneGone(states[k])
  {
    if k > 0 {
      NoneGoneAlways(site, states, acts, k - 1);
      Always(site, states, acts, k - 1);
      HoldingAlways(site, states, acts, k - 1, Good);
      NoneGoneKeeps(site, states[k - 1], acts[k - 1]);
    }
  }

  ghost predicate IsOutcome(r: AgentRecord, event: nat) {
    r.message.body.ScanOutcome? && r.message.body.event == event
  }

  /** A live request on its way or worked on. */
  ghost predicate Pending(r: AgentRecord, event: nat) {
    Asks(r) && Owner(r, event) && InTransit(r)
  }

  /** With valid signatures and confirmed reports no request is lost, whatever crashes: each is in a
      queue, in the hands of a handler, or answered, its outcome in the queue of finished scans or
      taken from there. */
  lemma RequestsAreNotLost(site: Site, states: seq<AgentState>, acts: seq<Action>, k: nat, i: nat)
    requires Behaviour(site, states, acts) && Taking(acts, Good) && k < |states|
    requires i < |states[k].records| && Asks(states[k].records[i])
    requires !Bounced(states[k].records[i].message)
    ensures var rs, event := states[k].records, states[k].records[i].message.body.event;
      exists o :: 0 <= o < |rs| && (Pending(rs[o], event) || (IsOutcome(rs[o], event) && Resulting(rs[o])))
  {
    Always(site, states, acts, k);
    NoneGoneAlways(site, states, acts, k);
    var o := FindOwner(site, states[k], i);
    assert Ok(site, states[k].records, o);
    assert Pending(states[k].records[o], states[k].records[i].message.body.event) ||
      IsOutcome(states[k].records[o], states[k].records[i].message.body.event);
  }

  /** All together: without crashes, with valid signatures, confirmed reports and no fault after an
      outcome, a request that is nowhere on its way any more has exactly one outcome, and a request that
      still is has none. */
  lemma AnsweredExactlyOnce(site: Site, states: seq<AgentState>, acts: seq<Action>, k: nat, i: nat)
    requires Behaviour(site, states, acts) && Calm(states, acts) && k < |states|
    requires Taking(acts, Steady) && Taking(acts, Good)
    requires i < |states[k].records| && Asks(states[k].records[i])
    requires !Bounced(states[k].records[i].message)
    ensures var rs, event := states[k].records, states[k].records[i].message.body.event;
      (forall j :: 0 <= j < |rs| ==> !Pending(rs[j], event)) <==>
      exists o :: 0 <= o < |rs| && IsOutcome(rs[o], event) && Resulting(rs[o]) &&
        forall j :: 0 <= j < |rs| && IsOutcome(rs[j], event) ==> j == o
  {
    var rs, event := states[k].records, states[k].records[i].message.body.event;
    Always(site, states, acts, k);
    OnePlays(site, states, acts, k, Owning, event);
    NoneGoneAlways(site, states, acts, k);
    var o := FindOwner(site, states[k], i);
    assert Ok(site, rs, o) && Plays(Owning, rs[o], event);
    forall j | 0 <= j < |rs| && (Pending(rs[j], event) || IsOutcome(rs[j], event)) ensures j == o {
      assert Plays(Owning, rs[j], event);
    }
    if Asks(rs[o]) {
      assert Pending(rs[o], event);
    } else {
      assert IsOutcome(rs[o], event);
    }
  }

  // ---------- retries ----------

  /** The retry header counts down with every resubmission and never gets negative; a request is
      submitted at most max(1, R) times, and is failed by a timeout exactly after that many. */
  lemma RetriesCountDown(site: Site, states: seq<AgentState>, acts: seq<Action>, k: nat, i: nat)
    requires Behaviour(site, states, acts) && k < |states| && i < |states[k].records|
    requires Asks(states[k].records[i]) || states[k].records[i].message.body.ScanOutcome?
    ensures var r := states[k].records[i];
      |r.lineage| >= 1 &&
      if Asks(r) then
        |r.lineage| <= Max(1, r.lineage[0]) && r.message.retries == Some(r.lineage[0] - (|r.lineage| - 1)) &&
        r.message.retries.value >= 0
      else
        |r.lineage| - 1 <= Max(1, r.lineage[0]) &&
        (r.message.key == ResultTopic(None) ==> |r.lineage| - 1 == Max(1, r.lineage[0]))
  {
    Always(site, states, acts, k);
    assert Ok(site, states[k].records, i);
  }
}
