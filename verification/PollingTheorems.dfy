/** What holds of every run of the scan polling workflow. */
module PollingTheorems {
  import opened Common
  import opened Topics
  import opened Topology
  import opened Routing
  import opened Backoff
  import opened Amqp
  import opened Polling
  import opened PollingRuns

  // ---------- no token is lost ----------

  /** The record that carries on the token of record `i`, or `i` itself. */
  ghost function Heir(rs: seq<PollRecord>, i: nat): (h: nat)
    requires i < |rs|
    ensures i <= h < |rs|
  {
    match rs[i].place
    case DeadLettered(to, _, _) => if |to| == 1 && i < to[0] < |rs| then to[0] else i
    case Settled(how, _, _, _, _, sent) =>
      if how.Ack? && |sent| == 1 && i < sent[0] < |rs| &&
        rs[sent[0]].message.body == rs[i].message.body then sent[0] else i
    case _ => i
  }

  ghost function Last(rs: seq<PollRecord>, i: nat): (l: nat)
    requires i < |rs|
    ensures i <= l < |rs|
    decreases |rs| - i
  {
    if Heir(rs, i) == i then i else Last(rs, Heir(rs, i))
  }

  /** In an awaited queue, in a polling queue, or in the hands of an agent. */
  ghost predicate Present(r: PollRecord) {
    match r.place
    case Ready(q) => q in {AwaitedScans, AwaitedScansLegacy, PollingScans, PollingScansLegacy}
    case Held(_, _, _, _, _) => true
    case _ => false
  }

  /** What a delivery that ran to its settlement did with its token: carried it on, told its report, or
      ended it in one of six other ways. */
  datatype Ending = CarriedOn | Told | TooOld | Stopped | ReportRefused | Unserved | NoChannel | NotRequeued

  /** By what the handler was asked and answered. */
  ghost function EndingOf(configs: map<string, PollConfig>, m: Message, clock: int, w: PollWorld): Ending {
    if !Serves(configs, m) then Unserved
    else if clock >= m.body.dropBy then TooOld
    else if !w.channel then NoChannel
    else if w.scan.ResponseError? then Stopped
    else if Finished(w) && w.report.Confirmed? then Told
    else if Finished(w) && w.report.Refused? then ReportRefused
    else if !Waited(m) || w.republish.Raised? then NotRequeued
    else CarriedOn
  }

  ghost function RecordEnding(site: Site, r: PollRecord): Ending
    requires r.place.Settled?
  {
    EndingOf(site.configs, r.message, r.place.clock, r.place.world)
  }

  /** Its report tells what its answers say, where reports of its workflow and outcome are consumed. */
  ghost predicate HasReported(rs: seq<PollRecord>, r: PollRecord)
    requires r.message.body.AwaitScan?
  {
    r.place.Settled? && exists c :: c in r.place.sent && c < |rs| && ReportedAs(r.message.body, r.place.world, rs[c])
  }

  ghost predicate ReportedAs(body: Body, w: PollWorld, d: PollRecord)
    requires body.AwaitScan?
  {
    d.message.body.ScanReport? && Tells(w, d.message.body.error) &&
    d.message.body == ScanReport(body.scan, body.flow, body.moniker, d.message.body.error) &&
    d.place == Ready(
      if body.flow.PUSH? then GenerateSarif
      else if w.scan.Succeeded? && w.first.Passes? then PrFeedback
      else PrScanFailure)
  }

  /** What a settled delivery has stored, by its ending: the one report, the one successor, or nothing. */
  lemma EndingStores(configs: map<string, PollConfig>, m: Message, now: int, w: PollWorld, pc: nat)
    requires pc < |PollPlan(configs, m, now, w)|
    requires var x := PollPlan(configs, m, now, w)[pc]; x.Ack? || x.Reject?
    requires Unsettled(PollPlan(configs, m, now, w)[..pc])
    ensures var stored := Stored(PollPlan(configs, m, now, w)[..pc]);
      match EndingOf(configs, m, now, w)
      case Told => exists error :: Tells(w, error) && stored == [ReportMessage(m.body, error)]
      case CarriedOn =>
        stored == [Successor(m, configs[m.body.moniker], m.death.value.originalExpiration.value)]
      case _ => stored == []
    ensures EndingOf(configs, m, now, w).CarriedOn? ==> PollPlan(configs, m, now, w)[pc].Ack?
  {
    if PollPlan(configs, m, now, w)[pc].Ack? {
      FateIs(PollPlan(configs, m, now, w), pc);
      PollFate(configs, m, now, w);
      AckMeans(configs, m, now, w, pc);
    } else {
      RejectStores(configs, m, now, w, pc);
    }
  }

  lemma RejectStores(configs: map<string, PollConfig>, m: Message, now: int, w: PollWorld, pc: nat)
    requires pc < |PollPlan(configs, m, now, w)| && PollPlan(configs, m, now, w)[pc].Reject?
    requires Unsettled(PollPlan(configs, m, now, w)[..pc])
    ensures Stored(PollPlan(configs, m, now, w)[..pc]) == []
    ensures EndingOf(configs, m, now, w) !in {Told, CarriedOn}
  {
    var p := PollPlan(configs, m, now, w);
    FateIs(p, pc);
    PollFate(configs, m, now, w);
    FirstSettles(p, pc);
    assert pc <= 2;
    ShortStored(p[..pc]);
  }

  /** A record is present, or hands its token on, or has ended in a way that its answers tell; and it
      has a report exactly when it ended with it told. */
  lemma Steps(site: Site, s: PollState, i: nat)
    requires Inv(site, s) && i < |s.records| && s.records[i].message.body.AwaitScan?
    ensures var rs := s.records; var h := Heir(rs, i);
      rs[h].message.body == rs[i].message.body && rs[h].message.key == rs[i].message.key &&
      (h == i ==> Present(rs[i]) || (rs[i].place.Settled? && !RecordEnding(site, rs[i]).CarriedOn?)) &&
      (rs[i].place.Settled? ==>
        (HasReported(rs, rs[i]) <==> RecordEnding(site, rs[i]).Told?) &&
        (rs[i].place.sent == [] <==> !RecordEnding(site, rs[i]).Told? && !RecordEnding(site, rs[i]).CarriedOn?))
  {
    assert Ok(site, s.records, i, s.now);
    if s.records[i].place.Settled? {
      SettledSteps(site, s, i);
    }
  }

  lemma SettledSteps(site: Site, s: PollState, i: nat)
    requires Inv(site, s) && i < |s.records| && s.records[i].message.body.AwaitScan? && s.records[i].place.Settled?
    ensures var rs, p, ending := s.records, s.records[i].place, RecordEnding(site, s.records[i]);
      (p.sent == [] <==> !ending.Told? && !ending.CarriedOn?) &&
      (p.sent != [] ==> |p.sent| == 1 && i < p.sent[0] < |rs|) &&
      (ending.CarriedOn? ==> p.how.Ack? && SameToken(rs[i].message, rs[p.sent[0]].message)) &&
      (ending.Told? ==> p.sent[0] in p.sent && ReportedAs(rs[i].message.body, p.world, rs[p.sent[0]]))
  {
    SentByEnding(site, s, i);
    var r := s.records[i];
    if RecordEnding(site, r).Told? {
      var j := r.place.sent[0];
      var error :| Tells(r.place.world, error) && s.records[j].message == ReportMessage(r.message.body, error);
      assert Ok(site, s.records, j, s.now);
      assert r.place.sent[0] in r.place.sent;
    }
  }

  ghost predicate SameToken(m: Message, n: Message) {
    m.body == n.body && m.key == n.key
  }

  lemma SentByEnding(site: Site, s: PollState, i: nat)
    requires Inv(site, s) && i < |s.records| && s.records[i].message.body.AwaitScan? && s.records[i].place.Settled?
    ensures var rs, r, p, ending := s.records, s.records[i], s.records[i].place, RecordEnding(site, s.records[i]);
      (p.sent == [] <==> !ending.Told? && !ending.CarriedOn?) &&
      (p.sent != [] ==> |p.sent| == 1 && i < p.sent[0] < |rs|) &&
      (ending.CarriedOn? ==> p.how.Ack? && SameToken(r.message, rs[p.sent[0]].message)) &&
      (ending.Told? ==>
        exists error :: Tells(p.world, error) && rs[p.sent[0]].message == ReportMessage(r.message.body, error))
  {
    var r := s.records[i];
    var p := r.place;
    assert Ok(site, s.records, i, s.now);
    EndingStores(site.configs, r.message, p.clock, p.world, p.pc);
    var stored := Stored(PlanOf(site, r.message, p.clock, p.world)[..p.pc]);
    assert |p.sent| == |stored| && forall k :: 0 <= k < |stored| ==> s.records[p.sent[k]].message == stored[k];
  }

  lemma {:induction false} Chain(site: Site, s: PollState, i: nat)
    requires Inv(site, s) && i < |s.records| && s.records[i].message.body.AwaitScan?
    ensures var rs := s.records; var l := Last(rs, i);
      rs[l].message.body == rs[i].message.body && rs[l].message.key == rs[i].message.key && Heir(rs, l) == l
    decreases |s.records| - i
  {
    Steps(site, s, i);
    if Heir(s.records, i) != i {
      Chain(site, s, Heir(s.records, i));
    }
  }

  lemma {:induction false} RecordsStay(site: Site, states: seq<PollState>, acts: seq<Action>, j: nat, k: nat)
    requires Behaviour(site, states, acts) && j <= k < |states|
    ensures Grown(states[j].records, states[k].records)
  {
    if j < k {
      RecordsStay(site, states, acts, j, k - 1);
      Always(site, states, acts, k - 1);
      StepChanges(site, states[k - 1], acts[k - 1]);
    }
  }

  /** A start stores one token when the service name has no dot, and nothing when it has one. */
  lemma StartMoves(site: Site, s: PollState, a: Action)
    requires Wired(site.route) && Inv(site, s) && Enabled(site, s, a) && a.Start?
    ensures var q := if a.legacy then AwaitedScansLegacy else AwaitedScans;
      Apply(site, s, a).records == s.records +
        if Dotless(a.body.moniker) then [Record(AwaitMessage(a.body, a.ttl), s.now, [a.ttl], Ready(q))] else []
  {
    assert WiredFor(site.route, Await, a.body.flow, a.body.moniker);
    var e := if a.legacy then ScanInLegacy else ScanIn;
    if Dotless(a.body.moniker) {
      PutOne(site.route, s, e, AwaitMessage(a.body, a.ttl), [a.ttl],
        if a.legacy then AwaitedScansLegacy else AwaitedScans);
    } else {
      PutNone(site.route, s, e, AwaitMessage(a.body, a.ttl), [a.ttl]);
    }
  }

  /** The token that step `j` started, where that copy of it got to by state `k`: a crash may have left
      others. */
  ghost function TokenOf(states: seq<PollState>, j: nat, k: nat): nat
    requires j < k < |states| && |states[j].records| < |states[k].records|
  {
    Last(states[k].records, |states[j].records|)
  }

  lemma StartedToken(site: Site, states: seq<PollState>, acts: seq<Action>, j: nat, k: nat)
    requires Behaviour(site, states, acts) && j < k < |states| && acts[j].Start?
    ensures if Dotless(acts[j].body.moniker)
      then |states[j].records| < |states[j + 1].records| && |states[j].records| < |states[k].records| &&
        states[k].records[|states[j].records|].message.body == acts[j].body &&
        states[k].records[|states[j].records|].message.key == AwaitTopic(acts[j].body.flow, acts[j].body.moniker)
      else states[j + 1].records == states[j].records
  {
    Always(site, states, acts, j);
    StartMoves(site, states[j], acts[j]);
    RecordsStay(site, states, acts, j + 1, k);
    var n := |states[j].records|;
    if Dotless(acts[j].body.moniker) {
      assert states[k].records[n].message == states[j + 1].records[n].message;
    }
  }

  /** In every state of every run, whatever crashed and whatever was refused, a scan that was started
      under a name without a dot has its token somewhere, with its body and routing key, or the last
      delivery of it came to an ending; a scan under a dotted name never had one. */
  lemma NeverLost(site: Site, states: seq<PollState>, acts: seq<Action>, j: nat, k: nat)
    requires Behaviour(site, states, acts) && j < k < |states| && acts[j].Start?
    ensures if Dotless(acts[j].body.moniker)
      then |states[j].records| < |states[k].records| &&
        var r := states[k].records[TokenOf(states, j, k)];
        r.message.body == acts[j].body && r.message.key == AwaitTopic(acts[j].body.flow, acts[j].body.moniker) &&
        (Present(r) || (r.place.Settled? && !RecordEnding(site, r).CarriedOn?))
      else states[j + 1].records == states[j].records
  {
    StartedToken(site, states, acts, j, k);
    if Dotless(acts[j].body.moniker) {
      Always(site, states, acts, k);
      Chain(site, states[k], |states[j].records|);
      Steps(site, states[k], TokenOf(states, j, k));
    }
  }

  /** This copy of the token of a started scan has left itself, or a report. */
  ghost predicate Leaves(states: seq<PollState>, j: nat, k: nat)
    requires j < k < |states|
  {
    |states[j].records| < |states[j + 1].records| && |states[j].records| < |states[k].records| &&
    var rs := states[k].records;
    var r := rs[TokenOf(states, j, k)];
    r.message.body.AwaitScan? && (Present(r) || HasReported(rs, r))
  }

  /** The last delivery of a token ended it without a report: too old, stopped by an error response, its
      report refused, an unknown service name, no channel, or a re-enqueue that raised. */
  ghost predicate Silenced(site: Site, r: PollRecord) {
    r.place.Settled? && !RecordEnding(site, r).Told? && !RecordEnding(site, r).CarriedOn?
  }

  /** Exactly when this copy of a started scan's token has left neither itself nor a report; of the scan as a
      whole, `NoTraceIff` speaks. */
  lemma LeavesNothingIff(site: Site, states: seq<PollState>, acts: seq<Action>, j: nat, k: nat)
    requires Behaviour(site, states, acts) && j < k < |states| && acts[j].Start?
    ensures !Leaves(states, j, k) <==>
      !Dotless(acts[j].body.moniker) ||
      (|states[j].records| < |states[k].records| && Silenced(site, states[k].records[TokenOf(states, j, k)]))
  {
    NeverLost(site, states, acts, j, k);
    StartedToken(site, states, acts, j, k);
    if Dotless(acts[j].body.moniker) {
      Always(site, states, acts, k);
      Steps(site, states[k], TokenOf(states, j, k));
    }
  }

  /** Channels open, a re-enqueue is answered, if only with a refusal, and a report is not refused. */
  ghost predicate Sound(w: PollWorld) {
    w.channel && !w.republish.Raised? && !w.report.Refused?
  }

  ghost predicate Served(site: Site, s: PollState) {
    forall i :: 0 <= i < |s.records| && s.records[i].message.body.AwaitScan? ==>
      s.records[i].message.body.moniker in site.configs &&
      (s.records[i].place.Held? ==> Sound(s.records[i].place.world)) &&
      (s.records[i].place.Settled? ==> Sound(s.records[i].place.world))
  }

  ghost predicate SoundRun(site: Site, acts: seq<Action>) {
    forall k :: 0 <= k < |acts| ==>
      (acts[k].Take? ==> Sound(acts[k].world)) &&
      (acts[k].Start? && acts[k].body.AwaitScan? ==> acts[k].body.moniker in site.configs)
  }

  /** A step changes the place of at most one record, and adds at most one. */
  lemma StepChanges(site: Site, s: PollState, a: Action)
    requires Wired(site.route) && Inv(site, s) && Enabled(site, s, a)
    ensures var t := Apply(site, s, a);
      Grown(s.records, t.records) && |t.records| <= |s.records| + 1 &&
      (forall k :: 0 <= k < |s.records| && !(a.Age? && a.i == k) && !(a.Take? && a.i == k) && !(a.Work? && a.i == k) &&
        !(a.Fail? && a.i == k)
        ==> t.records[k] == s.records[k])
    ensures (a.Tick? || a.Take? || a.Fail?) ==> |Apply(site, s, a).records| == |s.records|
  {
    match a
    case Start(legacy, body, ttl) =>
      assert WiredFor(site.route, Await, body.flow, body.moniker);
      if Dotless(body.moniker) {
        PutOne(site.route, s, if legacy then ScanInLegacy else ScanIn, AwaitMessage(body, ttl), [ttl],
          if legacy then AwaitedScansLegacy else AwaitedScans);
      } else {
        PutNone(site.route, s, if legacy then ScanInLegacy else ScanIn, AwaitMessage(body, ttl), [ttl]);
      }
    case Age(i) => AgeMoves(site, s, i);
    case Work(i) => WorkChanges(site, s, i);
    case _ =>
  }

  lemma WorkChanges(site: Site, s: PollState, i: nat)
    requires Wired(site.route) && Inv(site, s) && Enabled(site, s, Work(i))
    ensures var t := Apply(site, s, Work(i));
      Grown(s.records, t.records) && |t.records| <= |s.records| + 1 &&
      (forall k :: 0 <= k < |s.records| && k != i ==> t.records[k] == s.records[k]) &&
      (!Storing(site, s, i) ==> |t.records| == |s.records|)
    ensures var p, x, q := s.records[i].place, EffectOf(site, s, i), Apply(site, s, Work(i)).records[i].place;
      q == if x.Publish? then Held(p.queue, p.world, p.clock, p.pc + 1,
        p.sent + if x.answer.Confirmed? then [|s.records|] else [])
           else if x.Requeue? then Ready(p.queue)
           else Settled(x, p.queue, p.world, p.clock, p.pc, p.sent)
  {
    var r := s.records[i];
    assert Ok(site, s.records, i, s.now);
    NoScans(site, r.message, r.place.clock, r.place.world, r.place.pc);
    assert DeadLettersOf(r.place.queue) == None;
    if Storing(site, s, i) {
      WorkMoves(site, s, i);
    } else {
      assert Ids(|s.records|, |s.records|) == [];
    }
  }

  ghost function EffectOf(site: Site, s: PollState, i: nat): Effect
    requires Enabled(site, s, Work(i))
  {
    var r := s.records[i];
    PlanOf(site, r.message, r.place.clock, r.place.world)[r.place.pc]
  }

  /** What a step adds continues a record, or reports it, or is the start of a scan. */
  lemma StepAdds(site: Site, s: PollState, a: Action)
    requires Wired(site.route) && Inv(site, s) && Enabled(site, s, a)
    requires |Apply(site, s, a).records| == |s.records| + 1
    ensures var d := Apply(site, s, a).records[|s.records|];
      d.place.Ready? &&
      match a
      case Start(_, body, _) => d.message.body == body
      case Age(i) => d.message.body == s.records[i].message.body && s.records[i].place.Ready? &&
                     Apply(site, s, a).records[i].place == DeadLettered([|s.records|], Expired, [])
      case Work(i) => Storing(site, s, i) && d.message == StoredNow(site, s, i) &&
        s.records[i].message.body.AwaitScan? &&
                      (d.message.body == s.records[i].message.body ||
                       (d.message.body.ScanReport? && d.message.body.scan == s.records[i].message.body.scan))
      case _ => false
  {
    match a
    case Start(legacy, body, ttl) =>
      assert WiredFor(site.route, Await, body.flow, body.moniker);
      if Dotless(body.moniker) {
        PutOne(site.route, s, if legacy then ScanInLegacy else ScanIn, AwaitMessage(body, ttl), [ttl],
          if legacy then AwaitedScansLegacy else AwaitedScans);
      }
    case Age(i) => AgeMoves(site, s, i);
    case Work(i) =>
      WorkChanges(site, s, i);
      WorkMoves(site, s, i);
      assert Ok(site, s.records, i, s.now);
      var r := s.records[i];
      PollStores(site.configs, r.message, r.place.clock, r.place.world, r.place.pc);
    case _ => StepChanges(site, s, a);
  }

  lemma ServedKeeps(site: Site, s: PollState, a: Action)
    requires Wired(site.route) && Inv(site, s) && Enabled(site, s, a) && Served(site, s) && SoundRun(site, [a])
    ensures Served(site, Apply(site, s, a))
  {
    var t := Apply(site, s, a);
    assert a == [a][0];
    StepChanges(site, s, a);
    if |t.records| == |s.records| + 1 {
      StepAdds(site, s, a);
      if a.Work? {
        assert Ok(site, s.records, a.i, s.now);
      }
    }
    if a.Work? {
      WorkChanges(site, s, a.i);
    }
  }

  lemma {:induction false} ServedAlways(site: Site, states: seq<PollState>, acts: seq<Action>, k: nat)
    requires Behaviour(site, states, acts) && SoundRun(site, acts) && k < |states|
    ensures Served(site, states[k])
  {
    if k > 0 {
      ServedAlways(site, states, acts, k - 1);
      Always(site, states, acts, k - 1);
      assert SoundRun(site, [acts[k - 1]]);
      ServedKeeps(site, states[k - 1], acts[k - 1]);
    }
  }

  /** With known service names without dots, and answers that are sound, crashes and refused re-enqueues
      lose nothing: every started scan has its token present, or its report stored, or was last polled
      when its time was over or when the scan could not be read. */
  lemma NothingIsLost(site: Site, states: seq<PollState>, acts: seq<Action>, j: nat, k: nat)
    requires Behaviour(site, states, acts) && SoundRun(site, acts) && j < k < |states|
    requires acts[j].Start? && Dotless(acts[j].body.moniker)
    ensures |states[j].records| < |states[k].records|
    ensures var rs := states[k].records;
      var r := rs[TokenOf(states, j, k)];
      r.message.body == acts[j].body &&
      (Present(r) || HasReported(rs, r) ||
       (r.place.Settled? && (r.place.clock >= acts[j].body.dropBy || r.place.world.scan.ResponseError?)))
  {
    NeverLost(site, states, acts, j, k);
    ServedAlways(site, states, acts, k);
    Always(site, states, acts, k);
    var r := states[k].records[TokenOf(states, j, k)];
    Steps(site, states[k], TokenOf(states, j, k));
    assert Ok(site, states[k].records, TokenOf(states, j, k), states[k].now);
  }

  // ---------- polling is bounded ----------

  /** A token re-enqueued n times fits n waits before its drop_by, which never changes. */
  lemma PollingIsBounded(site: Site, states: seq<PollState>, acts: seq<Action>, k: nat, i: nat)
    requires Behaviour(site, states, acts) && k < |states| && i < |states[k].records|
    requires states[k].records[i].message.body.AwaitScan? && states[k].records[i].message.body.moniker in site.configs
    requires |states[k].records[i].lineage| >= 2 && states[k].records[i].lineage[0] >= 0
    requires var c := site.configs[states[k].records[i].message.body.moniker]; c.multiplier >= 1 && c.cap >= 0
    ensures var r, c := states[k].records[i], site.configs[states[k].records[i].message.body.moniker];
      var n := |r.lineage| - 1;
      n * Min(r.lineage[0], c.cap) < r.message.body.dropBy - r.message.body.timestamp &&
      r.lineage[n] == Min(r.lineage[0] * Pow(c.multiplier, n), c.cap) &&
      forall m :: 0 < m < n && r.lineage[m] == c.cap ==>
        Sum(r.lineage[..m]) + (n - m) * c.cap < r.message.body.dropBy - r.message.body.timestamp
  {
    Always(site, states, acts, k);
    assert Ok(site, states[k].records, i, states[k].now);
    var body, c := states[k].records[i].message.body, site.configs[states[k].records[i].message.body.moniker];
    BoundedWaits(states[k].records[i].lineage, c, body.dropBy - body.timestamp);
  }

  lemma BoundedWaits(ttls: seq<int>, c: PollConfig, allowed: int)
    requires |ttls| >= 2 && ttls[0] >= 0 && c.multiplier >= 1 && c.cap >= 0
    requires Backed(ttls, c.multiplier, c.cap) && Sum(ttls[..|ttls| - 1]) < allowed
    ensures var n := |ttls| - 1;
      n * Min(ttls[0], c.cap) < allowed && ttls[n] == Min(ttls[0] * Pow(c.multiplier, n), c.cap) &&
      forall m :: 0 < m < n && ttls[m] == c.cap ==> Sum(ttls[..m]) + (n - m) * c.cap < allowed
  {
    var n := |ttls| - 1;
    SumIsLong(ttls, c.multiplier, c.cap, n);
    ClosedForm(ttls, c.multiplier, c.cap, n);
    forall m | 0 < m < n && ttls[m] == c.cap ensures Sum(ttls[..m]) + (n - m) * c.cap < allowed {
      SumAtCap(ttls, c.multiplier, c.cap, m, n);
    }
  }

  /** A token leaves the legacy queues at its first re-enqueue and never returns to them. */
  lemma LegacyQueuesDrain(site: Site, states: seq<PollState>, acts: seq<Action>, k: nat, i: nat)
    requires Behaviour(site, states, acts) && k < |states| && i < |states[k].records|
    requires var r := states[k].records[i]; r.message.body.AwaitScan? && |r.lineage| >= 2
    ensures match states[k].records[i].place
      case Ready(q) => q in {AwaitedScans, PollingScans}
      case Held(q, _, _, _, _) => q == PollingScans
      case Settled(_, q, _, _, _, _) => q == PollingScans
      case DeadLettered(_, _, _) => true
  {
    Always(site, states, acts, k);
    assert Ok(site, states[k].records, i, states[k].now);
  }

  // ---------- one report at most, and exactly one ----------

  /** A scan is where its one owner is: waiting, held with nothing stored yet, settled with
      nothing stored, or reported. */
  ghost predicate Owner(r: PollRecord, scan: nat) {
    match r.message.body
    case AwaitScan(x, _, _, _, _) => x == scan && (
      match r.place
      case Ready(_) => true
      case Held(_, _, _, _, sent) => sent == []
      case Settled(_, _, _, _, _, sent) => sent == []
      case DeadLettered(_, _, _) => false)
    case ScanReport(x, _, _, _) => x == scan
    case _ => false
  }

  ghost function Owns(scan: nat): PollRecord -> bool {
    (r: PollRecord) => Owner(r, scan)
  }

  /** How many tokens and reports of a scan there are. */
  ghost function Owners(s: PollState, scan: nat): nat {
    Number(s.records, Owns(scan))
  }

  /** Scans have their own ids. */
  ghost predicate FreshStep(s: PollState, a: Action) {
    a.Start? && a.body.AwaitScan? ==> forall i :: 0 <= i < |s.records| ==> !Mentions(s.records[i], a.body.scan)
  }

  ghost predicate Fresh(states: seq<PollState>, acts: seq<Action>)
    requires |states| == |acts| + 1
  {
    forall k :: 0 <= k < |acts| ==> FreshStep(states[k], acts[k])
  }

  predicate IsCrash(a: Action) {
    a.Fail?
  }

  function Crashes(acts: seq<Action>): nat {
    HowMany(acts, IsCrash)
  }

  /** Scans have their own ids and no agent crashes; publishes may still be refused or raise. */
  ghost predicate Calm(states: seq<PollState>, acts: seq<Action>)
    requires |states| == |acts| + 1
  {
    Fresh(states, acts) && forall k :: 0 <= k < |acts| ==> !acts[k].Fail?
  }

  ghost predicate Mentions(r: PollRecord, scan: nat) {
    match r.message.body
    case AwaitScan(x, _, _, _, _) => x == scan
    case ScanReport(x, _, _, _) => x == scan
    case _ => false
  }

  /** No poll stores two messages, and one that is redelivered stored none. */
  lemma StoresOnce(configs: map<string, PollConfig>, m: Message, now: int, w: PollWorld, pc: nat)
    requires pc < |PollPlan(configs, m, now, w)|
    requires var x := PollPlan(configs, m, now, w)[pc]; x.Requeue? || (x.Publish? && x.answer.Confirmed?)
    requires Unsettled(PollPlan(configs, m, now, w)[..pc])
    ensures Stored(PollPlan(configs, m, now, w)[..pc]) == []
  {
    var p := PollPlan(configs, m, now, w);
    FirstSettles(p, pc);
    assert pc <= 3;
    ShortStored(p[..pc]);
  }

  lemma WorkOwns(site: Site, s: PollState, i: nat)
    requires Wired(site.route) && Inv(site, s) && Enabled(site, s, Work(i))
    ensures var r, t, x := s.records[i], Apply(site, s, Work(i)), EffectOf(site, s, i);
      r.message.body.AwaitScan? &&
      (Storing(site, s, i) ==> r.place.sent == [] && t.records[i].place.Held? && t.records[i].place.sent != []) &&
      (x.Requeue? ==> r.place.sent == []) &&
      (!Storing(site, s, i) && !x.Requeue? ==>
        (t.records[i].place.Held? && t.records[i].place.sent == r.place.sent) ||
        (t.records[i].place.Settled? && t.records[i].place.sent == r.place.sent))
    ensures Grown(s.records, Apply(site, s, Work(i)).records)
  {
    var r := s.records[i];
    assert Ok(site, s.records, i, s.now);
    WorkChanges(site, s, i);
    var x := EffectOf(site, s, i);
    if x.Requeue? || Storing(site, s, i) {
      StoresOnce(site.configs, r.message, r.place.clock, r.place.world, r.place.pc);
    }
  }

  /** No step makes a second token or report out of one, but for a crash after something was stored. */
  lemma StepOwners(site: Site, s: PollState, a: Action, scan: nat)
    requires Wired(site.route) && Inv(site, s) && Enabled(site, s, a) && FreshStep(s, a)
    ensures Owners(Apply(site, s, a), scan) <=
      if a.Start? && a.body.scan == scan then 1 else Owners(s, scan) + One(a.Fail?)
  {
    var p := Owns(scan);
    match a
    case Tick(_) =>
    case Start(_, body, _) =>
      StartMoves(site, s, a);
      var more := Apply(site, s, a).records[|s.records|..];
      assert Apply(site, s, a).records == s.records + more;
      NumberJoins(s.records, more, p);
      if more != [] {
        NumberSingle(more[0], p);
        assert more == [more[0]];
      }
      if body.scan == scan {
        NumberNone(s.records, p);
      }
    case Age(i) => AgeMoves(site, s, i); MovesOwners(site, s, a, i, scan);
    case Take(i, _) => MovesOwners(site, s, a, i, scan);
    case Work(i) => WorkChanges(site, s, i); MovesOwners(site, s, a, i, scan);
    case Fail(i) => MovesOwners(site, s, a, i, scan);
  }

  /** The record that a step moves, and the one it may add. */
  lemma MovesOwners(site: Site, s: PollState, a: Action, i: nat, scan: nat)
    requires Wired(site.route) && Inv(site, s) && Enabled(site, s, a) && i < |s.records|
    requires a == Age(i) || (a.Take? && a.i == i) || a == Work(i) || a == Fail(i)
    ensures Owners(Apply(site, s, a), scan) <= Owners(s, scan) + One(a.Fail?)
  {
    StepChanges(site, s, a);
    NumberStep(s.records, Apply(site, s, a).records, i, Owns(scan));
    if |Apply(site, s, a).records| == |s.records| {
      MoveOwns(site, s, a, i, scan);
    } else {
      AddOwns(site, s, a, i, scan);
    }
  }

  lemma MoveOwns(site: Site, s: PollState, a: Action, i: nat, scan: nat)
    requires Wired(site.route) && Inv(site, s) && Enabled(site, s, a) && i < |s.records|
    requires a == Age(i) || (a.Take? && a.i == i) || a == Work(i) || a == Fail(i)
    requires |Apply(site, s, a).records| == |s.records|
    ensures !a.Fail? && Owner(Apply(site, s, a).records[i], scan) ==> Owner(s.records[i], scan)
  {
    assert Ok(site, s.records, i, s.now);
    match a
    case Work(_) => WorkOwns(site, s, i); WorkChanges(site, s, i);
    case Age(_) => AgeMoves(site, s, i);
    case _ =>
  }

  lemma AddOwns(site: Site, s: PollState, a: Action, i: nat, scan: nat)
    requires Wired(site.route) && Inv(site, s) && Enabled(site, s, a) && i < |s.records|
    requires a == Age(i) || (a.Take? && a.i == i) || a == Work(i) || a == Fail(i)
    requires |Apply(site, s, a).records| == |s.records| + 1
    ensures var t := Apply(site, s, a);
      !Owner(t.records[i], scan) && (Owner(t.records[|s.records|], scan) ==> Owner(s.records[i], scan))
  {
    StepChanges(site, s, a);
    StepAdds(site, s, a);
    match a
    case Work(_) => WorkOwns(site, s, i);
    case Age(_) => AgeMoves(site, s, i);
    case _ =>
  }

  /** Tokens and reports of one scan number at most one more than the crashes there were. */
  lemma {:induction false} OwnersBounded(site: Site, states: seq<PollState>, acts: seq<Action>, k: nat, scan: nat)
    requires Behaviour(site, states, acts) && Fresh(states, acts) && k < |states|
    ensures Owners(states[k], scan) <= 1 + Crashes(acts[..k])
  {
    if k > 0 {
      OwnersBounded(site, states, acts, k - 1, scan);
      Always(site, states, acts, k - 1);
      StepOwners(site, states[k - 1], acts[k - 1], scan);
      HowManyMore(acts, IsCrash, k);
    }
  }

  lemma OneOwner(site: Site, states: seq<PollState>, acts: seq<Action>, k: nat, scan: nat)
    requires Behaviour(site, states, acts) && Calm(states, acts) && k < |states|
    ensures var rs := states[k].records;
      forall i, j :: 0 <= i < |rs| && 0 <= j < |rs| && Owner(rs[i], scan) && Owner(rs[j], scan) ==> i == j
  {
    OwnersBounded(site, states, acts, k, scan);
    HowManyNone(acts[..k], IsCrash);
    NumberUnique(states[k].records, Owns(scan));
    var rs, p := states[k].records, Owns(scan);
    forall i, j | 0 <= i < |rs| && 0 <= j < |rs| && Owner(rs[i], scan) && Owner(rs[j], scan) ensures i == j {
      assert p(rs[i]) && p(rs[j]);
    }
  }

  /** The owner a record leads to. */
  lemma {:induction false} FindOwner(site: Site, s: PollState, i: nat) returns (o: nat)
    requires Inv(site, s) && i < |s.records| && s.records[i].message.body.AwaitScan?
    ensures o < |s.records| && Owner(s.records[o], s.records[i].message.body.scan)
    decreases |s.records| - i
  {
    var rs := s.records;
    var r := rs[i];
    o := i;
    assert Ok(site, rs, i, s.now);
    if !Owner(r, r.message.body.scan) {
      var next := match r.place case DeadLettered(to, _, _) => to[0] case Held(_, _, _, _,
        sent) => sent[0] case Settled(_, _, _, _, _, sent) => sent[0];
      if !r.place.DeadLettered? {
        SentContinues(site, s, i);
      }
      if rs[next].message.body.AwaitScan? {
        o := FindOwner(site, s, next);
      } else {
        o := next;
      }
    }
  }

  lemma SentContinues(site: Site, s: PollState, i: nat)
    requires Inv(site, s) && i < |s.records| && s.records[i].message.body.AwaitScan?
    requires (s.records[i].place.Held? || s.records[i].place.Settled?) && s.records[i].place.sent != []
    ensures var rs, j := s.records, s.records[i].place.sent[0];
      i < j < |rs| && (rs[j].message.body == rs[i].message.body ||
        (rs[j].message.body.ScanReport? && rs[j].message.body.scan == rs[i].message.body.scan))
  {
    var r := s.records[i];
    assert Ok(site, s.records, i, s.now);
    var plan := PlanOf(site, r.message, r.place.clock, r.place.world);
    FirstSettles(plan, r.place.pc);
    assert r.place.pc <= 3;
    ShortStored(plan[..r.place.pc]);
    var m := Stored(plan[..r.place.pc])[0];
    var c :| 0 <= c < r.place.pc && plan[c].Publish? && plan[c].message == m;
    PollStores(site.configs, r.message, r.place.clock, r.place.world, c);
  }

  /** Conservation: in a run without crashes every started scan has exactly one owner at every
      moment, so it is reported at most once, and is not reported while it is polled or after it ended. */
  lemma ExactlyOneOwner(site: Site, states: seq<PollState>, acts: seq<Action>, k: nat, i: nat)
    requires Behaviour(site, states, acts) && Calm(states, acts) && k < |states|
    requires i < |states[k].records| && states[k].records[i].message.body.AwaitScan?
    ensures var rs, scan := states[k].records, states[k].records[i].message.body.scan;
      exists o :: 0 <= o < |rs| && Owner(rs[o], scan) && forall j :: 0 <= j < |rs| && Owner(rs[j], scan) ==> j == o
  {
    Always(site, states, acts, k);
    OneOwner(site, states, acts, k, states[k].records[i].message.body.scan);
    var o := FindOwner(site, states[k], i);
  }

  // ---------- a scan that nobody knows of any more ----------

  /** A token on its way, or a report. */
  ghost predicate Live(r: PollRecord, scan: nat) {
    Owner(r, scan) && !r.place.Settled?
  }

  ghost predicate OwnIds(acts: seq<Action>) {
    forall a, b :: 0 <= a < b < |acts| && Starts(acts[a]) && Starts(acts[b]) ==> acts[a].body.scan != acts[b].body.scan
  }

  predicate Starts(a: Action) {
    a.Start? && a.body.AwaitScan?
  }

  ghost predicate Started(acts: seq<Action>, scan: nat) {
    exists a :: 0 <= a < |acts| && Starts(acts[a]) && acts[a].body.scan == scan && Dotless(acts[a].body.moniker)
  }

  /** Whatever mentions a scan goes back to a start under a name without a dot. */
  lemma {:induction false} MentionedWasStarted(site: Site, states: seq<PollState>, acts: seq<Action>, k: nat, i: nat,
      scan: nat)
    requires Behaviour(site, states, acts) && k < |states| && i < |states[k].records| &&
      Mentions(states[k].records[i], scan)
    ensures Started(acts[..k], scan)
  {
    if k > 0 {
      var s, a := states[k - 1], acts[k - 1];
      Always(site, states, acts, k - 1);
      StepChanges(site, s, a);
      if i < |s.records| {
        assert states[k].records[i].message == s.records[i].message;
        MentionedWasStarted(site, states, acts, k - 1, i, scan);
        StartedBefore(acts, k, scan);
      } else {
        StepAdds(site, s, a);
        if a.Start? {
          StartMoves(site, s, a);
          assert acts[..k][k - 1] == a;
        } else {
          MentionedWasStarted(site, states, acts, k - 1, a.i, scan);
          StartedBefore(acts, k, scan);
        }
      }
    }
  }

  lemma StartedBefore(acts: seq<Action>, k: nat, scan: nat)
    requires 0 < k <= |acts| && Started(acts[..k - 1], scan)
    ensures Started(acts[..k], scan)
  {
    var a :| 0 <= a < k - 1 && Starts(acts[..k - 1][a]) && acts[..k - 1][a].body.scan == scan &&
      Dotless(acts[..k - 1][a].body.moniker);
    assert acts[..k][a] == acts[..k - 1][a];
  }

  lemma NeverStarted(acts: seq<Action>, j: nat, k: nat)
    requires OwnIds(acts) && j < k <= |acts| && Starts(acts[j]) && !Dotless(acts[j].body.moniker)
    ensures !Started(acts[..k], acts[j].body.scan)
  {
    forall a | 0 <= a < k && Starts(acts[a]) && acts[a].body.scan == acts[j].body.scan
      ensures !Dotless(acts[a].body.moniker) {
      assert a == j;
    }
  }

  /** In a run without crashes: exactly when a started scan has no token on its way and no report
      anywhere. Its name has a dot, or a delivery of its token ended in silence. */
  lemma NoTraceIff(site: Site, states: seq<PollState>, acts: seq<Action>, j: nat, k: nat)
    requires Behaviour(site, states, acts) && Calm(states, acts) && OwnIds(acts) && j < k < |states| && acts[j].Start?
    ensures var rs, body := states[k].records, acts[j].body;
      (forall i :: 0 <= i < |rs| ==> !Live(rs[i], body.scan)) <==>
      !Dotless(body.moniker) ||
      exists o :: 0 <= o < |rs| && rs[o].message.body.AwaitScan? && rs[o].message.body.scan == body.scan &&
        Silenced(site, rs[o])
  {
    var rs, scan := states[k].records, acts[j].body.scan;
    Always(site, states, acts, k);
    OneOwner(site, states, acts, k, scan);
    if Dotless(acts[j].body.moniker) {
      StartedToken(site, states, acts, j, k);
      var o := FindOwner(site, states[k], |states[j].records|);
      forall i | 0 <= i < |rs| && rs[i].message.body.AwaitScan? && rs[i].message.body.scan == scan &&
        Silenced(site, rs[i]) ensures i == o {
        Steps(site, states[k], i);
      }
      if rs[o].place.Settled? {
        assert Ok(site, rs, o, states[k].now);
        Steps(site, states[k], o);
      } else {
        assert Live(rs[o], scan);
      }
    } else {
      NeverStarted(acts, j, k);
      forall i | 0 <= i < |rs| ensures !Live(rs[i], scan) {
        if Mentions(rs[i], scan) {
          MentionedWasStarted(site, states, acts, k, i, scan);
        }
      }
    }
  }

  /** Acknowledged in time, after a finished scan was reported and that confirmed. */
  ghost predicate Reported(r: PollRecord)
    requires r.message.body.AwaitScan?
  {
    r.place.Settled? && r.place.how.Ack? && r.place.clock < r.message.body.dropBy &&
    Finished(r.place.world) && r.place.world.report.Confirmed?
  }

  /** A finished poll whose report was confirmed has put one report of what it found into the one queue of its
      workflow and outcome; in a run without crashes no other report of the scan exists. */
  lemma ReportedExactlyOnce(site: Site, states: seq<PollState>, acts: seq<Action>, k: nat, i: nat)
    requires Behaviour(site, states, acts) && k < |states| && i < |states[k].records|
    requires states[k].records[i].message.body.AwaitScan? && Reported(states[k].records[i])
    ensures var rs := states[k].records; var r := rs[i];
      exists j :: 0 <= j < |rs| && ReportedAs(r.message.body, r.place.world, rs[j]) &&
        (Calm(states, acts) ==>
          forall o | 0 <= o < |rs| && rs[o].message.body.ScanReport? ::
            rs[o].message.body.scan == r.message.body.scan ==> o == j)
  {
    Always(site, states, acts, k);
    var rs := states[k].records;
    var scan := rs[i].message.body.scan;
    assert Ok(site, rs, i, states[k].now);
    PollFate(site.configs, rs[i].message, rs[i].place.clock, rs[i].place.world);
    FateIs(PlanOf(site, rs[i].message, rs[i].place.clock, rs[i].place.world), rs[i].place.pc);
    Steps(site, states[k], i);
    var j :| j in rs[i].place.sent && j < |rs| && ReportedAs(rs[i].message.body, rs[i].place.world, rs[j]);
    if Calm(states, acts) {
      OneOwner(site, states, acts, k, scan);
      forall o | 0 <= o < |rs| && rs[o].message.body.ScanReport? && rs[o].message.body.scan == scan ensures o == j {
        assert Owner(rs[o], scan) && Owner(rs[j], scan);
      }
    }
  }
}
