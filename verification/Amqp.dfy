/** Messages, deliveries and what a broker does with them: publishing with confirms,
    acknowledging, rejecting, redelivering and RabbitMQ's dead-lettering.

    A record is one message instance with its whole life: the queue it waits in, the
    delivery that holds it, or how it left.  `lineage` is history: the wait (or retry
    header) of every message this one continues, its own last. */
module Amqp {
  import opened Common
  import opened Topology
  import opened Routing

  datatype Reason = Expired | Rejected

  datatype Death = Death(reason: Reason, originalExpiration: Option<int>)

  datatype Fault = NoError | WorkflowFailure | PolicyViolation | StateMessage

  datatype Body =
    | AwaitScan(scan: nat, flow: Workflow, moniker: string, timestamp: int, dropBy: int)
    | ScanReport(scan: nat, flow: Workflow, moniker: string, error: Fault)
    | ScanRequest(event: nat, flow: Workflow, moniker: string)
    | ScanOutcome(event: nat, flow: Workflow, moniker: string, success: bool, scanned: bool)
    | Notice(flow: Workflow, moniker: string)

  datatype Message = Message(
    body: Body, key: string, ttl: Option<int>, retries: Option<int>, death: Option<Death>)

  /** A publish is confirmed, or answered with something else, or raises; only a confirmed one is stored. */
  datatype Answer = Confirmed | Refused | Raised

  datatype Effect =
    | Publish(exchange: Exchange, message: Message, answer: Answer)
    | ExecScan(event: nat)
    | Ack
    | Requeue
    | Reject
  {
    predicate Settles() { Ack? || Requeue? || Reject? }
  }

  /** `W` is what the outside world answers the handler of a delivery. */
  datatype Place<W> =
    | Ready(queue: Queue)
    | Held(queue: Queue, world: W, clock: int, pc: nat, sent: seq<nat>)
    | DeadLettered(to: seq<nat>, reason: Reason, after: seq<nat>)
    | Settled(how: Effect, queue: Queue, world: W, clock: int, pc: nat, sent: seq<nat>)

  datatype Record<W> = Record(message: Message, at: int, lineage: seq<int>, place: Place<W>)

  datatype State<W> = State(now: int, records: seq<Record<W>>, scans: seq<nat>)

  /** What a message adds to the history of those that continue it. */
  function Mark(m: Message): int {
    if m.retries.Some? then m.retries.value else if m.ttl.Some? then m.ttl.value else 0
  }

  function Ids(from: nat, to: nat): seq<nat>
    requires from <= to
  {
    seq(to - from, k requires 0 <= k => from + k)
  }

  ghost function Copies<W>(queues: set<Queue>, m: Message, at: int, lineage: seq<int>): seq<Record<W>> {
    if queues == {} then []
    else
      var q :| q in queues;
      [Record(m, at, lineage, Ready(q))] + Copies(queues - {q}, m, at, lineage)
  }

  /** Which queues a message under a key gets into from an exchange. */
  type Route = (Exchange, string) -> set<Queue>

  ghost function StandardRoute(tags: set<string>): Route {
    (e: Exchange, key: string) => Reached(Standard(tags), e, key)
  }

  ghost function Put<W>(route: Route, s: State<W>, e: Exchange, m: Message, lineage: seq<int>): State<W> {
    s.(records := s.records + Copies(route(e, m.key), m, s.now, lineage))
  }

  /** The time-to-live moves into the death record, so a dead letter does not expire again. */
  function Dead(m: Message, reason: Reason): Message {
    m.(ttl := None, death := Some(Death(reason, m.ttl)))
  }

  ghost function DeadLetter<W>(route: Route, s: State<W>, i: nat, dlx: Exchange, reason: Reason,
      after: seq<nat>): State<W>
    requires i < |s.records|
  {
    var r := s.records[i];
    var t := Put(route, s, dlx, Dead(r.message, reason), r.lineage);
    t.(records := t.records[i := r.(place := DeadLettered(Ids(|s.records|, |t.records|), reason, after))])
  }

  /** One effect of the handler that holds record `i`. */
  ghost function Perform<W>(route: Route, s: State<W>, i: nat, x: Effect): State<W>
    requires i < |s.records| && s.records[i].place.Held?
  {
    var r := s.records[i];
    var p := r.place;
    var settled := Settled(x, p.queue, p.world, p.clock, p.pc, p.sent);
    match x
    case Publish(e, m, answer) =>
      var t := if answer.Confirmed? then Put(route, s, e, m, r.lineage + [Mark(m)]) else s;
      t.(records := t.records[i := r.(place := Held(p.queue, p.world, p.clock, p.pc + 1, p.sent + Ids(|s.records|,
        |t.records|)))])
    case ExecScan(event) =>
      s.(scans := s.scans + [event], records := s.records[i := r.(place := Held(p.queue, p.world, p.clock, p.pc + 1,
        p.sent))])
    case Ack => s.(records := s.records[i := r.(place := settled)])
    case Requeue => s.(records := s.records[i := r.(place := Ready(p.queue))])
    case Reject =>
      if DeadLettersOf(p.queue).Some? then DeadLetter(route, s, i, DeadLettersOf(p.queue).value, Rejected, p.sent)
      else s.(records := s.records[i := r.(place := settled)])
  }

  /** A message waiting in a queue with a dead-letter exchange whose time to live is over. */
  ghost predicate Expirable<W>(s: State<W>, i: nat) {
    i < |s.records| && s.records[i].place.Ready? && DeadLettersOf(s.records[i].place.queue).Some? &&
    s.records[i].message.ttl.Some? && s.now >= s.records[i].at + s.records[i].message.ttl.value
  }

  ghost function Expire<W>(route: Route, s: State<W>, i: nat): State<W>
    requires Expirable(s, i)
  {
    DeadLetter(route, s, i, DeadLettersOf(s.records[i].place.queue).value, Expired, [])
  }

  /** A consumer takes a waiting message; `world` is everything its handler will be answered. */
  ghost function Deliver<W>(s: State<W>, i: nat, world: W): State<W>
    requires i < |s.records| && s.records[i].place.Ready?
  {
    s.(records := s.records[i := s.records[i].(place := Held(s.records[i].place.queue, world, s.now, 0, []))])
  }

  /** The consumer dies or loses its channel: the unsettled delivery goes back to its queue. */
  ghost function Crash<W>(s: State<W>, i: nat): State<W>
    requires i < |s.records| && s.records[i].place.Held?
  {
    s.(records := s.records[i := s.records[i].(place := Ready(s.records[i].place.queue))])
  }

  // ---------- a handler follows its plan ----------

  function Stored(plan: seq<Effect>): seq<Message> {
    if plan == [] then []
    else
      var x := plan[|plan| - 1];
      Stored(plan[..|plan| - 1]) + if x.Publish? && x.answer.Confirmed? then [x.message] else []
  }

  ghost predicate Unsettled(plan: seq<Effect>) {
    forall x :: x in plan ==> !x.Settles()
  }

  /** The records `sent` are exactly the messages stored by the first `pc` effects of `plan`. */
  ghost predicate Followed<W>(plan: seq<Effect>, records: seq<Record<W>>, i: nat, pc: nat, sent: seq<nat>) {
    i < |records| && pc <= |plan| && Unsettled(plan[..pc]) && |sent| == |Stored(plan[..pc])| &&
    forall k :: 0 <= k < |sent| ==>
      i < sent[k] < |records| &&
      records[sent[k]].message == Stored(plan[..pc])[k] &&
      records[sent[k]].lineage == records[i].lineage + [Mark(Stored(plan[..pc])[k])]
  }

  /** Records are only added and moved: messages and histories stay. */
  ghost predicate Grown<W>(before: seq<Record<W>>, after: seq<Record<W>>) {
    |before| <= |after| &&
    forall k :: 0 <= k < |before| ==> after[k].message == before[k].message && after[k].lineage == before[k].lineage
  }

  lemma FollowedGrows<W>(plan: seq<Effect>, before: seq<Record<W>>, after: seq<Record<W>>, i: nat, pc: nat,
      sent: seq<nat>)
    requires Followed(plan, before, i, pc, sent) && Grown(before, after)
    ensures Followed(plan, after, i, pc, sent)
  {
    forall k | 0 <= k < |sent|
      ensures i < sent[k] < |after|
      ensures after[sent[k]].message == Stored(plan[..pc])[k]
      ensures after[sent[k]].lineage == after[i].lineage + [Mark(Stored(plan[..pc])[k])]
    {
      assert after[sent[k]].message == before[sent[k]].message;
    }
  }

  lemma FollowedMore<W>(plan: seq<Effect>, records: seq<Record<W>>, i: nat, pc: nat, sent: seq<nat>, more: seq<nat>)
    requires Followed(plan, records, i, pc, sent) && pc < |plan| && !plan[pc].Settles()
    requires if plan[pc].Publish? && plan[pc].answer.Confirmed?
      then |more| == 1 && i < more[0] < |records| && records[more[0]].message == plan[pc].message &&
           records[more[0]].lineage == records[i].lineage + [Mark(plan[pc].message)]
      else more == []
    ensures Followed(plan, records, i, pc + 1, sent + more)
  {
    var was, now := plan[..pc], plan[..pc + 1];
    assert now[..|now| - 1] == was && now == was + [plan[pc]];
    assert Stored(now) == Stored(was) + if plan[pc].Publish? &&
      plan[pc].answer.Confirmed? then [plan[pc].message] else [];
    assert sent + [] == sent;
  }

  lemma PutOne<W>(route: Route, s: State<W>, e: Exchange, m: Message, lineage: seq<int>, q: Queue)
    requires route(e, m.key) == {q}
    ensures Put(route, s, e, m, lineage).records == s.records + [Record(m, s.now, lineage, Ready(q))]
    ensures Put(route, s, e, m, lineage).now == s.now && Put(route, s, e, m, lineage).scans == s.scans
  {
    var x := Copies<W>({q}, m, s.now, lineage);
    assert {q} - {q} == {};
    assert x == [Record(m, s.now, lineage, Ready(q))] + Copies<W>({}, m, s.now, lineage);
  }

  lemma PutNone<W>(route: Route, s: State<W>, e: Exchange, m: Message, lineage: seq<int>)
    requires route(e, m.key) == {}
    ensures Put(route, s, e, m, lineage) == s
  {
    assert s.records + [] == s.records;
  }

  // ---------- counting records ----------

  /** How many of the actions of a run are of a kind. */
  function HowMany<A>(acts: seq<A>, kind: A -> bool): nat {
    if acts == [] then 0 else HowMany(acts[..|acts| - 1], kind) + One(kind(acts[|acts| - 1]))
  }

  lemma HowManyMore<A>(acts: seq<A>, kind: A -> bool, k: nat)
    requires 0 < k <= |acts|
    ensures HowMany(acts[..k], kind) == HowMany(acts[..k - 1], kind) + One(kind(acts[k - 1]))
  {
    assert acts[..k][..k - 1] == acts[..k - 1];
  }

  lemma {:induction false} HowManyNone<A>(acts: seq<A>, kind: A -> bool)
    requires forall k :: 0 <= k < |acts| ==> !kind(acts[k])
    ensures HowMany(acts, kind) == 0
  {
    if acts != [] {
      HowManyNone(acts[..|acts| - 1], kind);
    }
  }

  ghost function Number<W>(rs: seq<Record<W>>, p: Record<W> -> bool): nat {
    if rs == [] then 0 else Number(rs[..|rs| - 1], p) + One(p(rs[|rs| - 1]))
  }

  lemma {:induction false} NumberJoins<W>(a: seq<Record<W>>, b: seq<Record<W>>, p: Record<W> -> bool)
    ensures Number(a + b, p) == Number(a, p) + Number(b, p)
  {
    if b == [] {
      assert a + b == a;
    } else {
      assert (a + b)[..|a + b| - 1] == a + b[..|b| - 1];
      NumberJoins(a, b[..|b| - 1], p);
    }
  }

  lemma NumberSingle<W>(r: Record<W>, p: Record<W> -> bool)
    ensures Number([r], p) == One(p(r))
  {
    assert [r][..0] == [];
  }

  lemma NumberAt<W>(rs: seq<Record<W>>, i: nat, p: Record<W> -> bool)
    requires i < |rs|
    ensures Number(rs, p) == Number(rs[..i], p) + One(p(rs[i])) + Number(rs[i + 1..], p)
  {
    NumberSingle(rs[i], p);
    NumberJoins(rs[..i], [rs[i]], p);
    NumberJoins(rs[..i] + [rs[i]], rs[i + 1..], p);
    assert rs == rs[..i] + [rs[i]] + rs[i + 1..];
  }

  /** One record moves, and others are added. */
  lemma NumberMoves<W>(rs: seq<Record<W>>, i: nat, r: Record<W>, more: seq<Record<W>>, p: Record<W> -> bool)
    requires i < |rs|
    ensures Number(rs[i := r] + more, p) == Number(rs, p) - One(p(rs[i])) + One(p(r)) + Number(more, p)
  {
    var after := rs[i := r];
    NumberAt(rs, i, p);
    NumberAt(after, i, p);
    assert after[..i] == rs[..i] && after[i + 1..] == rs[i + 1..];
    NumberJoins(after, more, p);
  }

  /** A step that moves record `i` and adds at most one. */
  lemma NumberStep<W>(before: seq<Record<W>>, after: seq<Record<W>>, i: nat, p: Record<W> -> bool)
    requires i < |before| <= |after| <= |before| + 1
    requires forall k :: 0 <= k < |before| && k != i ==> after[k] == before[k]
    ensures Number(after, p) == Number(before, p) - One(p(before[i])) + One(p(after[i])) +
      if |after| > |before| then One(p(after[|before|])) else 0
  {
    var more := after[|before|..];
    assert after == before[i := after[i]] + more;
    NumberMoves(before, i, after[i], more, p);
    if more != [] {
      NumberSingle(more[0], p);
      assert more == [more[0]];
    }
  }

  lemma {:induction false} NumberNone<W>(rs: seq<Record<W>>, p: Record<W> -> bool)
    ensures Number(rs, p) == 0 <==> forall k :: 0 <= k < |rs| ==> !p(rs[k])
  {
    if rs != [] {
      NumberNone(rs[..|rs| - 1], p);
    }
  }

  lemma {:induction false} NumberUnique<W>(rs: seq<Record<W>>, p: Record<W> -> bool)
    ensures Number(rs, p) <= 1 <==> forall i, j :: 0 <= i < |rs| && 0 <= j < |rs| && p(rs[i]) && p(rs[j]) ==> i == j
  {
    if rs != [] {
      var n := |rs| - 1;
      NumberUnique(rs[..n], p);
      NumberNone(rs[..n], p);
    }
  }

  /** What a handler has done with its channel and its delivery, in order. */
  class Session {
    var done: seq<Effect>

    constructor ()
      ensures done == []
    {
      done := [];
    }

    method Send(e: Exchange, m: Message, world: Answer) returns (answer: Answer)
      modifies this
      ensures done == old(done) + [Publish(e, m, world)] && answer == world
    {
      done := done + [Publish(e, m, world)];
      answer := world;
    }

    method Do(x: Effect)
      modifies this
      ensures done == old(done) + [x]
    {
      done := done + [x];
    }
  }

  /** The first settlement of a plan is the one that counts: a second one is refused. */
  function Fate(plan: seq<Effect>): Option<Effect> {
    if plan == [] then None else if plan[0].Settles() then Some(plan[0]) else Fate(plan[1..])
  }

  function Settlements(plan: seq<Effect>): nat {
    if plan == [] then 0 else (if plan[0].Settles() then 1 else 0) + Settlements(plan[1..])
  }

  lemma {:induction false} FateOfBoth(a: seq<Effect>, b: seq<Effect>)
    ensures Fate(a + b) == if Fate(a).Some? then Fate(a) else Fate(b)
    ensures Settlements(a + b) == Settlements(a) + Settlements(b)
  {
    if a == [] {
      assert a + b == b;
    } else {
      assert (a + b)[1..] == a[1..] + b;
      FateOfBoth(a[1..], b);
    }
  }

  lemma {:induction false} FateIs(plan: seq<Effect>, pc: nat)
    requires pc < |plan| && Unsettled(plan[..pc]) && plan[pc].Settles()
    ensures Fate(plan) == Some(plan[pc])
  {
    if pc > 0 {
      assert plan[0] in plan[..pc];
      forall x | x in plan[1..][..pc - 1] ensures !x.Settles() {
        assert x in plan[..pc];
      }
      FateIs(plan[1..], pc - 1);
    }
  }

  // ---------- short plans, written out ----------

  function StoredAt(plan: seq<Effect>, k: nat): seq<Message> {
    if k < |plan| && plan[k].Publish? && plan[k].answer.Confirmed? then [plan[k].message] else []
  }

  predicate SettlesAt(plan: seq<Effect>, k: nat) {
    k < |plan| && plan[k].Settles()
  }

  lemma {:induction false} ShortStored(p: seq<Effect>)
    requires |p| <= 3
    ensures Stored(p) == StoredAt(p, 0) + StoredAt(p, 1) + StoredAt(p, 2)
  {
    if |p| > 0 {
      var q := p[..|p| - 1];
      ShortStored(q);
      assert forall k :: 0 <= k < |q| ==> StoredAt(q, k) == StoredAt(p, k);
    }
  }

  lemma ShortFate(p: seq<Effect>)
    requires |p| <= 3
    ensures Fate(p) ==
      (if SettlesAt(p, 0) then Some(p[0]) else if SettlesAt(p, 1) then Some(p[1])
       else if SettlesAt(p, 2) then Some(p[2]) else None)
    ensures Settlements(p) ==
      (if SettlesAt(p, 0) then 1 else 0) + (if SettlesAt(p, 1) then 1 else 0) + (if SettlesAt(p, 2) then 1 else 0)
  {
    if |p| > 0 {
      var q := p[1..];
      assert |q| > 0 ==> q[0] == p[1];
      if |q| > 0 {
        var r := q[1..];
        assert |r| > 0 ==> r[0] == p[2] && r[1..] == [];
      }
    }
  }
}
