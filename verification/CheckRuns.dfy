/** The check run a pull request shows on GitHub: created by pending and update events, moved
    forward by the events that find it, closed by results. */
module CheckRuns {
  import opened Common

  datatype Status = Queued | InProgress | Completed
  {
    function Rank(): nat {
      match this
      case Queued => 0
      case InProgress => 1
      case Completed => 2
    }
  }

  datatype Conclusion = SuccessConclusion | FailureConclusion

  datatype Run = Run(id: nat, name: string, sha: string, status: Status, conclusion: Option<Conclusion>)

  datatype Event = Update | Pending | Failure | Success | Unrecoverable | PrescanFailure

  /** `sha`: the head the event names, if any; `listing`: the ids the service lists for a status;
      `readable`, `writable`: the app may read and write checks. */
  datatype World = World(sha: Option<string>, listing: Status -> seq<nat>, readable: bool, writable: bool)

  /** Which status an event looks for, and what it makes of the run it finds. */
  function Sought(e: Event): Option<Status> {
    match e
    case Update => Some(Queued)
    case Pending => None
    case PrescanFailure => Some(Queued)
    case _ => Some(InProgress)
  }

  function Target(e: Event): Status {
    match e
    case Update => InProgress
    case Pending => Queued
    case _ => Completed
  }

  function Verdict(e: Event): Option<Conclusion> {
    match e
    case Update => None
    case Pending => None
    case Success => Some(SuccessConclusion)
    case _ => Some(FailureConclusion)
  }

  function Popped(ids: seq<nat>): Option<nat> {
    if ids == [] then None else Some(ids[|ids| - 1])
  }

  /** A check run that an event's search could find. */
  predicate Matches(r: Run, name: string, sha: string, status: Status) {
    r.name == name && r.sha == sha && r.status == status
  }

  /** The service lists exactly the runs of the name, head and status that are asked for. */
  ghost predicate Truthful(runs: seq<Run>, name: string, w: World) {
    w.sha.Some? ==> forall status ::
      (forall id :: id in w.listing(status) ==>
        exists i :: 0 <= i < |runs| && runs[i].id == id && Matches(runs[i], name, w.sha.value, status)) &&
      (w.listing(status) == [] ==> forall i :: 0 <= i < |runs| ==> !Matches(runs[i], name, w.sha.value, status))
  }

  datatype Checks = Checks(runs: seq<Run>, nextId: nat)

  ghost predicate Valid(c: Checks) {
    (forall i, j :: 0 <= i < j < |c.runs| ==> c.runs[i].id != c.runs[j].id) &&
    forall i :: 0 <= i < |c.runs| ==>
      c.runs[i].id < c.nextId && (c.runs[i].conclusion.Some? <==> c.runs[i].status.Completed?)
  }

  function SearchFor(status: Status, w: World): Option<nat> {
    if w.sha.Some? && w.readable then Popped(w.listing(status)) else None
  }

  function Patched(r: Run, e: Event): Run {
    r.(status := Target(e), conclusion := Verdict(e))
  }

  function PatchedAt(runs: seq<Run>, id: nat, e: Event): seq<Run> {
    if runs == [] then []
    else
      var r := runs[|runs| - 1];
      PatchedAt(runs[..|runs| - 1], id, e) + [if r.id == id then Patched(r, e) else r]
  }

  function Created(c: Checks, name: string, sha: string, e: Event): Checks {
    Checks(c.runs + [Run(c.nextId, name, sha, Target(e), Verdict(e))], c.nextId + 1)
  }

  /** What an event makes of the check runs. */
  function Handled(c: Checks, name: string, e: Event, w: World): Checks {
    var id := if Sought(e).Some? then SearchFor(Sought(e).value, w) else None;
    if id.Some? then if w.writable then c.(runs := PatchedAt(c.runs, id.value, e)) else c
    else if (e.Update? || e.Pending?) && w.sha.Some? && w.writable then Created(c, name, w.sha.value, e)
    else c
  }

  class ChecksService {
    const checkName: string
    /** What the service keeps for the repository. */
    var checks: Checks

    constructor (checkName: string, checks: Checks)
      ensures this.checkName == checkName && this.checks == checks
    {
      this.checkName := checkName;
      this.checks := checks;
    }

    method FindRunningCheck(status: Status, w: World) returns (id: Option<nat>)
      ensures id == SearchFor(status, w)
    {
      if w.sha.None? || !w.readable {
        return None;
      }
      var found := w.listing(status);
      if |found| > 0 {
        return Some(found[|found| - 1]);
      }
      id := None;
    }

    method UpdateRun(e: Event, w: World, id: nat)
      modifies this`checks
      ensures checks == if w.writable then old(checks).(runs := PatchedAt(old(checks).runs, id, e)) else old(checks)
    {
      if w.writable {
        checks := checks.(runs := PatchedAt(checks.runs, id, e));
      }
    }

    method CreateRun(e: Event, w: World)
      modifies this`checks
      ensures checks == if w.sha.Some? &&
        w.writable then Created(old(checks), checkName, w.sha.value, e) else old(checks)
    {
      if w.sha.Some? && w.writable {
        checks := Created(checks, checkName, w.sha.value, e);
      }
    }

    method ExecPrScanUpdateDecorate(w: World)
      modifies this`checks
      ensures checks == Handled(old(checks), checkName, Update, w)
    {
      var id := FindRunningCheck(Queued, w);
      if id.None? {
        CreateRun(Update, w);
      } else {
        UpdateRun(Update, w, id.value);
      }
    }

    method ExecPrScanPendingDecorate(w: World)
      modifies this`checks
      ensures checks == Handled(old(checks), checkName, Pending, w)
    {
      CreateRun(Pending, w);
    }

    /** Failure, success and an unrecoverable error close the run in progress. */
    method ExecPrResult(e: Event, w: World)
      requires e.Failure? || e.Success? || e.Unrecoverable?
      modifies this`checks
      ensures checks == Handled(old(checks), checkName, e, w)
    {
      var id := FindRunningCheck(InProgress, w);
      if id.Some? {
        UpdateRun(e, w, id.value);
      }
    }

    method ExecPrPrescanFailure(w: World)
      modifies this`checks
      ensures checks == Handled(old(checks), checkName, PrescanFailure, w)
    {
      var id := FindRunningCheck(Queued, w);
      if id.Some? {
        UpdateRun(PrescanFailure, w, id.value);
      }
    }
  }

  // ---------- forward only ----------

  ghost predicate Forward(a: Run, b: Run) {
    a.id == b.id && a.name == b.name && a.sha == b.sha && a.status.Rank() <= b.status.Rank() &&
    (a.status.Completed? ==> a == b)
  }

  ghost predicate Advanced(a: seq<Run>, b: seq<Run>) {
    |a| <= |b| && forall i :: 0 <= i < |a| ==> Forward(a[i], b[i])
  }

  lemma {:induction false} PatchedIs(runs: seq<Run>, id: nat, e: Event)
    ensures |PatchedAt(runs, id, e)| == |runs|
    ensures forall i :: 0 <= i < |runs| ==>
      PatchedAt(runs, id, e)[i] == if runs[i].id == id then Patched(runs[i], e) else runs[i]
  {
    if runs != [] {
      PatchedIs(runs[..|runs| - 1], id, e);
    }
  }

  /** An event moves what it finds forward, of this name and head only, and adds at most one run. */
  lemma EventAdvances(c: Checks, name: string, e: Event, w: World)
    requires Valid(c) && Truthful(c.runs, name, w)
    ensures var d := Handled(c, name, e, w);
      Valid(d) && Advanced(c.runs, d.runs) && |d.runs| <= |c.runs| + 1 &&
      forall i :: 0 <= i < |c.runs| && (c.runs[i].name != name || w.sha != Some(c.runs[i].sha)) ==>
        d.runs[i] == c.runs[i]
  {
    var id := if Sought(e).Some? then SearchFor(Sought(e).value, w) else None;
    if id.Some? {
      assert id.value in w.listing(Sought(e).value);
      PatchAdvances(c, name, e, w.sha.value, id.value);
    }
  }

  /** What a run says after an event that changed it, and which one an event changes: the last that it was listed
      in the status it looks for.  An update has it in progress; a success completes it as one, and every other
      result as a failure.  What an event adds is queued when it is pending and in progress when it updates. */
  lemma EventSets(c: Checks, name: string, e: Event, w: World, i: nat)
    requires Valid(c) && Truthful(c.runs, name, w)
    requires i < |Handled(c, name, e, w).runs| && (i < |c.runs| ==> Handled(c, name, e, w).runs[i] != c.runs[i])
    ensures var r := Handled(c, name, e, w).runs[i];
      w.writable && r.name == name && w.sha == Some(r.sha) &&
      match e
      case Pending => i >= |c.runs| && r.status.Queued? && r.conclusion.None?
      case Update => r.status.InProgress? && r.conclusion.None? && (i < |c.runs| ==> LastListed(c.runs[i], Queued, w))
      case _ =>
        i < |c.runs| && r.status.Completed? &&
        r.conclusion == Some(if e.Success? then SuccessConclusion else FailureConclusion) &&
        LastListed(c.runs[i], if e.PrescanFailure? then Queued else InProgress, w)
  {
    var id := if Sought(e).Some? then SearchFor(Sought(e).value, w) else None;
    EventAdvances(c, name, e, w);
    if id.Some? {
      assert id.value in w.listing(Sought(e).value);
      var k :| 0 <= k < |c.runs| && c.runs[k].id == id.value &&
        Matches(c.runs[k], name, w.sha.value, Sought(e).value);
      PatchedIs(c.runs, id.value, e);
      assert i == k;
    }
  }

  ghost predicate LastListed(r: Run, status: Status, w: World) {
    w.readable && r.status == status && w.listing(status) != [] &&
    r.id == w.listing(status)[|w.listing(status)| - 1]
  }

  lemma PatchAdvances(c: Checks, name: string, e: Event, sha: string, id: nat)
    requires Valid(c) && Sought(e).Some?
    requires exists k :: 0 <= k < |c.runs| && c.runs[k].id == id && Matches(c.runs[k], name, sha, Sought(e).value)
    ensures var d := c.(runs := PatchedAt(c.runs, id, e));
      Valid(d) && Advanced(c.runs, d.runs) && |d.runs| == |c.runs| &&
      forall i :: 0 <= i < |c.runs| && (c.runs[i].name != name || c.runs[i].sha != sha) ==> d.runs[i] == c.runs[i]
  {
    PatchedIs(c.runs, id, e);
    var k :| 0 <= k < |c.runs| && c.runs[k].id == id && Matches(c.runs[k], name, sha, Sought(e).value);
    assert forall i :: 0 <= i < |c.runs| && c.runs[i].id == id ==> i == k;
  }

  datatype Act = Act(event: Event, world: World)

  ghost predicate Behaviour(name: string, states: seq<Checks>, acts: seq<Act>) {
    |states| == |acts| + 1 && Valid(states[0]) &&
    forall k :: 0 <= k < |acts| ==>
      Truthful(states[k].runs, name, acts[k].world) &&
        states[k + 1] == Handled(states[k], name, acts[k].event, acts[k].world)
  }

  lemma ForwardTransitive(a: seq<Run>, b: seq<Run>, c: seq<Run>)
    requires Advanced(a, b) && Advanced(b, c)
    ensures Advanced(a, c)
  {
    forall i | 0 <= i < |a| ensures Forward(a[i], c[i]) {
      assert Forward(a[i], b[i]) && Forward(b[i], c[i]);
    }
  }

  /** Over every sequence of events, check runs only move forward, a completed one is never patched
      again, and exactly the completed ones have a conclusion. */
  lemma {:induction false} RunsOnlyMoveForward(name: string, states: seq<Checks>, acts: seq<Act>, k: nat, l: nat)
    requires Behaviour(name, states, acts) && k <= l < |states|
    ensures Valid(states[l]) && Advanced(states[k].runs, states[l].runs)
    decreases l
  {
    if k < l {
      RunsOnlyMoveForward(name, states, acts, k, l - 1);
      EventAdvances(states[l - 1], name, acts[l - 1].event, acts[l - 1].world);
      ForwardTransitive(states[k].runs, states[l - 1].runs, states[l].runs);
    } else if l > 0 {
      RunsOnlyMoveForward(name, states, acts, l - 1, l - 1);
      EventAdvances(states[l - 1], name, acts[l - 1].event, acts[l - 1].world);
    }
  }

  // ---------- counting ----------

  function Count(runs: seq<Run>, name: string, sha: string, status: Status): nat {
    if runs == [] then 0
    else Count(runs[..|runs| - 1], name, sha, status) + if Matches(runs[|runs| - 1], name, sha, status) then 1 else 0
  }

  datatype Tally = Tally(queued: nat, running: nat, completed: nat)

  function TallyOf(runs: seq<Run>, name: string, sha: string): Tally {
    Tally(Count(runs, name, sha, Queued), Count(runs, name, sha, InProgress), Count(runs, name, sha, Completed))
  }

  /** An event and whether the app may then read and write checks. */
  datatype Seen = Seen(event: Event, readable: bool, writable: bool)

  /** The simple form: three counters. */
  function Counted(t: Tally, x: Seen): Tally {
    if !x.writable then t
    else match x.event
      case Pending => t.(queued := t.queued + 1)
      case Update =>
        if x.readable && t.queued > 0 then t.(queued := t.queued - 1, running := t.running + 1)
        else t.(running := t.running + 1)
      case PrescanFailure =>
        if x.readable && t.queued > 0 then t.(queued := t.queued - 1, completed := t.completed + 1) else t
      case _ =>
        if x.readable && t.running > 0 then t.(running := t.running - 1, completed := t.completed + 1) else t
  }

  lemma {:induction false} CountZeroIff(runs: seq<Run>, name: string, sha: string, status: Status)
    ensures Count(runs, name, sha, status) == 0 <==> forall i :: 0 <= i < |runs| ==>
      !Matches(runs[i], name, sha, status)
  {
    if runs != [] {
      CountZeroIff(runs[..|runs| - 1], name, sha, status);
    }
  }

  lemma CountMore(runs: seq<Run>, r: Run, name: string, sha: string, status: Status)
    ensures Count(runs + [r], name, sha, status) == Count(runs, name, sha, status) + if Matches(r, name, sha,
      status) then 1 else 0
  {
    assert (runs + [r])[..|runs|] == runs;
  }

  lemma {:induction false} PatchCounts(runs: seq<Run>, id: nat, e: Event, name: string, sha: string, k: nat,
      status: Status)
    requires k < |runs| && runs[k].id == id && runs[k].name == name && runs[k].sha == sha
    requires forall i :: 0 <= i < |runs| && runs[i].id == id ==> i == k
    ensures Count(PatchedAt(runs, id, e), name, sha, status) ==
      Count(runs, name, sha,
        status) - (if runs[k].status == status then 1 else 0) + (if Target(e) == status then 1 else 0)
  {
    var n := |runs| - 1;
    var front, out := runs[..n], PatchedAt(runs, id, e);
    var last := if runs[n].id == id then Patched(runs[n], e) else runs[n];
    assert out == PatchedAt(front, id, e) + [last];
    CountMore(PatchedAt(front, id, e), last, name, sha, status);
    assert runs == front + [runs[n]];
    CountMore(front, runs[n], name, sha, status);
    if k < n {
      PatchCounts(front, id, e, name, sha, k, status);
    } else {
      PatchesNone(front, id, e);
    }
  }

  lemma {:induction false} PatchesNone(runs: seq<Run>, id: nat, e: Event)
    requires forall i :: 0 <= i < |runs| ==> runs[i].id != id
    ensures PatchedAt(runs, id, e) == runs
  {
    PatchedIs(runs, id, e);
  }

  lemma CreateCounts(c: Checks, name: string, sha: string, e: Event, status: Status)
    ensures Count(Created(c, name, sha, e).runs, name, sha, status) ==
      Count(c.runs, name, sha, status) + if Target(e) == status then 1 else 0
  {
    assert Created(c, name, sha, e).runs[..|c.runs|] == c.runs;
  }

  /** A patched run leaves its status for the event's. */
  lemma PatchTallies(c: Checks, name: string, e: Event, sha: string, id: nat)
    requires Valid(c) && Sought(e).Some?
    requires exists i :: 0 <= i < |c.runs| && c.runs[i].id == id && Matches(c.runs[i], name, sha, Sought(e).value)
    ensures TallyOf(PatchedAt(c.runs, id, e), name, sha) == Counted(TallyOf(c.runs, name, sha), Seen(e, true, true))
  {
    var k :| 0 <= k < |c.runs| && c.runs[k].id == id && Matches(c.runs[k], name, sha, Sought(e).value);
    CountZeroIff(c.runs, name, sha, Sought(e).value);
    PatchCounts(c.runs, id, e, name, sha, k, Queued);
    PatchCounts(c.runs, id, e, name, sha, k, InProgress);
    PatchCounts(c.runs, id, e, name, sha, k, Completed);
  }

  lemma CreateTallies(c: Checks, name: string, e: Event, sha: string)
    ensures TallyOf(Created(c, name, sha, e).runs, name, sha) ==
      var t := TallyOf(c.runs, name, sha);
      match Target(e)
      case Queued => t.(queued := t.queued + 1)
      case InProgress => t.(running := t.running + 1)
      case Completed => t.(completed := t.completed + 1)
  {
    CreateCounts(c, name, sha, e, Queued);
    CreateCounts(c, name, sha, e, InProgress);
    CreateCounts(c, name, sha, e, Completed);
  }

  function SeenOf(a: Act): Seen {
    Seen(a.event, a.world.readable, a.world.writable)
  }

  /** The runs of the head that an event names follow the three counters. */
  lemma EventCounts(c: Checks, name: string, a: Act)
    requires Valid(c) && Truthful(c.runs, name, a.world) && a.world.sha.Some?
    ensures var sha := a.world.sha.value;
      TallyOf(Handled(c, name, a.event, a.world).runs, name, sha) == Counted(TallyOf(c.runs, name, sha), SeenOf(a))
  {
    var e, w := a.event, a.world;
    var id := if Sought(e).Some? then SearchFor(Sought(e).value, w) else None;
    if id.Some? {
      assert id.value in w.listing(Sought(e).value);
      PatchTallies(c, name, e, w.sha.value, id.value);
    } else {
      if Sought(e).Some? {
        CountZeroIff(c.runs, name, w.sha.value, Sought(e).value);
      }
      CreateTallies(c, name, e, w.sha.value);
    }
  }

  lemma {:induction false} CountSame(a: seq<Run>, b: seq<Run>, name: string, sha: string, status: Status)
    requires |a| == |b|
    requires forall i :: 0 <= i < |a| ==> (Matches(a[i], name, sha, status) <==> Matches(b[i], name, sha, status))
    ensures Count(a, name, sha, status) == Count(b, name, sha, status)
  {
    if a != [] {
      CountSame(a[..|a| - 1], b[..|b| - 1], name, sha, status);
    }
  }

  lemma CountKept(before: seq<Run>, after: seq<Run>, name: string, sha: string, status: Status)
    requires |before| <= |after| <= |before| + 1
    requires forall i :: 0 <= i < |before| ==>
      (Matches(after[i], name, sha, status) <==> Matches(before[i], name, sha, status))
    requires |after| > |before| ==> after[|before|].sha != sha
    ensures Count(after, name, sha, status) == Count(before, name, sha, status)
  {
    var n := |before|;
    CountSame(after[..n], before, name, sha, status);
    if |after| > n {
      CountMore(after[..n], after[n], name, sha, status);
      assert after == after[..n] + [after[n]];
    } else {
      assert after == after[..n];
    }
  }

  /** An event that names another head, or none, keeps the count. */
  lemma OthersKeepCount(c: Checks, name: string, sha: string, a: Act, status: Status)
    requires Valid(c) && Truthful(c.runs, name, a.world) && a.world.sha != Some(sha)
    ensures Count(Handled(c, name, a.event, a.world).runs, name, sha, status) == Count(c.runs, name, sha, status)
  {
    var runs := Handled(c, name, a.event, a.world).runs;
    EventAdvances(c, name, a.event, a.world);
    forall i | 0 <= i < |c.runs|
      ensures Matches(runs[i], name, sha, status) <==> Matches(c.runs[i], name, sha, status)
    {
      assert Forward(c.runs[i], runs[i]);
    }
    if |runs| > |c.runs| {
      AddsItsOwn(c, name, a.event, a.world);
    }
    CountKept(c.runs, runs, name, sha, status);
  }

  lemma AddsItsOwn(c: Checks, name: string, e: Event, w: World)
    requires |Handled(c, name, e, w).runs| == |c.runs| + 1
    ensures w.sha.Some? && Handled(c, name, e, w).runs[|c.runs|].sha == w.sha.value
  {
    var id := if Sought(e).Some? then SearchFor(Sought(e).value, w) else None;
    if id.Some? {
      PatchedIs(c.runs, id.value, e);
    }
  }

  /** The events of a run that name a head. */
  function Of(sha: string, acts: seq<Act>): seq<Seen> {
    if acts == [] then []
    else
      var front, last := acts[..|acts| - 1], acts[|acts| - 1];
      if last.world.sha == Some(sha) then Of(sha, front) + [SeenOf(last)] else Of(sha, front)
  }

  function CountedAll(t: Tally, xs: seq<Seen>): Tally {
    if xs == [] then t else Counted(CountedAll(t, xs[..|xs| - 1]), xs[|xs| - 1])
  }

  lemma CountedMore(t: Tally, xs: seq<Seen>, x: Seen)
    ensures CountedAll(t, xs + [x]) == Counted(CountedAll(t, xs), x)
  {
    assert (xs + [x])[..|xs|] == xs;
  }

  /** Over any sequence of events of any heads, with access to checks or without, the runs of each head are
      what the counters make of the events that name it. */
  lemma {:induction false} RunsFollowCounters(
      name: string, sha: string, states: seq<Checks>, acts: seq<Act>, k: nat)
    requires Behaviour(name, states, acts) && k < |states|
    ensures TallyOf(states[k].runs, name, sha) == CountedAll(TallyOf(states[0].runs, name, sha), Of(sha, acts[..k]))
  {
    if k > 0 {
      var c, a := states[k - 1], acts[k - 1];
      RunsFollowCounters(name, sha, states, acts, k - 1);
      RunsOnlyMoveForward(name, states, acts, k - 1, k - 1);
      assert acts[..k][..k - 1] == acts[..k - 1];
      if a.world.sha == Some(sha) {
        EventCounts(c, name, a);
        CountedMore(TallyOf(states[0].runs, name, sha), Of(sha, acts[..k - 1]), SeenOf(a));
      } else {
        OthersKeepCount(c, name, sha, a, Queued);
        OthersKeepCount(c, name, sha, a, InProgress);
        OthersKeepCount(c, name, sha, a, Completed);
      }
    }
  }

  /** The event creates a run. */
  predicate Opens(t: Tally, x: Seen) {
    x.writable && (x.event.Pending? || (x.event.Update? && !(x.readable && t.queued > 0)))
  }

  /** The event completes a run. */
  predicate Closes(t: Tally, x: Seen) {
    x.writable && x.readable && Target(x.event).Completed? &&
    (if x.event.PrescanFailure? then t.queued else t.running) > 0
  }

  function Opened(t: Tally, xs: seq<Seen>): nat {
    if xs == [] then 0
    else Opened(t, xs[..|xs| - 1]) + One(Opens(CountedAll(t, xs[..|xs| - 1]), xs[|xs| - 1]))
  }

  function Closed(t: Tally, xs: seq<Seen>): nat {
    if xs == [] then 0
    else Closed(t, xs[..|xs| - 1]) + One(Closes(CountedAll(t, xs[..|xs| - 1]), xs[|xs| - 1]))
  }

  lemma {:induction false} CountersConserve(t: Tally, xs: seq<Seen>)
    ensures var u := CountedAll(t, xs);
      u.queued + u.running == t.queued + t.running + Opened(t, xs) - Closed(t, xs) &&
      u.completed == t.completed + Closed(t, xs)
  {
    if xs != [] {
      CountersConserve(t, xs[..|xs| - 1]);
    }
  }

  /** Conservation, over any sequence of events of any heads: the open runs of each head are those there were
      and those created since, less those completed since. */
  lemma OpenRunsAreConserved(name: string, sha: string, states: seq<Checks>, acts: seq<Act>, k: nat)
    requires Behaviour(name, states, acts) && k < |states|
    ensures var t, u, xs := TallyOf(states[0].runs, name, sha), TallyOf(states[k].runs, name, sha), Of(sha, acts[..k]);
      u.queued + u.running == t.queued + t.running + Opened(t, xs) - Closed(t, xs) &&
      u.completed == t.completed + Closed(t, xs)
  {
    RunsFollowCounters(name, sha, states, acts, k);
    CountersConserve(TallyOf(states[0].runs, name, sha), Of(sha, acts[..k]));
  }

  // ---------- a scan and its own run ----------

  /** Run `i` is of this name and head and has this status, and every other one of them is completed. */
  ghost predicate Alone(c: Checks, name: string, sha: string, i: nat, id: nat, status: Status) {
    Valid(c) && i < |c.runs| && c.runs[i].id == id && Matches(c.runs[i], name, sha, status) &&
    forall k :: 0 <= k < |c.runs| && k != i && c.runs[k].name == name && c.runs[k].sha == sha ==>
      c.runs[k].status.Completed?
  }

  ghost predicate NoneOpen(c: Checks, name: string, sha: string) {
    Valid(c) && forall k :: 0 <= k < |c.runs| && c.runs[k].name == name && c.runs[k].sha == sha ==>
      c.runs[k].status.Completed?
  }

  ghost predicate HasAccess(w: World, sha: string) {
    w.sha == Some(sha) && w.readable && w.writable
  }

  lemma PendingOpens(c: Checks, name: string, sha: string, w: World)
    requires NoneOpen(c, name, sha) && HasAccess(w, sha)
    ensures Alone(Handled(c, name, Pending, w), name, sha, |c.runs|, c.nextId, Queued)
  {
  }

  /** An event that looks for the status of the one open run finds that run and no other. */
  lemma MovesItsRun(c: Checks, name: string, sha: string, i: nat, id: nat, e: Event, w: World)
    requires Sought(e).Some? && Alone(c, name, sha, i, id, Sought(e).value) && !Sought(e).value.Completed?
    requires Truthful(c.runs, name, w) && HasAccess(w, sha)
    ensures var d := Handled(c, name, e, w);
      |d.runs| == |c.runs| && d.runs[i] == Patched(c.runs[i], e) &&
      forall k :: 0 <= k < |c.runs| && k != i ==> d.runs[k] == c.runs[k]
  {
    var status := Sought(e).value;
    assert Matches(c.runs[i], name, sha, status);
    var found := SearchFor(status, w);
    assert w.listing(status) != [];
    assert found.value in w.listing(status);
    PatchedIs(c.runs, found.value, e);
  }

  lemma UpdateRuns(c: Checks, name: string, sha: string, i: nat, id: nat, w: World)
    requires Alone(c, name, sha, i, id, Queued) && Truthful(c.runs, name, w) && HasAccess(w, sha)
    ensures Alone(Handled(c, name, Update, w), name, sha, i, id, InProgress)
  {
    MovesItsRun(c, name, sha, i, id, Update, w);
    EventAdvances(c, name, Update, w);
  }

  lemma ResultCloses(c: Checks, name: string, sha: string, i: nat, id: nat, e: Event, w: World)
    requires Sought(e).Some? && Target(e).Completed? && Alone(c, name, sha, i, id, Sought(e).value)
    requires Truthful(c.runs, name, w) && HasAccess(w, sha)
    ensures var d := Handled(c, name, e, w);
      NoneOpen(d, name, sha) && i < |d.runs| && d.runs[i] == Run(id, name, sha, Completed, Verdict(e))
  {
    MovesItsRun(c, name, sha, i, id, e, w);
    EventAdvances(c, name, e, w);
  }

  /** Events of other heads leave the open run of this one alone. */
  lemma OthersLeaveItAlone(c: Checks, name: string, sha: string, i: nat, id: nat, status: Status, e: Event, w: World)
    requires Alone(c, name, sha, i, id, status) && Truthful(c.runs, name, w) && w.sha != Some(sha)
    ensures Alone(Handled(c, name, e, w), name, sha, i, id, status)
  {
    EventAdvances(c, name, e, w);
    var d := Handled(c, name, e, w);
    forall k | 0 <= k < |d.runs| && k != i && d.runs[k].name == name && d.runs[k].sha == sha
      ensures d.runs[k].status.Completed? {
      if k < |c.runs| {
        assert Forward(c.runs[k], d.runs[k]);
      } else {
        AddsItsOwn(c, name, e, w);
      }
    }
  }

  lemma {:induction false} AloneStays(name: string, states: seq<Checks>, acts: seq<Act>, j: nat, k: nat, sha: string,
      i: nat, id: nat, status: Status)
    requires Behaviour(name, states, acts) && j <= k < |states| && Alone(states[j], name, sha, i, id, status)
    requires forall m :: j <= m < k ==> acts[m].world.sha != Some(sha)
    ensures Alone(states[k], name, sha, i, id, status)
    decreases k - j
  {
    if j < k {
      AloneStays(name, states, acts, j, k - 1, sha, i, id, status);
      OthersLeaveItAlone(states[k - 1], name, sha, i, id, status, acts[k - 1].event, acts[k - 1].world);
    }
  }

  /** A scan of a head that has no open run: the run that its pending event creates is the one that its update
      takes over and its result completes, whatever events of other heads come between; and no run of the
      head is open after. */
  lemma OwnRunIsCompleted(name: string, states: seq<Checks>, acts: seq<Act>, p: nat, u: nat, r: nat, sha: string)
    requires Behaviour(name, states, acts) && p < u < r < |acts| && NoneOpen(states[p], name, sha)
    requires acts[p].event.Pending? && acts[u].event.Update? && Sought(acts[r].event) == Some(InProgress)
    requires HasAccess(acts[p].world, sha) && HasAccess(acts[u].world, sha) && HasAccess(acts[r].world, sha)
    requires forall m :: p < m < r && m != u ==> acts[m].world.sha != Some(sha)
    ensures var i, id := |states[p].runs|, states[p].nextId;
      Alone(states[p + 1], name, sha, i, id, Queued) && Alone(states[u + 1], name, sha, i, id, InProgress) &&
      NoneOpen(states[r + 1], name, sha) && i < |states[r + 1].runs| &&
      states[r + 1].runs[i] == Run(id, name, sha, Completed,
        Some(if acts[r].event.Success? then SuccessConclusion else FailureConclusion))
  {
    var i, id := |states[p].runs|, states[p].nextId;
    PendingOpens(states[p], name, sha, acts[p].world);
    AloneStays(name, states, acts, p + 1, u, sha, i, id, Queued);
    UpdateRuns(states[u], name, sha, i, id, acts[u].world);
    AloneStays(name, states, acts, u + 1, r, sha, i, id, InProgress);
    ResultCloses(states[r], name, sha, i, id, acts[r].event, acts[r].world);
  }

  /** So is that of a scan that fails before it runs. */
  lemma OwnRunIsFailed(name: string, states: seq<Checks>, acts: seq<Act>, p: nat, r: nat, sha: string)
    requires Behaviour(name, states, acts) && p < r < |acts| && NoneOpen(states[p], name, sha)
    requires acts[p].event.Pending? && acts[r].event.PrescanFailure?
    requires HasAccess(acts[p].world, sha) && HasAccess(acts[r].world, sha)
    requires forall m :: p < m < r ==> acts[m].world.sha != Some(sha)
    ensures var i, id := |states[p].runs|, states[p].nextId;
      NoneOpen(states[r + 1], name, sha) && i < |states[r + 1].runs| &&
      states[r + 1].runs[i] == Run(id, name, sha, Completed, Some(FailureConclusion))
  {
    var i, id := |states[p].runs|, states[p].nextId;
    PendingOpens(states[p], name, sha, acts[p].world);
    AloneStays(name, states, acts, p + 1, r, sha, i, id, Queued);
    ResultCloses(states[r], name, sha, i, id, acts[r].event, acts[r].world);
  }
}
