/** The cache of group ids: paths are looked up in the tenant's directory until one is found, and
    then answered from an index until the cache is purged. */
module Grouping {
  import opened Common

  datatype Group = Group(name: string, id: string)

  /** What a lookup of a path comes to: groups whose names match, or an exception. */
  datatype Lookup = Found(groups: seq<Group>) | Failed

  type Directory = string -> Lookup

  /** `matches`: the rule's pattern against a clone URL. */
  datatype Rule = Rule(matches: string -> bool, groups: seq<string>)

  /** The first group of exactly this name. */
  function Exact(groups: seq<Group>, path: string): Option<string> {
    if groups == [] then None
    else if groups[0].name == path then Some(groups[0].id)
    else Exact(groups[1..], path)
  }

  function IdOf(d: Directory, path: string): Option<string> {
    match d(path)
    case Failed => None
    case Found(groups) => Exact(groups, path)
  }

  /** No groups, or none at all. */
  predicate Errs(d: Directory, path: string) {
    d(path).Failed? || d(path).groups == []
  }

  /** The id of a path is that of the first group returned of that very name. */
  ghost predicate FirstNamed(groups: seq<Group>, path: string, k: int) {
    0 <= k < |groups| && groups[k].name == path && forall j :: 0 <= j < k ==> groups[j].name != path
  }

  lemma {:induction false} ExactIff(groups: seq<Group>, path: string)
    ensures Exact(groups, path).None? <==> forall k :: 0 <= k < |groups| ==> groups[k].name != path
    ensures Exact(groups, path).Some? ==>
      exists k :: FirstNamed(groups, path, k) && groups[k].id == Exact(groups, path).value
  {
    if groups != [] && groups[0].name != path {
      ExactIff(groups[1..], path);
      if Exact(groups, path).Some? {
        var k :| FirstNamed(groups[1..], path, k) && groups[1..][k].id == Exact(groups, path).value;
        assert FirstNamed(groups, path, k + 1);
      }
    } else if groups != [] {
      assert FirstNamed(groups, path, 0);
    }
  }

  /** Exactly what a lookup comes to. */
  lemma LookupIff(d: Directory, path: string, id: string)
    ensures IdOf(d, path) == Some(id) <==>
      d(path).Found? && exists k :: FirstNamed(d(path).groups, path, k) && d(path).groups[k].id == id
    ensures OutcomeOf(d, path).Hit? <==> d(path).Found? && exists k :: FirstNamed(d(path).groups, path, k)
    ensures OutcomeOf(d, path).Error? <==> d(path).Failed? || d(path).groups == []
  {
    if d(path).Found? {
      ExactIff(d(path).groups, path);
    }
  }

  // ---------- what an uncached resolver would do ----------

  function IdsOf(d: Directory, paths: seq<string>): seq<string> {
    if paths == [] then []
    else
      var front, last := paths[..|paths| - 1], IdOf(d, paths[|paths| - 1]);
      IdsOf(d, front) + if last.Some? then [last.value] else []
  }

  function Resolved(d: Directory, rules: seq<Rule>, url: string): seq<string> {
    if rules == [] then []
    else
      var front, rule := rules[..|rules| - 1], rules[|rules| - 1];
      Resolved(d, front, url) + if rule.matches(url) then IdsOf(d, rule.groups) else []
  }

  // ---------- the cache ----------

  /** A lookup that was made: it found the id, or groups but not the path, or it erred. */
  datatype Outcome = Hit | Miss | Error

  datatype Asked = Asked(path: string, outcome: Outcome)

  /** The two tables, and the lookups since the last purge. */
  datatype Cache = Cache(index: map<string, string>, errors: map<string, nat>, log: seq<Asked>)

  const PURGED: Cache := Cache(map[], map[], [])

  function OutcomeOf(d: Directory, path: string): Outcome {
    if Errs(d, path) then Error else if IdOf(d, path).Some? then Hit else Miss
  }

  function Incremented(errors: map<string, nat>, path: string): map<string, nat> {
    errors[path := if path in errors then errors[path] + 1 else 1]
  }

  function Looked(c: Cache, path: string, d: Directory): Cache {
    if path in c.index then c.(errors := c.errors - {path})
    else
      var log := c.log + [Asked(path, OutcomeOf(d, path))];
      match OutcomeOf(d, path)
      case Error => Cache(c.index, Incremented(c.errors, path), log)
      case Miss => Cache(c.index, c.errors, log)
      case Hit => Cache(c.index[path := IdOf(d, path).value], c.errors - {path}, log)
  }

  function Given(c: Cache, path: string, d: Directory): seq<string> {
    var id := if path in c.index then Some(c.index[path]) else IdOf(d, path);
    if id.Some? then [id.value] else []
  }

  function LookedAll(c: Cache, paths: seq<string>, d: Directory): Cache {
    if paths == [] then c else Looked(LookedAll(c, paths[..|paths| - 1], d), paths[|paths| - 1], d)
  }

  function GivenAll(c: Cache, paths: seq<string>, d: Directory): seq<string> {
    if paths == [] then []
    else
      var front, last := paths[..|paths| - 1], paths[|paths| - 1];
      GivenAll(c, front, d) + Given(LookedAll(c, front, d), last, d)
  }

  /** The paths that the rules matching a URL name, in order. */
  function PathsOf(rules: seq<Rule>, url: string): seq<string> {
    if rules == [] then []
    else
      var front, rule := rules[..|rules| - 1], rules[|rules| - 1];
      PathsOf(front, url) + if rule.matches(url) then rule.groups else []
  }

  class GroupingService {
    var routes: seq<Rule>
    var groupidIndex: map<string, string>
    var pathResErrors: map<string, nat>
    ghost var log: seq<Asked>

    ghost function State(): Cache reads this {
      Cache(groupidIndex, pathResErrors, log)
    }

    constructor ()
      ensures State() == PURGED && routes == []
    {
      routes, groupidIndex, pathResErrors, log := [], map[], map[], [];
    }

    method AddAssignmentRule(rule: Rule)
      modifies this`routes
      ensures routes == old(routes) + [rule]
    {
      routes := routes + [rule];
    }

    method IncrementError(path: string)
      modifies this`pathResErrors
      ensures pathResErrors == Incremented(old(pathResErrors), path)
    {
      if path in pathResErrors {
        pathResErrors := pathResErrors[path := pathResErrors[path] + 1];
      } else {
        pathResErrors := pathResErrors[path := 1];
      }
    }

    /** One path, under the lock. */
    method ResolveGroupId(path: string, d: Directory) returns (ids: seq<string>)
      modifies this`groupidIndex, this`pathResErrors, this`log
      ensures State() == Looked(old(State()), path, d) && ids == Given(old(State()), path, d)
    {
      ids := [];
      if path !in groupidIndex {
        log := log + [Asked(path, OutcomeOf(d, path))];
        var answer := d(path);
        if answer.Failed? || |answer.groups| == 0 {
          IncrementError(path);
          return;
        }
        var id := Exact(answer.groups, path);
        if id.Some? {
          groupidIndex := groupidIndex[path := id.value];
        }
      }
      if path in groupidIndex {
        ids := [groupidIndex[path]];
        pathResErrors := pathResErrors - {path};
      }
    }

    method ResolveGroupIds(paths: seq<string>, d: Directory) returns (ids: seq<string>)
      modifies this`groupidIndex, this`pathResErrors, this`log
      ensures State() == LookedAll(old(State()), paths, d) && ids == GivenAll(old(State()), paths, d)
    {
      ids := [];
      var i := 0;
      while i < |paths|
        invariant 0 <= i <= |paths|
        invariant State() == LookedAll(old(State()), paths[..i], d) && ids == GivenAll(old(State()), paths[..i], d)
      {
        assert paths[..i + 1][..i] == paths[..i];
        var more := ResolveGroupId(paths[i], d);
        ids := ids + more;
        i := i + 1;
      }
      assert paths[..i] == paths;
    }

    method ResolveGroups(cloneUrl: string, d: Directory) returns (resolved: seq<string>)
      modifies this`groupidIndex, this`pathResErrors, this`log
      ensures State() == LookedAll(old(State()), PathsOf(routes, cloneUrl), d)
      ensures resolved == GivenAll(old(State()), PathsOf(routes, cloneUrl), d)
    {
      resolved := [];
      var i := 0;
      while i < |routes|
        invariant 0 <= i <= |routes|
        invariant State() == LookedAll(old(State()), PathsOf(routes[..i], cloneUrl), d)
        invariant resolved == GivenAll(old(State()), PathsOf(routes[..i], cloneUrl), d)
      {
        assert routes[..i + 1][..i] == routes[..i];
        ghost var before := PathsOf(routes[..i], cloneUrl);
        if routes[i].matches(cloneUrl) {
          var ids := ResolveGroupIds(routes[i].groups, d);
          resolved := resolved + ids;
          LookedOfBoth(old(State()), before, routes[i].groups, d);
        } else {
          assert before + [] == before;
        }
        i := i + 1;
      }
      assert routes[..i] == routes;
    }

    method PurgeCache()
      modifies this`groupidIndex, this`pathResErrors, this`log
      ensures State() == PURGED
    {
      groupidIndex, pathResErrors, log := map[], map[], [];
    }
  }

  lemma {:induction false} LookedOfBoth(c: Cache, a: seq<string>, b: seq<string>, d: Directory)
    ensures LookedAll(c, a + b, d) == LookedAll(LookedAll(c, a, d), b, d)
    ensures GivenAll(c, a + b, d) == GivenAll(c, a, d) + GivenAll(LookedAll(c, a, d), b, d)
  {
    if b == [] {
      assert a + b == a;
    } else {
      assert (a + b)[..|a + b| - 1] == a + b[..|b| - 1];
      LookedOfBoth(c, a, b[..|b| - 1], d);
    }
  }

  // ---------- the tables ----------

  function ErrorsOf(log: seq<Asked>, path: string): nat {
    if log == [] then 0
    else
      var last := log[|log| - 1];
      ErrorsOf(log[..|log| - 1], path) + if last.path == path && last.outcome.Error? then 1 else 0
  }

  /** The lookup at `i` found the path: the last lookup of it and the only one that did. */
  ghost predicate FoundAt(log: seq<Asked>, path: string, i: int) {
    0 <= i < |log| && log[i] == Asked(path, Hit) &&
    (forall j :: i < j < |log| ==> log[j].path != path) && forall j :: 0 <= j < i ==> log[j] != Asked(path, Hit)
  }

  /** An indexed path has no errors and was found once, by its last lookup. */
  ghost predicate Indexed(c: Cache, p: string) {
    p in c.index && p !in c.errors && exists i :: FoundAt(c.log, p, i)
  }

  /** Of any other path, all lookups that erred are counted and none found it. */
  ghost predicate Unresolved(c: Cache, p: string) {
    p !in c.index && Asked(p, Hit) !in c.log && ErrorsOf(c.log, p) == if p in c.errors then c.errors[p] else 0
  }

  ghost predicate Sane(c: Cache) {
    forall p :: Indexed(c, p) || Unresolved(c, p)
  }

  lemma LookedKeepsPath(c: Cache, path: string, d: Directory, p: string)
    requires Indexed(c, p) || Unresolved(c, p)
    ensures Indexed(Looked(c, path, d), p) || Unresolved(Looked(c, path, d), p)
  {
    if path !in c.index {
      var a := Asked(path, OutcomeOf(d, path));
      assert (c.log + [a])[..|c.log|] == c.log;
      if Indexed(c, p) {
        var i :| FoundAt(c.log, p, i);
        assert FoundAt(c.log + [a], p, i);
      } else if p == path && a.outcome.Hit? {
        assert FoundAt(c.log + [a], p, |c.log|);
      }
    }
  }

  /** Whatever is looked up, no path is at once in the index and among the errors, every path in the
      index was found by one lookup and never looked up again, and errors are counted exactly. */
  lemma {:induction false} TablesStaySane(c: Cache, paths: seq<string>, d: Directory)
    requires Sane(c)
    ensures Sane(LookedAll(c, paths, d))
  {
    if paths != [] {
      var front := paths[..|paths| - 1];
      TablesStaySane(c, front, d);
      forall p ensures var e := LookedAll(c, paths, d); Indexed(e, p) || Unresolved(e, p) {
        LookedKeepsPath(LookedAll(c, front, d), paths[|paths| - 1], d, p);
      }
    }
  }

  // ---------- agreement with the directory ----------

  /** Everything in the index is what this directory says. */
  ghost predicate Agrees(c: Cache, d: Directory) {
    forall p :: p in c.index ==> IdOf(d, p) == Some(c.index[p])
  }

  /** This directory, but for lookups that fail. */
  ghost predicate Flaky(d: Directory, stable: Directory) {
    forall p :: d(p) == stable(p) || d(p).Failed?
  }

  lemma {:induction false} AgreementStays(c: Cache, paths: seq<string>, d: Directory, stable: Directory)
    requires Agrees(c, stable) && Flaky(d, stable)
    ensures Agrees(LookedAll(c, paths, d), stable)
  {
    if paths != [] {
      AgreementStays(c, paths[..|paths| - 1], d, stable);
      assert d(paths[|paths| - 1]) == stable(paths[|paths| - 1]) || d(paths[|paths| - 1]).Failed?;
    }
  }

  lemma {:induction false} GivenIsUncached(c: Cache, paths: seq<string>, d: Directory)
    requires Agrees(c, d)
    ensures GivenAll(c, paths, d) == IdsOf(d, paths)
  {
    if paths != [] {
      var front := paths[..|paths| - 1];
      GivenIsUncached(c, front, d);
      AgreementStays(c, front, d, d);
    }
  }

  lemma {:induction false} UncachedByRule(d: Directory, rules: seq<Rule>, url: string)
    ensures IdsOf(d, PathsOf(rules, url)) == Resolved(d, rules, url)
  {
    if rules != [] {
      var front, rule := rules[..|rules| - 1], rules[|rules| - 1];
      UncachedByRule(d, front, url);
      var more := if rule.matches(url) then rule.groups else [];
      IdsOfBoth(d, PathsOf(front, url), more);
    }
  }

  lemma {:induction false} IdsOfBoth(d: Directory, a: seq<string>, b: seq<string>)
    ensures IdsOf(d, a + b) == IdsOf(d, a) + IdsOf(d, b)
  {
    if b == [] {
      assert a + b == a;
    } else {
      assert (a + b)[..|a + b| - 1] == a + b[..|b| - 1];
      IdsOfBoth(d, a, b[..|b| - 1]);
    }
  }

  // ---------- what is resolved ----------

  /** An id that a rule which matches the URL gives: of the first group named by a path of the rule. */
  ghost predicate GivesId(d: Directory, rule: Rule, url: string, id: string) {
    rule.matches(url) && exists path :: path in rule.groups && IdOf(d, path) == Some(id)
  }

  lemma {:induction false} IdsAre(d: Directory, paths: seq<string>, id: string)
    ensures id in IdsOf(d, paths) <==> exists path :: path in paths && IdOf(d, path) == Some(id)
  {
    if paths != [] {
      IdsAre(d, paths[..|paths| - 1], id);
      assert paths == paths[..|paths| - 1] + [paths[|paths| - 1]];
    }
  }

  /** An uncached resolver gives exactly the ids that the rules matching the URL give, rule after rule and path
      after path. */
  lemma {:induction false} ResolvedAre(d: Directory, rules: seq<Rule>, url: string, id: string)
    ensures id in Resolved(d, rules, url) <==> exists rule :: rule in rules && GivesId(d, rule, url, id)
  {
    if rules != [] {
      var front, rule := rules[..|rules| - 1], rules[|rules| - 1];
      ResolvedAre(d, front, url, id);
      IdsAre(d, rule.groups, id);
      assert rules == front + [rule];
      if rule.matches(url) && id in IdsOf(d, rule.groups) {
        assert GivesId(d, rule, url, id);
      }
    }
  }

  lemma {:induction false} ResolvedInOrder(d: Directory, a: seq<Rule>, b: seq<Rule>, url: string)
    ensures Resolved(d, a + b, url) == Resolved(d, a, url) + Resolved(d, b, url)
  {
    if b == [] {
      assert a + b == a;
    } else {
      var last := b[|b| - 1];
      assert (a + b)[..|a + b| - 1] == a + b[..|b| - 1];
      ResolvedInOrder(d, a, b[..|b| - 1], url);
      JoinsRegroup(Resolved(d, a, url), Resolved(d, b[..|b| - 1], url),
        if last.matches(url) then IdsOf(d, last.groups) else []);
    }
  }

  /** A path that is found gives its id once. */
  lemma OnePathResolved(d: Directory, rule: Rule, path: string, url: string)
    requires rule.groups == [path]
    ensures Resolved(d, [rule], url) ==
      if rule.matches(url) && IdOf(d, path).Some? then [IdOf(d, path).value] else []
  {
    assert [rule][..0] == [] && [path][..0] == [];
    assert IdsOf(d, [path]) == IdsOf(d, []) + if IdOf(d, path).Some? then [IdOf(d, path).value] else [];
  }

  // ---------- runs ----------

  datatype Call = Resolve(rules: seq<Rule>, url: string, directory: Directory) | Purge

  function After(c: Cache, call: Call): Cache {
    match call
    case Resolve(rules, url, d) => LookedAll(c, PathsOf(rules, url), d)
    case Purge => PURGED
  }

  ghost predicate Behaviour(states: seq<Cache>, calls: seq<Call>) {
    |states| == |calls| + 1 && states[0] == PURGED &&
    forall k :: 0 <= k < |calls| ==> states[k + 1] == After(states[k], calls[k])
  }

  lemma {:induction false} AlwaysSane(states: seq<Cache>, calls: seq<Call>, k: nat)
    requires Behaviour(states, calls) && k < |states|
    ensures Sane(states[k])
  {
    forall p ensures Unresolved(PURGED, p) {
    }
    if k > 0 {
      AlwaysSane(states, calls, k - 1);
      if calls[k - 1].Resolve? {
        TablesStaySane(states[k - 1], PathsOf(calls[k - 1].rules, calls[k - 1].url), calls[k - 1].directory);
      }
    }
  }

  /** While the directory is stable, failed lookups aside, what a later call without failures resolves
      is what an uncached resolver would. */
  lemma {:induction false} CacheAgrees(states: seq<Cache>, calls: seq<Call>, k: nat, stable: Directory)
    requires Behaviour(states, calls) && k < |states|
    requires forall i :: 0 <= i < k && calls[i].Resolve? ==> Flaky(calls[i].directory, stable)
    ensures Agrees(states[k], stable)
    ensures forall rules, url :: GivenAll(states[k], PathsOf(rules, url), stable) == Resolved(stable, rules, url)
  {
    if k > 0 {
      CacheAgrees(states, calls, k - 1, stable);
      if calls[k - 1].Resolve? {
        AgreementStays(states[k - 1], PathsOf(calls[k - 1].rules, calls[k - 1].url), calls[k - 1].directory, stable);
      }
    }
    forall rules, url ensures GivenAll(states[k], PathsOf(rules, url), stable) == Resolved(stable, rules, url) {
      GivenIsUncached(states[k], PathsOf(rules, url), stable);
      UncachedByRule(stable, rules, url);
    }
  }
}
