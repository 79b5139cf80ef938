/** The kickoff client: a token renewed before it runs out, a request posted once more after it was
    not authorised, and waits that grow while too many scans run. */
module Kickoff {
  import opened Common

  const JWT_TIMEOUT: int := 600
  const JWT_JITTER: int := 60
  const SLEEP_SECONDS: nat := 15
  const SLEEP_MAX_SECONDS: nat := 180

  const SCAN_STARTED: int := 201
  const SCAN_EXISTS: int := 299
  const NOT_AUTHORIZED: int := 401
  const TOO_MANY_SCANS: int := 429

  /** A token is known by its number and its expiry. */
  datatype Token = Token(serial: nat, exp: int)

  /** A request that was posted: with which token, when that was checked, and the status it got. */
  datatype Post = Post(token: Token, checked: int, status: int)

  /** One try: the clock when its token is checked and, if it is renewed, when that is dated. */
  datatype Try = Try(checked: int, dated: int, status: int)

  /** A round: its first try and the one after an unauthorised answer, and what a waiting callback says. */
  datatype Round = Round(first: Try, second: Try, goOn: bool)

  datatype Outcome = Returned(status: int) | Raised | Waiting

  datatype Session = Session(jwt: Option<Token>, issued: nat)

  /** The token to post with, and the session that holds it. */
  function Renewed(c: Session, force: bool, y: Try): Session {
    if force || c.jwt.None? || y.checked >= c.jwt.value.exp - JWT_JITTER
    then Session(Some(Token(c.issued, y.dated + JWT_TIMEOUT)), c.issued + 1)
    else c
  }

  function PostOf(c: Session, y: Try): Post
    requires c.jwt.Some?
  {
    Post(c.jwt.value, y.checked, y.status)
  }

  datatype Exchange = Exchange(session: Session, posts: seq<Post>)

  /** The posts of one round. */
  function Exchanged(c: Session, r: Round): Exchange {
    var one := Renewed(c, false, r.first);
    if r.first.status == NOT_AUTHORIZED then
      var two := Renewed(one, true, r.second);
      Exchange(two, [PostOf(one, r.first), PostOf(two, r.second)])
    else Exchange(one, [PostOf(one, r.first)])
  }

  function StatusOf(posts: seq<Post>): int
    requires posts != []
  {
    posts[|posts| - 1].status
  }

  /** A whole kickoff against the rounds to come; it still waits when they run out. */
  datatype Course = Course(session: Session, posts: seq<Post>, sleeps: seq<nat>, outcome: Outcome)

  function Kicked(c: Session, rounds: seq<Round>, delay: nat): Course
    decreases |rounds|
  {
    if rounds == [] then Course(c, [], [], Waiting)
    else
      var x := Exchanged(c, rounds[0]);
      var status := StatusOf(x.posts);
      if status == SCAN_STARTED || status == SCAN_EXISTS then Course(x.session, x.posts, [], Returned(status))
      else if status != TOO_MANY_SCANS then Course(x.session, x.posts, [], Raised)
      else if !rounds[0].goOn then Course(x.session, x.posts, [], Returned(status))
      else
        var rest := Kicked(x.session, rounds[1..], Min(SLEEP_MAX_SECONDS, delay + SLEEP_SECONDS));
        Course(rest.session, x.posts + rest.posts, [delay] + rest.sleeps, rest.outcome)
  }

  class KickoffClient {
    var jwt: Option<Token>
    var issued: nat
    /** What went out, and how long it slept in between. */
    var posts: seq<Post>
    var sleeps: seq<nat>

    ghost function State(): Session reads this {
      Session(jwt, issued)
    }

    constructor ()
      ensures State() == Session(None, 0) && posts == [] && sleeps == []
    {
      jwt, issued, posts, sleeps := None, 0, [], [];
    }

    method GetJwt(force: bool, y: Try) returns (token: Token)
      modifies this`jwt, this`issued
      ensures State() == Renewed(old(State()), force, y) && jwt == Some(token)
    {
      if force || jwt.None? || y.checked >= jwt.value.exp - JWT_JITTER {
        jwt := Some(Token(issued, y.dated + JWT_TIMEOUT));
        issued := issued + 1;
      }
      token := jwt.value;
    }

    method ExecuteRequest(r: Round) returns (status: int)
      modifies this`jwt, this`issued, this`posts
      ensures var x := Exchanged(old(State()), r);
        State() == x.session && posts == old(posts) + x.posts && status == StatusOf(x.posts)
    {
      var authRetried, authRetry := false, true;
      status := 0;
      while authRetry
        invariant authRetry
        invariant !authRetried ==> State() == old(State()) && posts == old(posts)
        invariant authRetried ==>
          r.first.status == NOT_AUTHORIZED && State() == Renewed(old(State()), false, r.first) &&
          posts == old(posts) + [PostOf(State(), r.first)]
        decreases !authRetried
      {
        authRetry := !authRetried;
        var y := if authRetried then r.second else r.first;
        var token := GetJwt(authRetried, y);
        posts := posts + [Post(token, y.checked, y.status)];
        if y.status == NOT_AUTHORIZED && !authRetried {
          authRetried := true;
        } else {
          return y.status;
        }
      }
    }

    method KickoffScan(rounds: seq<Round>) returns (outcome: Outcome)
      modifies this
      ensures var c := Kicked(old(State()), rounds, SLEEP_SECONDS);
        State() == c.session && posts == old(posts) + c.posts && sleeps == old(sleeps) + c.sleeps &&
          outcome == c.outcome
    {
      var curSleepDelay: nat := SLEEP_SECONDS;
      var k := 0;
      ghost var c := Kicked(State(), rounds, SLEEP_SECONDS);
      while k < |rounds|
        invariant 0 <= k <= |rounds|
        invariant var rest := Kicked(State(), rounds[k..], curSleepDelay);
          rest.session == c.session && posts + rest.posts == old(posts) + c.posts &&
          sleeps + rest.sleeps == old(sleeps) + c.sleeps && rest.outcome == c.outcome
      {
        assert rounds[k..][1..] == rounds[k + 1..];
        var status := ExecuteRequest(rounds[k]);
        if status == SCAN_STARTED {
          return Returned(status);
        } else if status == SCAN_EXISTS {
          return Returned(status);
        } else if status == TOO_MANY_SCANS {
          if !rounds[k].goOn {
            return Returned(status);
          }
          sleeps := sleeps + [curSleepDelay];
          curSleepDelay := Min(SLEEP_MAX_SECONDS, curSleepDelay + SLEEP_SECONDS);
        } else {
          return Raised;
        }
        k := k + 1;
      }
      outcome := Waiting;
    }
  }

  // ---------- tokens ----------

  /** The clock does not go back while a token is made. */
  ghost predicate Timely(y: Try) {
    y.checked <= y.dated
  }

  /** A round posts once, or twice when the first post was not authorised; the second goes out with a
      token that is new, and every token had more than a minute left when it was checked. */
  lemma RoundPosts(c: Session, r: Round)
    requires Timely(r.first) && Timely(r.second) && (c.jwt.Some? ==> c.jwt.value.serial < c.issued)
    ensures var x := Exchanged(c, r);
      |x.posts| == (if r.first.status == NOT_AUTHORIZED then 2 else 1) &&
      (forall p :: p in x.posts ==> p.token.exp - p.checked > JWT_JITTER) &&
      (|x.posts| == 2 ==> x.posts[0].token.serial < x.posts[1].token.serial) &&
      x.session.jwt.Some? && x.session.jwt.value.serial < x.session.issued
  {
  }

  /** The token was dated in one of these rounds. */
  ghost predicate DatedIn(rounds: seq<Round>, t: Token, dated: int) {
    t.exp == dated + 600 && exists r :: r in rounds && (dated == r.first.dated || dated == r.second.dated)
  }

  ghost predicate Dated(c: Session, rounds: seq<Round>, t: Token) {
    c.jwt == Some(t) || exists dated :: DatedIn(rounds, t, dated)
  }

  lemma RoundDates(c: Session, rounds: seq<Round>)
    requires rounds != []
    ensures var x := Exchanged(c, rounds[0]);
      x.session.jwt.Some? && Dated(c, rounds, x.session.jwt.value) &&
      forall p :: p in x.posts ==> Dated(c, rounds, p.token)
  {
    var r := rounds[0];
    assert r in rounds;
    assert DatedIn(rounds, Token(c.issued, r.first.dated + 600), r.first.dated);
    if r.first.status == NOT_AUTHORIZED {
      assert DatedIn(rounds, Exchanged(c, r).session.jwt.value, r.second.dated);
    }
  }

  /** Every token that a kickoff posts with is its client's or dated in one of its rounds. */
  lemma {:induction false} PostsAreDated(c: Session, rounds: seq<Round>, delay: nat)
    ensures forall p :: p in Kicked(c, rounds, delay).posts ==> Dated(c, rounds, p.token)
    decreases |rounds|
  {
    if rounds != [] {
      var x := Exchanged(c, rounds[0]);
      var rest, next := rounds[1..], Min(SLEEP_MAX_SECONDS, delay + SLEEP_SECONDS);
      RoundDates(c, rounds);
      PostsAreDated(x.session, rest, next);
      forall p | p in Kicked(x.session, rest, next).posts ensures Dated(c, rounds, p.token) {
        if x.session.jwt != Some(p.token) {
          var dated :| DatedIn(rest, p.token, dated);
          assert DatedIn(rounds, p.token, dated);
        }
      }
    }
  }

  /** Over a whole kickoff of a new client no token is posted nine minutes or more after it was dated. */
  lemma NoPostIsStale(rounds: seq<Round>, delay: nat, p: Post)
    requires forall r :: r in rounds ==> Timely(r.first) && Timely(r.second)
    requires p in Kicked(Session(None, 0), rounds, delay).posts
    ensures exists dated :: DatedIn(rounds, p.token, dated) && p.checked < dated + 540
  {
    PostsAreDated(Session(None, 0), rounds, delay);
    EveryPostIsFresh(Session(None, 0), rounds, delay);
    assert Dated(Session(None, 0), rounds, p.token);
    var dated :| DatedIn(rounds, p.token, dated);
  }

  /** A token that is still good is kept, and only then. */
  lemma RenewedIff(c: Session, force: bool, y: Try)
    requires Timely(y) && (c.jwt.Some? ==> c.jwt.value.serial < c.issued)
    ensures Renewed(c, force, y).jwt == c.jwt <==> !force && c.jwt.Some? && c.jwt.value.exp - y.checked > JWT_JITTER
  {
  }

  /** Over a whole kickoff: at most two posts a round and one more round than it slept. */
  lemma {:induction false} EveryPostIsFresh(c: Session, rounds: seq<Round>, delay: nat)
    requires forall r :: r in rounds ==> Timely(r.first) && Timely(r.second)
    requires c.jwt.Some? ==> c.jwt.value.serial < c.issued
    ensures var k := Kicked(c, rounds, delay);
      (forall p :: p in k.posts ==> p.token.exp - p.checked > JWT_JITTER) &&
      |k.sleeps| <= |k.posts| <= 2 * (|k.sleeps| + if k.outcome.Waiting? then 0 else 1)
    decreases |rounds|
  {
    if rounds != [] {
      assert rounds[0] in rounds;
      RoundPosts(c, rounds[0]);
      EveryPostIsFresh(Exchanged(c, rounds[0]).session, rounds[1..], Min(SLEEP_MAX_SECONDS, delay + SLEEP_SECONDS));
    }
  }

  // ---------- waits ----------

  /** The n-th wait. */
  lemma {:induction false} WaitIs(c: Session, rounds: seq<Round>, delay: nat, n: nat)
    requires delay <= SLEEP_MAX_SECONDS && n < |Kicked(c, rounds, delay).sleeps|
    ensures Kicked(c, rounds, delay).sleeps[n] == Min(SLEEP_MAX_SECONDS, delay + SLEEP_SECONDS * n)
    decreases n
  {
    if n > 0 {
      WaitIs(Exchanged(c, rounds[0]).session, rounds[1..], Min(SLEEP_MAX_SECONDS, delay + SLEEP_SECONDS), n - 1);
    }
  }

  lemma {:induction false} SumOfWaits(waits: seq<nat>)
    requires forall i :: 0 <= i < |waits| ==> waits[i] == Min(SLEEP_MAX_SECONDS, SLEEP_SECONDS + SLEEP_SECONDS * i)
    ensures var n := |waits|;
      Sum(waits) == if n <= 12 then 15 * n * (n + 1) / 2 else 1170 + 180 * (n - 12)
  {
    if waits != [] {
      var front, n := waits[..|waits| - 1], |waits|;
      SumOfWaits(front);
      assert waits[n - 1] == if n <= 12 then 15 * n else 180;
      if n <= 12 {
        assert 15 * n * (n + 1) == 15 * (n - 1) * n + 2 * (15 * n);
      }
    }
  }

  /** A kickoff that slept after n answers of too many scans slept this long in all. */
  lemma TotalSleep(c: Session, rounds: seq<Round>)
    ensures var sleeps := Kicked(c, rounds, SLEEP_SECONDS).sleeps;
      var n := |sleeps|;
      Sum(sleeps) == if n <= 12 then 15 * n * (n + 1) / 2 else 1170 + 180 * (n - 12)
  {
    var sleeps := Kicked(c, rounds, SLEEP_SECONDS).sleeps;
    forall i | 0 <= i < |sleeps| ensures sleeps[i] == Min(SLEEP_MAX_SECONDS, SLEEP_SECONDS + SLEEP_SECONDS * i) {
      WaitIs(c, rounds, SLEEP_SECONDS, i);
    }
    SumOfWaits(sleeps);
  }

  predicate Known(status: int) {
    status == 201 || status == 299 || status == 429
  }

  /** The status that a round comes to: of its second try when the first was not authorised. */
  function StatusIn(r: Round): int {
    if r.first.status == 401 then r.second.status else r.first.status
  }

  /** Too many scans, and the callback, if there is one, does not decline to wait. */
  predicate GoesOn(r: Round) {
    StatusIn(r) == 429 && r.goOn
  }

  /** A kickoff goes on exactly after rounds of too many scans that are not declined.  It ends in the first
      round that is none: it returns the status if it knows it, and raises exactly if it does not. */
  lemma {:induction false} GoesOnIff(c: Session, rounds: seq<Round>, delay: nat)
    ensures var k := Kicked(c, rounds, delay);
      var n := |k.sleeps|;
      n <= |rounds| && (forall i :: 0 <= i < n ==> GoesOn(rounds[i])) &&
      (n < |rounds| ==> !GoesOn(rounds[n])) &&
      k.outcome ==
        if n == |rounds| then Waiting
        else if Known(StatusIn(rounds[n])) then Returned(StatusIn(rounds[n]))
        else Raised
    decreases |rounds|
  {
    if rounds != [] {
      var r := rounds[0];
      assert StatusOf(Exchanged(c, r).posts) == StatusIn(r);
      if GoesOn(r) {
        GoesOnIff(Exchanged(c, r).session, rounds[1..], Min(SLEEP_MAX_SECONDS, delay + SLEEP_SECONDS));
      }
    }
  }
}
