/** Which queues a published or dead-lettered message reaches, by the fanout rule
    (section 3.1.3.2 of AMQP 0-9-1) and the topic rule (section 3.1.3.3). */
module Routing {
  import opened Common
  import opened Topics
  import opened Topology

  ghost predicate Accepts(broker: Broker, e: Exchange, pattern: string, key: string) {
    AnExchange(e, Fanout) in broker || (AnExchange(e, Topic) in broker && TopicMatches(pattern, key))
  }

  /** Exchange bindings are declared with the empty routing key. */
  ghost predicate Arrives(broker: Broker, e: Exchange, key: string, at: Exchange) {
    at == e || (ARelay(at, e) in broker && Accepts(broker, e, "", key))
  }

  ghost predicate Lands(broker: Broker, e: Exchange, key: string, d: Declaration) {
    d.ABinding? && Arrives(broker, e, key, d.to) && Accepts(broker, d.to, d.key.Text(), key)
  }

  /** The queues a message sent to exchange `e` under `key` is put in. */
  ghost function Reached(broker: Broker, e: Exchange, key: string): set<Queue> {
    set d | d in broker && Lands(broker, e, key, d) :: d.bound
  }

  // ---------- the declarations, looked up ----------

  function KindOf(e: Exchange): Kind {
    if e.ScanIn? || e.ScanInLegacy? then Fanout else Topology.Topic
  }

  predicate Relayed(source: Exchange, destination: Exchange) {
    (source.ScanIn? && destination in {ScanAwait, ScanFeedback, SarifWork, ScanAnnotate, PrescanAnnotate}) ||
    (source.ScanInLegacy? && destination in {ScanAwaitLegacy, ScanFeedback, ScanAnnotate, PrescanAnnotate})
  }

  function BindingOf(q: Queue): Declaration {
    match q
    case AwaitedScansLegacy => ABinding(q, ScanAwaitLegacy, LegacyPoll)
    case AwaitedScans => ABinding(q, ScanAwait, Poll)
    case PollingScansLegacy => ABinding(q, ScanPollingLegacy, LegacyPoll)
    case PollingScans => ABinding(q, ScanPolling, Poll)
    case PrFeedback => ABinding(q, ScanFeedback, InState(Feedback, PR))
    case GenerateSarif => ABinding(q, SarifWork, InState(Feedback, PUSH))
    case PrescanPrAnnotating => ABinding(q, PrescanAnnotate, InState(Prescan, PR))
    case PrAnnotating => ABinding(q, ScanAnnotate, InState(Annotate, PR))
    case PrScanFailure => ABinding(q, ScanFeedback, InState(Failure, PR))
    case ResolverTimeout => ABinding(q, ResolverDlx, DeadLetter)
    case FinishedResolverScans => ABinding(q, ResolverScan, ScanComplete)
    case ResolverReq(tag) => TagBinding(tag)
  }

  /** The dead-letter exchange a queue is declared with. */
  function DeadLettersOf(q: Queue): Option<Exchange> {
    match q
    case AwaitedScansLegacy => Some(ScanPollingLegacy)
    case AwaitedScans => Some(ScanPolling)
    case ResolverReq(_) => Some(ResolverDlx)
    case _ => None
  }

  predicate Known(tags: set<string>, q: Queue) {
    q.ResolverReq? ==> q.tag in tags
  }

  /** What a configured broker knows: kinds, relays, dead-letter exchanges and bindings are
      functions of the exchange or queue, whatever the services are. */
  predicate Wanted(tags: set<string>, d: Declaration) {
    match d
    case AnExchange(e, kind) => kind == KindOf(e)
    case ARelay(destination, source) => Relayed(source, destination)
    case AQueue(q, deadLetters) => deadLetters == DeadLettersOf(q) && Known(tags, q)
    case ABinding(q, _, _) => d == BindingOf(q) && Known(tags, q)
  }

  lemma InExchanges(d: Declaration)
    ensures d in Exchanges() <==>
      (d.AnExchange? && d.kind == KindOf(d.exchange) &&
       d.exchange !in {ScanPolling, ScanPollingLegacy, ResolverScan, ResolverDlx})
  {
  }

  lemma InRelays(d: Declaration)
    ensures d in Relays() <==> d.ARelay? && Relayed(d.source, d.destination)
  {
  }

  predicate OfPolling(q: Queue) {
    q in {AwaitedScans, AwaitedScansLegacy, PollingScans, PollingScansLegacy}
  }

  predicate OfResolver(q: Queue) {
    q in {ResolverTimeout, FinishedResolverScans}
  }

  lemma InPolling(d: Declaration)
    ensures d in Polling() <==> match d
      case AnExchange(e, kind) => kind == Topology.Topic && e in {ScanPolling, ScanPollingLegacy}
      case ARelay(_, _) => false
      case AQueue(q, deadLetters) => OfPolling(q) && deadLetters == DeadLettersOf(q)
      case ABinding(q, _, _) => OfPolling(q) && d == BindingOf(q)
  {
  }

  lemma InStates(d: Declaration)
    ensures d in States() <==> match d
      case AnExchange(_, _) => false
      case ARelay(_, _) => false
      case AQueue(q, deadLetters) => !OfPolling(q) && !OfResolver(q) && !q.ResolverReq? &&
        deadLetters == DeadLettersOf(q)
      case ABinding(q, _, _) => !OfPolling(q) && !OfResolver(q) && !q.ResolverReq? && d == BindingOf(q)
  {
  }

  lemma InResolver(d: Declaration)
    ensures d in Resolver() <==> match d
      case AnExchange(e, kind) => kind == Topology.Topic && e in {ResolverScan, ResolverDlx}
      case ARelay(_, _) => false
      case AQueue(q, deadLetters) => OfResolver(q) && deadLetters == DeadLettersOf(q)
      case ABinding(q, _, _) => OfResolver(q) && d == BindingOf(q)
  {
  }

  lemma InTags(tags: set<string>, d: Declaration)
    ensures d in Tags(tags) <==> match d
      case AnExchange(_, _) => false
      case ARelay(_, _) => false
      case AQueue(q, deadLetters) => q.ResolverReq? && q.tag in tags && deadLetters == DeadLettersOf(q)
      case ABinding(q, _, _) => q.ResolverReq? && q.tag in tags && d == BindingOf(q)
  {
    if d.AQueue? && d.queue.ResolverReq? {
      assert TagQueue(d.queue.tag).queue == d.queue;
    }
    if d.ABinding? && d.bound.ResolverReq? {
      assert TagBinding(d.bound.tag).bound == d.bound;
    }
  }

  lemma InUnion(d: Declaration, e: Broker, r: Broker, p: Broker, s: Broker, v: Broker, t: Broker)
    ensures d in e + r + p + s + v + t <==> d in e || d in r || d in p || d in s || d in v || d in t
  {
  }

  lemma Declared(tags: set<string>, d: Declaration)
    ensures d in Standard(tags) <==> Wanted(tags, d)
  {
    InUnion(d, Exchanges(), Relays(), Polling(), States(), Resolver(), Tags(tags));
    InExchanges(d);
    InRelays(d);
    InPolling(d);
    InStates(d);
    InResolver(d);
    InTags(tags, d);
  }

  ghost predicate Configured(tags: set<string>, broker: Broker) {
    forall d :: d in broker <==> Wanted(tags, d)
  }

  lemma StandardIsConfigured(tags: set<string>)
    ensures Configured(tags, Standard(tags))
  {
    forall d ensures d in Standard(tags) <==> Wanted(tags, d) {
      Declared(tags, d);
    }
  }

  /** One hop is enough to follow: nothing is relayed from an exchange that is itself relayed to. */
  lemma RelaysAreOneDeep(broker: Broker, tags: set<string>, a: Declaration, b: Declaration)
    requires Configured(tags, broker) && a in broker && a.ARelay? && b in broker && b.ARelay?
    ensures a.destination != b.source
  {
    assert Wanted(tags, a) && Wanted(tags, b);
  }

  /** The one binding of `q` lets the message through. */
  ghost predicate Gets(tags: set<string>, e: Exchange, key: string, q: Queue) {
    Known(tags, q) && (BindingOf(q).to == e || Relayed(e, BindingOf(q).to)) &&
      TopicMatches(BindingOf(q).key.Text(), key)
  }

  /** Where the exchanges of a queue's binding are declared. */
  lemma BindingDeclared(broker: Broker, tags: set<string>, e: Exchange, q: Queue)
    requires Configured(tags, broker)
    ensures var d := BindingOf(q);
      KindOf(d.to) == Topology.Topic && (Relayed(e, d.to) ==> KindOf(e) == Fanout) &&
      (d in broker <==> Known(tags, q)) &&
      (ARelay(d.to, e) in broker <==> Relayed(e, d.to)) &&
      AnExchange(d.to, Topology.Topic) in broker && AnExchange(d.to, Fanout) !in broker &&
      (AnExchange(e, Fanout) in broker <==> KindOf(e) == Fanout)
  {
    var d := BindingOf(q);
    assert d in broker <==> Wanted(tags, d);
    assert ARelay(d.to, e) in broker <==> Wanted(tags, ARelay(d.to, e));
    assert AnExchange(d.to, Topology.Topic) in broker <==> Wanted(tags, AnExchange(d.to, Topology.Topic));
    assert AnExchange(d.to, Fanout) in broker <==> Wanted(tags, AnExchange(d.to, Fanout));
    assert AnExchange(e, Fanout) in broker <==> Wanted(tags, AnExchange(e, Fanout));
  }

  lemma ReachedIff(broker: Broker, tags: set<string>, e: Exchange, key: string, q: Queue)
    requires Configured(tags, broker)
    ensures q in Reached(broker, e, key) <==> Gets(tags, e, key, q)
  {
    var d := BindingOf(q);
    BindingDeclared(broker, tags, e, q);
    if d in broker && Lands(broker, e, key, d) {
      assert d.bound in Reached(broker, e, key);
    }
    if q in Reached(broker, e, key) {
      var x :| x in broker && x.ABinding? && Lands(broker, e, key, x) && x.bound == q;
      assert Wanted(tags, x);
    }
  }

  lemma ReachedOnly(broker: Broker, tags: set<string>, e: Exchange, key: string, target: Option<Queue>)
    requires Configured(tags, broker)
    requires forall q :: Gets(tags, e, key, q) <==> target == Some(q)
    ensures Reached(broker, e, key) == match target case None => {} case Some(q) => {q}
  {
    var r := Reached(broker, e, key);
    forall q ensures q in r <==> target == Some(q) {
      ReachedIff(broker, tags, e, key, q);
      assert Gets(tags, e, key, q) <==> target == Some(q);
    }
  }

  // ---------- the messages of the scan workflows ----------

  /** The queue each topic made by `make_topic` is meant for; pushes are only awaited and reported. */
  function Destination(s: ScanState, w: Workflow): Option<Queue> {
    match (s, w)
    case (Await, _) => Some(AwaitedScans)
    case (Feedback, PR) => Some(PrFeedback)
    case (Feedback, PUSH) => Some(GenerateSarif)
    case (Failure, PR) => Some(PrScanFailure)
    case (Annotate, PR) => Some(PrAnnotating)
    case (Prescan, PR) => Some(PrescanPrAnnotating)
    case _ => None
  }

  lemma WordsAreDotless()
    ensures forall s: ScanState :: Dotless(s.Word()) && s.Word() != "*" && s.Word() != "#"
    ensures forall w: Workflow :: Dotless(w.Family()) && Dotless(w.Word())
    ensures forall w: Workflow :: w.Word() != "#" && w.Family() != "#"
    ensures forall w: Workflow :: w.Word() != "*" && w.Family() != "*"
  {
  }

  lemma StateWordsDiffer(a: ScanState, b: ScanState)
    ensures a.Word() == b.Word() ==> a == b
  {
    assert Await.Word()[0] == 'a' && Await.Word()[1] == 'w';
    assert Annotate.Word()[0] == 'a' && Annotate.Word()[1] == 'n';
    assert Failure.Word()[1] == 'a' && Feedback.Word()[1] == 'e';
    assert Prescan.Word()[0] == 'p';
  }

  lemma FlowWordsDiffer(a: Workflow, b: Workflow)
    ensures a.Word() == b.Word() ==> a == b
    ensures a.Family() == b.Family() ==> a == b
  {
    assert |PR.Word()| == 12 && |PUSH.Word()| == 14;
    assert |PR.Family()| == 2 && |PUSH.Family()| == 4;
  }

  /** A four-word front followed by a service name meets a four-word pattern front followed by `*`. */
  lemma FrontAccepts(pattern: seq<string>, front: seq<string>, moniker: string)
    requires |pattern| == 4 && |front| == 4
    requires forall w :: w in pattern ==> Dotless(w) && w != "#"
    requires forall w :: w in front ==> Dotless(w)
    ensures TopicMatches(Dotted(pattern + ["*"]), Dotted(front + [moniker])) <==>
      Dotless(moniker) && forall k :: 0 <= k < 4 ==> Fits(pattern[k], front[k])
  {
    var p, w := pattern + ["*"], front + Words(moniker);
    assert forall x :: x in p ==> Dotless(x) && x != "#";
    WordsOfDotted(p);
    WordsOfDottedTail(front, moniker);
    WordsCount(moniker);
    MatchesFixed(p, w);
    assert forall k :: 0 <= k < 4 ==> p[k] == pattern[k] && w[k] == front[k];
    if |w| == 5 && forall k :: 0 <= k < 4 ==> Fits(pattern[k], front[k]) {
      assert forall k :: 0 <= k < 5 ==> Fits(p[k], w[k]);
    }
    if Matches(p, w) {
      forall k | 0 <= k < 4 ensures Fits(pattern[k], front[k]) { assert Fits(p[k], w[k]); }
    }
  }

  lemma StatePatternAccepts(a: ScanState, wa: Workflow, b: ScanState, wb: Workflow, moniker: string)
    ensures TopicMatches(InState(a, wa).Text(), MakeTopic(b, wb, moniker)) <==> Dotless(moniker) && a == b && wa == wb
  {
    WordsAreDotless();
    StateWordsDiffer(a, b);
    FlowWordsDiffer(wa, wb);
    var p, f := TopicFront(a, wa), TopicFront(b, wb);
    FrontAccepts(p, f, moniker);
    assert Fits(p[2], f[2]) <==> a == b;
    assert Fits(p[1], f[1]) && Fits(p[3], f[3]) <==> wa == wb;
  }

  lemma PollPatternsAccept(s: ScanState, w: Workflow, moniker: string)
    ensures TopicMatches(Poll.Text(), MakeTopic(s, w, moniker)) <==> Dotless(moniker) && s == Await
    ensures TopicMatches(LegacyPoll.Text(), MakeTopic(s, w, moniker)) <==> Dotless(moniker) && s == Await && w == PR
  {
    WordsAreDotless();
    StateWordsDiffer(Await, s);
    FlowWordsDiffer(PR, w);
    var f := TopicFront(s, w);
    var p, q := ["cx", "*", "await", "*"], ["cx", "pr", "await", "*"];
    FrontAccepts(p, f, moniker);
    FrontAccepts(q, f, moniker);
    assert Fits(p[2], f[2]) <==> s == Await;
    assert Fits(p[0], f[0]) && Fits(p[1], f[1]) && Fits(p[3], f[3]) && Fits(q[3], f[3]);
    assert Fits(q[1], f[1]) <==> w == PR;
  }

  /** Each topic published to Scan In reaches exactly one queue, its own, exactly when the
      service name holds no dot; with a dot in the name the message reaches no queue at all. */
  lemma ScanInReaches(broker: Broker, tags: set<string>, s: ScanState, w: Workflow, moniker: string)
    requires Configured(tags, broker)
    ensures Reached(broker, ScanIn, MakeTopic(s, w, moniker)) ==
      if Dotless(moniker) && Destination(s, w).Some? then {Destination(s, w).value} else {}
  {
    var target := if Dotless(moniker) then Destination(s, w) else None;
    forall q ensures Gets(tags, ScanIn, MakeTopic(s, w, moniker), q) <==> target == Some(q) {
      ScanInGets(tags, s, w, moniker, q);
    }
    ReachedOnly(broker, tags, ScanIn, MakeTopic(s, w, moniker), target);
  }

  lemma ScanInGets(tags: set<string>, s: ScanState, w: Workflow, moniker: string, q: Queue)
    ensures Gets(tags, ScanIn, MakeTopic(s, w, moniker), q) <==> Dotless(moniker) && Destination(s, w) == Some(q)
  {
    match q
    case AwaitedScans => PollPatternsAccept(s, w, moniker);
    case PrFeedback => StatePatternAccepts(Feedback, PR, s, w, moniker);
    case GenerateSarif => StatePatternAccepts(Feedback, PUSH, s, w, moniker);
    case PrescanPrAnnotating => StatePatternAccepts(Prescan, PR, s, w, moniker);
    case PrAnnotating => StatePatternAccepts(Annotate, PR, s, w, moniker);
    case PrScanFailure => StatePatternAccepts(Failure, PR, s, w, moniker);
    case _ => assert !Relayed(ScanIn, BindingOf(q).to);
  }

  function AwaitTopic(w: Workflow, moniker: string): string {
    MakeTopic(Await, w, moniker)
  }

  /** The cycle of an await message: into an awaited queue, out of it to the one polling queue
      on its side, and from either side back to the current awaited queue. */
  lemma AwaitCycle(broker: Broker, tags: set<string>, w: Workflow, moniker: string)
    requires Configured(tags, broker)
    requires Dotless(moniker)
    ensures Reached(broker, ScanIn, AwaitTopic(w, moniker)) == {AwaitedScans}
    ensures Reached(broker, ScanPolling, AwaitTopic(w, moniker)) == {PollingScans}
    ensures Reached(broker, ScanInLegacy, AwaitTopic(PR, moniker)) == {AwaitedScansLegacy}
    ensures Reached(broker, ScanPollingLegacy, AwaitTopic(PR, moniker)) == {PollingScansLegacy}
  {
    ScanInReaches(broker, tags, Await, w, moniker);
    PollingReaches(broker, tags, w, moniker);
    LegacyReaches(broker, tags, moniker);
  }

  lemma PollingReaches(broker: Broker, tags: set<string>, w: Workflow, moniker: string)
    requires Configured(tags, broker)
    requires Dotless(moniker)
    ensures Reached(broker, ScanPolling, AwaitTopic(w, moniker)) == {PollingScans}
  {
    forall q ensures Gets(tags, ScanPolling, AwaitTopic(w, moniker), q) <==> q == PollingScans {
      PollingGets(tags, w, moniker, q);
    }
    ReachedOnly(broker, tags, ScanPolling, AwaitTopic(w, moniker), Some(PollingScans));
  }

  lemma PollingGets(tags: set<string>, w: Workflow, moniker: string, q: Queue)
    requires Dotless(moniker)
    ensures Gets(tags, ScanPolling, AwaitTopic(w, moniker), q) <==> q == PollingScans
    ensures Gets(tags, ScanPollingLegacy, AwaitTopic(PR, moniker), q) <==> q == PollingScansLegacy
  {
    match q
    case PollingScans => PollPatternsAccept(Await, w, moniker);
    case PollingScansLegacy => PollPatternsAccept(Await, PR, moniker);
    case _ => assert BindingOf(q).to != ScanPolling && BindingOf(q).to != ScanPollingLegacy;
  }

  lemma LegacyReaches(broker: Broker, tags: set<string>, moniker: string)
    requires Configured(tags, broker)
    requires Dotless(moniker)
    ensures Reached(broker, ScanInLegacy, AwaitTopic(PR, moniker)) == {AwaitedScansLegacy}
    ensures Reached(broker, ScanPollingLegacy, AwaitTopic(PR, moniker)) == {PollingScansLegacy}
  {
    forall q
      ensures Gets(tags, ScanInLegacy, AwaitTopic(PR, moniker), q) <==> q == AwaitedScansLegacy
      ensures Gets(tags, ScanPollingLegacy, AwaitTopic(PR, moniker), q) <==> q == PollingScansLegacy
    {
      LegacyGets(tags, moniker, q);
      PollingGets(tags, PR, moniker, q);
    }
    ReachedOnly(broker, tags, ScanInLegacy, AwaitTopic(PR, moniker), Some(AwaitedScansLegacy));
    ReachedOnly(broker, tags, ScanPollingLegacy, AwaitTopic(PR, moniker), Some(PollingScansLegacy));
  }

  lemma LegacyGets(tags: set<string>, moniker: string, q: Queue)
    ensures Gets(tags, ScanInLegacy, AwaitTopic(PR, moniker), q) <==> Dotless(moniker) && q == AwaitedScansLegacy
  {
    match q
    case AwaitedScansLegacy => PollPatternsAccept(Await, PR, moniker);
    case PrFeedback => StatePatternAccepts(Feedback, PR, Await, PR, moniker);
    case PrescanPrAnnotating => StatePatternAccepts(Prescan, PR, Await, PR, moniker);
    case PrAnnotating => StatePatternAccepts(Annotate, PR, Await, PR, moniker);
    case PrScanFailure => StatePatternAccepts(Failure, PR, Await, PR, moniker);
    case _ => assert !Relayed(ScanInLegacy, BindingOf(q).to);
  }

  // ---------- delegated scans ----------

  /** `[^0-9a-zA-z-_]+` finds nothing: the range A-z also lets `[ \ ] ^ _` and the backtick pass. */
  predicate TagChar(c: char) {
    '0' <= c <= '9' || 'a' <= c <= 'z' || 'A' <= c <= 'z' || c == '-' || c == '_'
  }

  predicate ValidTag(tag: string) {
    forall c :: c in tag ==> TagChar(c)
  }

  /** The characters that the refusal message promises: letters, digits, dashes and underscores. */
  predicate Promised(c: char) {
    'a' <= c <= 'z' || 'A' <= c <= 'Z' || '0' <= c <= '9' || c == '-' || c == '_'
  }

  const Unpromised: set<char> := {'[', '\\', ']', '^', '`'}

  predicate PromisedTag(tag: string) {
    forall c :: c in tag ==> Promised(c)
  }

  /** The test admits five characters beyond the promised ones. */
  lemma TagCharIff(c: char)
    ensures TagChar(c) <==> Promised(c) || c in Unpromised
    ensures Promised(c) ==> c !in Unpromised
  {
  }

  /** The test agrees with its message on a tag exactly when it refuses the tag or the tag holds none of
      the five; so it never refuses what is promised. */
  lemma TagTestAgreesIff(tag: string)
    ensures (ValidTag(tag) <==> PromisedTag(tag)) <==> !ValidTag(tag) || forall c :: c in tag ==> c !in Unpromised
    ensures PromisedTag(tag) ==> ValidTag(tag)
  {
    forall c | c in tag ensures TagChar(c) <==> Promised(c) || c in Unpromised {
      TagCharIff(c);
    }
    if ValidTag(tag) && !PromisedTag(tag) {
      var c :| c in tag && !Promised(c);
      assert c in Unpromised;
    }
  }

  /** A tag on which they disagree. */
  lemma ValidTagAdmitsMore()
    ensures ValidTag("a[b]") && !PromisedTag("a[b]")
  {
    assert "a[b]"[1] == '[' && '[' in "a[b]";
  }

  lemma ValidTagIsAWord(tag: string)
    requires ValidTag(tag)
    ensures Dotless(tag) && tag != "*" && tag != "#"
  {
    assert '*' in "*" && '#' in "#" && !TagChar('*') && !TagChar('#') && !TagChar('.');
  }

  lemma ResolverWords()
    ensures forall w :: w in RunScanFront || w in ScanCompleteFront ==> Dotless(w) && w != "*" && w != "#"
    ensures RunScanFront[4] != ScanCompleteFront[4]
  {
    assert RunScanFront[4][0] == 'r' && ScanCompleteFront[4][0] == 's';
  }

  /** What the pattern of tag `t` accepts, among all run-scan topics. */
  lemma TagPatternAccepts(t: string, tag: string, moniker: string)
    requires ValidTag(t) && ValidTag(tag)
    ensures TopicMatches(RunScan(t).Text(), MakeTopicForTag(tag, moniker)) <==> t == tag
  {
    ResolverWords();
    ValidTagIsAWord(t);
    ValidTagIsAWord(tag);
    var front, key := RunScanFront + [t], RunScanFront + [tag];
    WordsOfDotted(front + ["#"]);
    WordsOfDottedTail(key, moniker);
    MatchesTail(front, key + Words(moniker));
    assert forall k :: 0 <= k < 5 ==> front[k] == (key + Words(moniker))[k];
    assert (key + Words(moniker))[5] == tag && front[5] == t;
    assert Fits(front[5], (key + Words(moniker))[5]) <==> t == tag;
    assert forall k :: 0 <= k < 5 ==> Fits(front[k], (key + Words(moniker))[k]);
  }

  function CompleteWords(suffix: Option<string>): seq<string> {
    ScanCompleteFront + match suffix case None => [] case Some(tag) => Words(tag)
  }

  lemma ResultTopicWords(suffix: Option<string>)
    ensures Words(ResultTopic(suffix)) == CompleteWords(suffix)
  {
    ResolverWords();
    if suffix.Some? {
      WordsOfDottedTail(ScanCompleteFront, suffix.value);
    } else {
      WordsOfDotted(ScanCompleteFront);
      assert ScanCompleteFront + [] == ScanCompleteFront;
    }
  }

  lemma CompletePatternAccepts(suffix: Option<string>, tag: string, moniker: string)
    requires ValidTag(tag)
    ensures TopicMatches(ScanComplete.Text(), ResultTopic(suffix))
    ensures !TopicMatches(ScanComplete.Text(), MakeTopicForTag(tag, moniker))
    ensures !TopicMatches(RunScan(tag).Text(), ResultTopic(suffix))
  {
    ResolverWords();
    ValidTagIsAWord(tag);
    ResultTopicWords(suffix);
    WordsOfDotted(ScanCompleteFront + ["#"]);
    MatchesTail(ScanCompleteFront, CompleteWords(suffix));
    assert forall k :: 0 <= k < 5 ==> CompleteWords(suffix)[k] == ScanCompleteFront[k];
    assert forall k :: 0 <= k < 5 ==> Fits(ScanCompleteFront[k], CompleteWords(suffix)[k]);

    var run := RunScanFront + [tag] + Words(moniker);
    WordsOfDottedTail(RunScanFront + [tag], moniker);
    MatchesTail(ScanCompleteFront, run);
    assert run[4] == RunScanFront[4];
    assert !Fits(ScanCompleteFront[4], run[4]);

    var front := RunScanFront + [tag];
    WordsOfDotted(front + ["#"]);
    MatchesTail(front, CompleteWords(suffix));
    assert front[4] == RunScanFront[4];
    assert !Fits(front[4], CompleteWords(suffix)[4]);
  }

  lemma DlxPatternAccepts(tag: string, moniker: string)
    requires ValidTag(tag)
    ensures TopicMatches(DeadLetter.Text(), MakeTopicForTag(tag, moniker))
  {
    ResolverWords();
    ValidTagIsAWord(tag);
    var run := RunScanFront + [tag] + Words(moniker);
    WordsOfDottedTail(RunScanFront + [tag], moniker);
    WordsOfDotted(["cx", "res"] + ["#"]);
    MatchesTail(["cx", "res"], run);
    assert run[0] == "cx" && run[1] == "res";
    assert forall k :: 0 <= k < 2 ==> Fits(["cx", "res"][k], run[k]);
  }

  /** Tag isolation: for any service name, a run-scan topic reaches the queue of its own tag and
      no other, none if its tag has no queue, and dead-letters to the timeout queue; a result
      topic, with or without a tag, reaches only the queue of finished scans. */
  lemma TagIsolation(broker: Broker, tags: set<string>, tag: string, moniker: string, suffix: Option<string>)
    requires Configured(tags, broker)
    requires ValidTag(tag) && forall t :: t in tags ==> ValidTag(t)
    ensures Reached(broker, ResolverScan, MakeTopicForTag(tag,
      moniker)) == (if tag in tags then {ResolverReq(tag)} else {})
    ensures Reached(broker, ResolverScan, ResultTopic(suffix)) == {FinishedResolverScans}
    ensures Reached(broker, ResolverDlx, MakeTopicForTag(tag, moniker)) == {ResolverTimeout}
  {
    var run, res := MakeTopicForTag(tag, moniker), ResultTopic(suffix);
    forall q
      ensures Gets(tags, ResolverScan, run, q) <==> tag in tags && q == ResolverReq(tag)
      ensures Gets(tags, ResolverScan, res, q) <==> q == FinishedResolverScans
      ensures Gets(tags, ResolverDlx, run, q) <==> q == ResolverTimeout
    {
      ResolverGets(tags, tag, moniker, suffix, q);
    }
    ReachedOnly(broker, tags, ResolverScan, run, if tag in tags then Some(ResolverReq(tag)) else None);
    ReachedOnly(broker, tags, ResolverScan, res, Some(FinishedResolverScans));
    ReachedOnly(broker, tags, ResolverDlx, run, Some(ResolverTimeout));
  }

  lemma ResolverGets(tags: set<string>, tag: string, moniker: string, suffix: Option<string>, q: Queue)
    requires ValidTag(tag) && forall t :: t in tags ==> ValidTag(t)
    ensures Gets(tags, ResolverScan, MakeTopicForTag(tag, moniker), q) <==> tag in tags && q == ResolverReq(tag)
    ensures Gets(tags, ResolverScan, ResultTopic(suffix), q) <==> q == FinishedResolverScans
    ensures Gets(tags, ResolverDlx, MakeTopicForTag(tag, moniker), q) <==> q == ResolverTimeout
  {
    RunScanGets(tags, tag, moniker, suffix, q);
    ResultGets(tags, tag, moniker, suffix, q);
    DlxGets(tags, tag, moniker, q);
  }

  lemma DlxGets(tags: set<string>, tag: string, moniker: string, q: Queue)
    requires ValidTag(tag)
    ensures Gets(tags, ResolverDlx, MakeTopicForTag(tag, moniker), q) <==> q == ResolverTimeout
  {
    DlxPatternAccepts(tag, moniker);
    assert !q.ResolverTimeout? ==> BindingOf(q).to != ResolverDlx && !Relayed(ResolverDlx, BindingOf(q).to);
  }

  lemma RunScanGets(tags: set<string>, tag: string, moniker: string, suffix: Option<string>, q: Queue)
    requires ValidTag(tag) && forall t :: t in tags ==> ValidTag(t)
    ensures Gets(tags, ResolverScan, MakeTopicForTag(tag, moniker), q) <==> tag in tags && q == ResolverReq(tag)
  {
    match q
    case ResolverReq(other) =>
      if other in tags {
        TagPatternAccepts(other, tag, moniker);
      }
    case FinishedResolverScans => CompletePatternAccepts(suffix, tag, moniker);
    case _ => assert BindingOf(q).to != ResolverScan && !Relayed(ResolverScan, BindingOf(q).to);
  }

  lemma ResultGets(tags: set<string>, tag: string, moniker: string, suffix: Option<string>, q: Queue)
    requires ValidTag(tag) && forall t :: t in tags ==> ValidTag(t)
    ensures Gets(tags, ResolverScan, ResultTopic(suffix), q) <==> q == FinishedResolverScans
  {
    match q
    case ResolverReq(other) =>
      if other in tags {
        CompletePatternAccepts(suffix, other, moniker);
      }
    case FinishedResolverScans => CompletePatternAccepts(suffix, tag, moniker);
    case _ => assert BindingOf(q).to != ResolverScan && !Relayed(ResolverScan, BindingOf(q).to);
  }

  // ---------- queue names ----------

  function Hex(n: nat): char
    requires n < 16
  {
    "0123456789ABCDEF"[n]
  }

  /** `urllib.parse.quote` of one character of a valid tag; all of them are ASCII. */
  function QuoteChar(c: char): string
    requires TagChar(c)
  {
    if 'a' <= c <= 'z' || 'A' <= c <= 'Z' || '0' <= c <= '9' || c == '_' || c == '-' then [c]
    else ['%', Hex(c as int / 16), Hex(c as int % 16)]
  }

  function Quote(tag: string): string
    requires ValidTag(tag)
  {
    if tag == "" then "" else QuoteChar(tag[0]) + Quote(tag[1..])
  }

  function MakeQueuenameForTag(tag: string): string
    requires ValidTag(tag)
  {
    "cx:res:Resolver Req:" + Quote(tag)
  }

  lemma HexDiffers(m: nat, n: nat)
    requires m < 16 && n < 16 && Hex(m) == Hex(n)
    ensures m == n
  {
  }

  lemma QuoteCharDiffers(a: char, b: char, s: string, t: string)
    requires TagChar(a) && TagChar(b)
    requires QuoteChar(a) + s == QuoteChar(b) + t
    ensures a == b && s == t
  {
    var x, y := QuoteChar(a) + s, QuoteChar(b) + t;
    assert x[0] == QuoteChar(a)[0] && y[0] == QuoteChar(b)[0];
    if QuoteChar(a)[0] == '%' {
      assert x[1] == QuoteChar(a)[1] && y[1] == QuoteChar(b)[1];
      assert x[2] == QuoteChar(a)[2] && y[2] == QuoteChar(b)[2];
      HexDiffers(a as int / 16, b as int / 16);
      HexDiffers(a as int % 16, b as int % 16);
    }
    assert s == x[|QuoteChar(a)|..] && t == y[|QuoteChar(b)|..];
  }

  /** Distinct valid tags have distinct queue names, so the queue of a tag is its own. */
  lemma {:induction false} QueueNamesDiffer(a: string, b: string)
    requires ValidTag(a) && ValidTag(b)
    ensures MakeQueuenameForTag(a) == MakeQueuenameForTag(b) <==> a == b
  {
    if MakeQueuenameForTag(a) == MakeQueuenameForTag(b) {
      var stub := "cx:res:Resolver Req:";
      assert Quote(a) == MakeQueuenameForTag(a)[|stub|..];
      assert Quote(b) == MakeQueuenameForTag(b)[|stub|..];
      QuoteDiffers(a, b);
    }
  }

  lemma {:induction false} QuoteDiffers(a: string, b: string)
    requires ValidTag(a) && ValidTag(b) && Quote(a) == Quote(b)
    ensures a == b
  {
    if a != "" && b != "" {
      QuoteCharDiffers(a[0], b[0], Quote(a[1..]), Quote(b[1..]));
      QuoteDiffers(a[1..], b[1..]);
      assert a == [a[0]] + a[1..] && b == [b[0]] + b[1..];
    }
  }
}
