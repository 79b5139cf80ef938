/** The exchanges, queues and bindings that `rabbit_config.setup` declares, the
    routing keys the services publish with, and where each key lands. */
module Topology {
  import opened Common
  import opened Topics

  datatype Kind = Fanout | Topic

  datatype Exchange =
    | ScanIn | ScanInLegacy
    | ScanAwait | ScanAwaitLegacy
    | ScanPolling | ScanPollingLegacy
    | PrescanAnnotate | ScanAnnotate | ScanFeedback | SarifWork
    | ResolverScan | ResolverDlx

  datatype Queue =
    | AwaitedScans | AwaitedScansLegacy
    | PollingScans | PollingScansLegacy
    | PrescanPrAnnotating | PrAnnotating | PrFeedback | PrScanFailure | GenerateSarif
    | ResolverTimeout | FinishedResolverScans
    | ResolverReq(tag: string)

  /** One call on a channel: declaring again what is already declared changes nothing. */
  datatype Declaration =
    | AnExchange(exchange: Exchange, kind: Kind)
    | ARelay(destination: Exchange, source: Exchange)
    | AQueue(queue: Queue, deadLetters: Option<Exchange>)
    | ABinding(bound: Queue, to: Exchange, key: RouteKey)

  /** What a broker knows is the set of the declarations it has received. */
  type Broker = set<Declaration>

  // ---------- the words of the keys ----------

  datatype ScanState = Await | Feedback | Annotate | Failure | Prescan {
    function Word(): string {
      match this
      case Await => "await"
      case Feedback => "feedback"
      case Annotate => "annotate"
      case Failure => "failed"
      case Prescan => "prescan"
    }
  }

  datatype Workflow = PR | PUSH {
    /** The family and workflow words of the topics made for this workflow. */
    function Family(): string { if PR? then "pr" else "push" }
    function Word(): string { if PR? then "pull-request" else "push-gen-sarif" }
  }

  function TopicFront(state: ScanState, workflow: Workflow): seq<string> {
    ["cx", workflow.Family(), state.Word(), workflow.Word()]
  }

  /** `make_topic` of the PR and of the push feedback service. */
  function MakeTopic(state: ScanState, workflow: Workflow, moniker: string): string {
    Dotted(TopicFront(state, workflow) + [moniker])
  }

  const RunScanFront := ["cx", "res", "exec", "sca-resolver", "run-scan"]
  const ScanCompleteFront := ["cx", "res", "exec", "sca-resolver", "scan-complete"]

  function MakeTopicForTag(tag: string, moniker: string): string {
    Dotted(RunScanFront + [tag] + [moniker])
  }

  function MakeRoutekeyForTag(tag: string): string {
    Dotted(RunScanFront + [tag] + ["#"])
  }

  /** The topic of a result: an agent appends its tag, the timeout handler appends nothing. */
  function ResultTopic(suffix: Option<string>): string {
    match suffix
    case None => Dotted(ScanCompleteFront)
    case Some(tag) => Dotted(ScanCompleteFront + [tag])
  }

  lemma {:induction false} DottedMore(words: seq<string>, last: string)
    requires words != []
    ensures Dotted(words + [last]) == Dotted(words) + "." + last
  {
    if |words| > 1 {
      assert (words + [last])[1..] == words[1..] + [last];
      DottedMore(words[1..], last);
      assert words[0] + "." + (Dotted(words[1..]) + "." + last) == words[0] + "." + Dotted(words[1..]) + "." + last;
    }
  }

  lemma FourDotted(a: string, b: string, c: string, d: string)
    ensures Dotted([a, b, c, d]) == a + "." + b + "." + c + "." + d
  {
    DottedMore([a], b);
    DottedMore([a, b], c);
    DottedMore([a, b, c], d);
    assert [a] + [b] == [a, b] && [a, b] + [c] == [a, b, c] && [a, b, c] + [d] == [a, b, c, d];
  }

  lemma Grouped(x: string, a: string, b: string, c: string)
    ensures x + a + b + c == x + (a + b + c)
  {
  }

  /** The texts of the topics that scan workflows are published under. */
  lemma TopicTexts(state: ScanState, moniker: string)
    ensures MakeTopic(state, PR, moniker) == "cx.pr." + state.Word() + ".pull-request." + moniker
    ensures MakeTopic(state, PUSH, moniker) == "cx.push." + state.Word() + ".push-gen-sarif." + moniker
    ensures state.Word() == match state
      case Await => "await" case Feedback => "feedback" case Annotate => "annotate" case Failure => "failed"
      case Prescan => "prescan"
  {
    var word := state.Word();
    DottedMore(TopicFront(state, PR), moniker);
    DottedMore(TopicFront(state, PUSH), moniker);
    FourDotted("cx", "pr", word, "pull-request");
    FourDotted("cx", "push", word, "push-gen-sarif");
    assert "cx" + "." + "pr" + "." == "cx.pr." && "cx" + "." + "push" + "." == "cx.push.";
    assert "." + "pull-request" + "." == ".pull-request." && "." + "push-gen-sarif" + "." == ".push-gen-sarif.";
    Grouped("cx.pr." + word, ".", "pull-request", ".");
    Grouped("cx.push." + word, ".", "push-gen-sarif", ".");
  }

  lemma ResolverText()
    ensures "cx" + "." + "res" + "." + "exec" + "." + "sca-resolver" == "cx.res.exec.sca-resolver"
  {
    assert "cx" + "." + "res" + "." == "cx.res.";
    assert "cx.res." + "exec" + "." == "cx.res.exec.";
    assert "cx.res.exec." + "sca-resolver" == "cx.res.exec.sca-resolver";
  }

  lemma FrontTexts()
    ensures Dotted(RunScanFront) == "cx.res.exec.sca-resolver" + "." + "run-scan"
    ensures Dotted(ScanCompleteFront) == "cx.res.exec.sca-resolver" + "." + "scan-complete"
  {
    var front := ["cx", "res", "exec", "sca-resolver"];
    ResolverText();
    FourDotted("cx", "res", "exec", "sca-resolver");
    DottedMore(front, "run-scan");
    DottedMore(front, "scan-complete");
    assert RunScanFront == front + ["run-scan"];
    assert ScanCompleteFront == front + ["scan-complete"];
  }

  /** The texts of the topics of delegated scans, and of the key that the queue of a tag is bound with. */
  lemma ResolverTexts(tag: string, moniker: string)
    ensures MakeTopicForTag(tag, moniker) == "cx.res.exec.sca-resolver" + "." + "run-scan" + "." + tag + "." + moniker
    ensures MakeRoutekeyForTag(tag) == "cx.res.exec.sca-resolver" + "." + "run-scan" + "." + tag + "." + "#"
    ensures ResultTopic(None) == "cx.res.exec.sca-resolver" + "." + "scan-complete"
    ensures ResultTopic(Some(tag)) == "cx.res.exec.sca-resolver" + "." + "scan-complete" + "." + tag
  {
    FrontTexts();
    DottedMore(RunScanFront, tag);
    DottedMore(RunScanFront + [tag], moniker);
    DottedMore(RunScanFront + [tag], "#");
    DottedMore(ScanCompleteFront, tag);
  }

  // ---------- the declarations ----------

  /** The routing keys queues are bound with, by the constant that names each. */
  datatype RouteKey =
    | Poll | LegacyPoll | InState(state: ScanState, workflow: Workflow)
    | ScanComplete | DeadLetter | RunScan(tag: string)
  {
    function Text(): string {
      match this
      case Poll => Dotted(["cx", "*", "await", "*"] + ["*"])
      case LegacyPoll => Dotted(["cx", "pr", "await", "*"] + ["*"])
      case InState(state, workflow) => Dotted(TopicFront(state, workflow) + ["*"])
      case ScanComplete => Dotted(ScanCompleteFront + ["#"])
      case DeadLetter => Dotted(["cx", "res"] + ["#"])
      case RunScan(tag) => MakeRoutekeyForTag(tag)
    }
  }

  function Exchanges(): Broker {
    {AnExchange(ScanInLegacy, Fanout), AnExchange(ScanIn, Fanout),
     AnExchange(ScanAwaitLegacy, Topic), AnExchange(ScanAwait, Topic),
     AnExchange(PrescanAnnotate, Topic), AnExchange(ScanAnnotate, Topic),
     AnExchange(ScanFeedback, Topic), AnExchange(SarifWork, Topic)}
  }

  function Relays(): Broker {
    {ARelay(ScanAwaitLegacy, ScanInLegacy), ARelay(ScanAwait, ScanIn),
     ARelay(ScanFeedback, ScanInLegacy), ARelay(ScanFeedback, ScanIn), ARelay(SarifWork, ScanIn),
     ARelay(ScanAnnotate, ScanInLegacy), ARelay(ScanAnnotate, ScanIn),
     ARelay(PrescanAnnotate, ScanInLegacy), ARelay(PrescanAnnotate, ScanIn)}
  }

  function Polling(): Broker {
    {AnExchange(ScanPollingLegacy, Topic), AnExchange(ScanPolling, Topic),
     AQueue(AwaitedScansLegacy, Some(ScanPollingLegacy)), AQueue(AwaitedScans, Some(ScanPolling)),
     ABinding(AwaitedScansLegacy, ScanAwaitLegacy, LegacyPoll),
     ABinding(AwaitedScans, ScanAwait, Poll),
     AQueue(PollingScansLegacy, None), AQueue(PollingScans, None),
     ABinding(PollingScansLegacy, ScanPollingLegacy, LegacyPoll),
     ABinding(PollingScans, ScanPolling, Poll)}
  }

  function States(): Broker {
    {AQueue(PrFeedback, None), ABinding(PrFeedback, ScanFeedback, InState(Feedback, PR)),
     AQueue(GenerateSarif, None), ABinding(GenerateSarif, SarifWork, InState(Feedback, PUSH)),
     AQueue(PrescanPrAnnotating, None), ABinding(PrescanPrAnnotating, PrescanAnnotate, InState(Prescan, PR)),
     AQueue(PrAnnotating, None), ABinding(PrAnnotating, ScanAnnotate, InState(Annotate, PR)),
     AQueue(PrScanFailure, None), ABinding(PrScanFailure, ScanFeedback, InState(Failure, PR))}
  }

  function Resolver(): Broker {
    {AnExchange(ResolverScan, Topic), AnExchange(ResolverDlx, Topic),
     AQueue(ResolverTimeout, None), ABinding(ResolverTimeout, ResolverDlx, DeadLetter),
     AQueue(FinishedResolverScans, None), ABinding(FinishedResolverScans, ResolverScan, ScanComplete)}
  }

  function TagQueue(tag: string): Declaration {
    AQueue(ResolverReq(tag), Some(ResolverDlx))
  }

  function TagBinding(tag: string): Declaration {
    ABinding(ResolverReq(tag), ResolverScan, RunScan(tag))
  }

  function Tags(tags: set<string>): Broker {
    (set t | t in tags :: TagQueue(t)) + (set t | t in tags :: TagBinding(t))
  }

  /** Everything declared for services that together allow these agent tags. */
  function Standard(tags: set<string>): Broker {
    Exchanges() + Relays() + Polling() + States() + Resolver() + Tags(tags)
  }

  function AllTags(services: seq<seq<string>>): set<string> {
    if services == [] then {} else AllTags(services[..|services| - 1]) + ToSet(services[|services| - 1])
  }

  function ToSet(tags: seq<string>): set<string> {
    if tags == [] then {} else ToSet(tags[..|tags| - 1]) + {tags[|tags| - 1]}
  }

  lemma {:induction false} ToSetIs(tags: seq<string>)
    ensures forall t :: t in ToSet(tags) <==> t in tags
  {
    if tags != [] {
      ToSetIs(tags[..|tags| - 1]);
      assert tags == tags[..|tags| - 1] + [tags[|tags| - 1]];
    }
  }

  /** The tags of all services are exactly those that some service allows. */
  lemma {:induction false} AllTagsAre(services: seq<seq<string>>, tag: string)
    ensures tag in AllTags(services) <==> exists service :: service in services && tag in service
  {
    if services != [] {
      var front, last := services[..|services| - 1], services[|services| - 1];
      AllTagsAre(front, tag);
      ToSetIs(last);
      assert services == front + [last];
    }
  }

  lemma TagsAdd(a: set<string>, b: set<string>)
    ensures Tags(a) + Tags(b) == Tags(a + b)
  {
  }

  lemma Associates(a: Broker, b: Broker, c: Broker)
    ensures a + b + c == a + (b + c)
  {
  }

  lemma Regroup(was: Broker, e: Broker, r: Broker, p: Broker, s: Broker, v: Broker, t: Broker)
    ensures was + e + r + p + s + v + t == was + (e + r + p + s + v + t)
  {
  }

  lemma Doubles(x: Broker, a: Broker, b: Broker)
    ensures (x + a) + (x + b) == x + (a + b)
  {
  }

  /** Declaring again, for another service or at another start, only adds tags. */
  lemma SetupIsIdempotent(before: set<string>, more: set<string>)
    ensures Standard(before) + Standard(more) == Standard(before + more)
  {
    TagsAdd(before, more);
    Doubles(Exchanges() + Relays() + Polling() + States() + Resolver(), Tags(before), Tags(more));
  }

  /** The connection `setup` declares through. */
  class RabbitConfig {
    var declared: Broker

    constructor ()
      ensures declared == {}
    {
      declared := {};
    }

    method Declare(d: Declaration)
      modifies this
      ensures declared == old(declared) + {d}
    {
      declared := declared + {d};
    }

    method DeclareScanExchanges()
      modifies this
      ensures declared == old(declared) + Exchanges()
    {
      Declare(AnExchange(ScanInLegacy, Fanout));
      Declare(AnExchange(ScanIn, Fanout));
      Declare(AnExchange(ScanAwaitLegacy, Topic));
      Declare(AnExchange(ScanAwait, Topic));
      Declare(AnExchange(PrescanAnnotate, Topic));
      Declare(AnExchange(ScanAnnotate, Topic));
      Declare(AnExchange(ScanFeedback, Topic));
      Declare(AnExchange(SarifWork, Topic));
    }

    method BindScanExchanges()
      modifies this
      ensures declared == old(declared) + Relays()
    {
      Declare(ARelay(ScanAwaitLegacy, ScanInLegacy));
      Declare(ARelay(ScanAwait, ScanIn));
      Declare(ARelay(ScanFeedback, ScanInLegacy));
      Declare(ARelay(ScanFeedback, ScanIn));
      Declare(ARelay(SarifWork, ScanIn));
      Declare(ARelay(ScanAnnotate, ScanInLegacy));
      Declare(ARelay(ScanAnnotate, ScanIn));
      Declare(ARelay(PrescanAnnotate, ScanInLegacy));
      Declare(ARelay(PrescanAnnotate, ScanIn));
    }

    method DeclarePolling()
      modifies this
      ensures declared == old(declared) + Polling()
    {
      Declare(AnExchange(ScanPollingLegacy, Topic));
      Declare(AnExchange(ScanPolling, Topic));
      Declare(AQueue(AwaitedScansLegacy, Some(ScanPollingLegacy)));
      Declare(AQueue(AwaitedScans, Some(ScanPolling)));
      Declare(ABinding(AwaitedScansLegacy, ScanAwaitLegacy, LegacyPoll));
      Declare(ABinding(AwaitedScans, ScanAwait, Poll));
      Declare(AQueue(PollingScansLegacy, None));
      Declare(AQueue(PollingScans, None));
      Declare(ABinding(PollingScansLegacy, ScanPollingLegacy, LegacyPoll));
      Declare(ABinding(PollingScans, ScanPolling, Poll));
    }

    method DeclareStates()
      modifies this
      ensures declared == old(declared) + States()
    {
      Declare(AQueue(PrFeedback, None));
      Declare(ABinding(PrFeedback, ScanFeedback, InState(Feedback, PR)));
      Declare(AQueue(GenerateSarif, None));
      Declare(ABinding(GenerateSarif, SarifWork, InState(Feedback, PUSH)));
      Declare(AQueue(PrescanPrAnnotating, None));
      Declare(ABinding(PrescanPrAnnotating, PrescanAnnotate, InState(Prescan, PR)));
      Declare(AQueue(PrAnnotating, None));
      Declare(ABinding(PrAnnotating, ScanAnnotate, InState(Annotate, PR)));
      Declare(AQueue(PrScanFailure, None));
      Declare(ABinding(PrScanFailure, ScanFeedback, InState(Failure, PR)));
    }

    method DeclareResolver(agentTags: seq<string>)
      modifies this
      ensures declared == old(declared) + Resolver() + Tags(ToSet(agentTags))
    {
      Declare(AnExchange(ResolverScan, Topic));
      Declare(AnExchange(ResolverDlx, Topic));
      Declare(AQueue(ResolverTimeout, None));
      Declare(ABinding(ResolverTimeout, ResolverDlx, DeadLetter));
      ghost var was := declared;
      for i := 0 to |agentTags|
        invariant declared == was + Tags(ToSet(agentTags[..i]))
      {
        Declare(TagQueue(agentTags[i]));
        Declare(TagBinding(agentTags[i]));
        assert agentTags[..i + 1][..i] == agentTags[..i];
        TagsAdd(ToSet(agentTags[..i]), {agentTags[i]});
      }
      assert agentTags[..|agentTags|] == agentTags;
      Declare(AQueue(FinishedResolverScans, None));
      Declare(ABinding(FinishedResolverScans, ResolverScan, ScanComplete));
    }

    /** One pass per configured service; each service contributes its agent tags. */
    method Setup(services: seq<seq<string>>)
      modifies this
      ensures declared == if services == [] then old(declared) else old(declared) + Standard(AllTags(services))
    {
      for i := 0 to |services|
        invariant declared == if i == 0 then old(declared) else old(declared) + Standard(AllTags(services[..i]))
      {
        ghost var was := declared;
        DeclareScanExchanges();
        BindScanExchanges();
        DeclarePolling();
        DeclareStates();
        DeclareResolver(services[i]);
        assert services[..i + 1][..i] == services[..i];
        var before, tags := AllTags(services[..i]), ToSet(services[i]);
        Regroup(was, Exchanges(), Relays(), Polling(), States(), Resolver(), Tags(tags));
        if i == 0 {
          assert before + tags == tags;
        } else {
          SetupIsIdempotent(before, tags);
          Associates(old(declared), Standard(before), Standard(tags));
        }
      }
      assert services[..|services|] == services;
    }
  }
}
