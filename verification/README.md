# CxOneFlow, modelled and proved

CxOneFlow starts Checkmarx One scans from webhook events, waits for them, and reports back to pull
requests and pushes. All of its long-running state is in AMQP messages: a scan that is being waited
for is a message soaking in a queue, a scan delegated to an agent is a signed request in the queue
of its tag. This project models the handlers, the queue topology they rely on, the broker's steps and
the clock, and proves what holds over whole runs. It then models how pull-request comments are rendered,
recognised and kept single, and the small stateful loops around them.

Verify it with `dafny verify dfyconfig.toml` (Dafny 4.11). Nothing here is executed.

## How it is built

`Common` holds what the modules share. *The broker.* `Topics` has routing keys as text and the topic matching of AMQP 0-9-1, section 3.1.3.3.
`Topology` declares what `setup` declares, call by call; `Routing` says where a message gets, with fanout
exchanges as in section 3.1.3.2 of AMQP 0-9-1. `Amqp` has messages, deliveries and effects. Dead-lettering
is RabbitMQ's: the routing key is kept, the time to live moves into the death record, and a new message
has none. A publish is confirmed, refused, or raises; only a confirmed one is stored. A handler is a
class-based, step-by-step method over a `Session` proved equal to a *plan*, the list of its effects; runs
interleave single effects of any number of handlers with expiry, the clock and crashes, after which an
unsettled delivery is redelivered. What the outside world answers a handler is a parameter of its delivery,
so every theorem holds for all answers.

*Scan polling.* `Backoff`, `Polling`, `PollingRuns` (the state machine and its invariant) and
`PollingTheorems`. *Delegated scans.* `Delegation`, `Orchestration`, `DelegationRuns`,
`DelegationTheorems` and `DelegationMessages`; runs go from the event that arrives to the await message that
its scan starts with, so `AtMostOneAwait` is what the runs of polling assume of scans that are started, and
`Handover` says what the first poll of such a message does. The history `lineage` of a record is kept by the
broker's steps, not by the handlers.

Plans, keys and contents are each also stated apart from the functions that make them: `ReportsIff`, `RepeatsIff`,
`RunnerSays`, `TimeoutSays`, `OneRoute`, `EventSays`, `ResultsSay`, `PiecesAreLaid`, `KeyOrder`, `LookupIff` and
`EventSets` speak of answers, messages and documents alone.

*Comments.* `Comments` (the appender with its early exits, the recogniser), `DetailRows` and `Versions`
(row order), `CommentUpsert` (the page generator and the one comment of a pull request).

*Loops.* `Paging`, `Grouping`, `CheckRuns`, `Kickoff`, `Redaction`.

## What the code does that its text does not say

- The tag test (workflows/resolver_scan_service.py:22) writes `A-z`, so it also lets through
  `[`, `\`, `]`, `^` and the backquote, which its refusal message excludes (`TagTestAgreesIff` says
  on which tags they disagree, `ValidTagAdmitsMore` gives one); isolation of tags is proved for all
  that it admits.
- A service name with a dot gets none of its scan-workflow messages delivered (`ScanInReaches`), so a scan
  started under one is never polled (`NeverLost`); delegated scans do not mind the dot (`TagIsolation`).
- A poll acknowledges its scan also when the publish of the report was refused, because the answer is
  ignored: then neither token nor report is left (`LeavesNothingIff`).
- When loading a scan fails with anything but a response error, or when the channel does not close, the
  inner polling handler settles and the outer one settles again (`SettledOnce` says exactly when).
- An agent leaves its delivery unsettled when its executor cannot be entered or its workflow not be built from
  the public key, because the exception path uses a name that was not bound yet, and when its failure
  report raises, which happens outside of any handler
  (agent/resolver/runner_agent.py:80-86, 189-203; `RunnerFate`).
- For an invalid signature the timeout and results agents log a field that the details do not have
  (agent/resolver/timeout_agent.py:20, agent/resolver/results_agent.py:32), so the results agent
  rejects what it looks like it acknowledges (`ResultsFate`).
- A local scan that was submitted and then fails on leaving its clone runs and is never awaited (`OneRoute`).
- Padded version numbers order like numbers exactly below one thousand (`VersionOrderIff`), and in the full
  key of a package a version that is continued by another comes after it, because the identifier that
  follows begins above the dot (`ScaVersionOrderIff`).
- BitBucket Cloud comments are found again only if their text kept the identifier: with an overflow link that
  leaves 17 characters or fewer, the event after the one that wrote it adds another (`RenderedRecognisedIff`;
  `PostsAreCounted` and `PostsOnceIff` for runs, `SecondEventUpdatesIff` at its smallest); and the search
  stops at an empty page (`CompleteIff`).

## Model

| member | source | states |
|---|---|---|
| Topics.WordsOfDotted | rabbit_config.py:136-142 | Splitting a routing key undoes joining words that hold no dot |
| Topics.DottedOfWords | rabbit_config.py:136-142 | Joining the words of any key gives the key back |
| Topics.MatchesFixed | workflows/scan_polling_service.py:17-19 | A pattern without `#` accepts exactly the keys of its length whose words fit one by one |
| Topics.MatchesTail | workflows/resolver_scan_service.py:32-37 | A pattern ending in `#` accepts exactly the keys whose front words fit, whatever follows |
| Topology.TopicTexts | workflows/feedback_services/pr/abstract_pr_service.py:44-46 | The texts of the topics that scan workflows are published under, state by state |
| Topology.ResolverTexts | workflows/resolver_scan_service.py:90-96 | The texts of the topics of delegated scans and of the key of a tag's queue |
| Topology.AllTagsAre | rabbit_config.py:240-251 | Setup declares for exactly the tags that some service allows |
| Topology.SetupIsIdempotent | rabbit_config.py:18-23 | Declaring for one service after another, or again, only adds tags |
| Topology.RabbitConfig.DeclareResolver | rabbit_config.py:214-263 | The loop over the tags of a service ends with one queue and binding for each of them |
| Topology.RabbitConfig.Setup | rabbit_config.py:18-263 | After the loop over all services the broker holds what it had and the standard topology for the tags of all services |
| Routing.Declared | rabbit_config.py:18-263 | Looks every exchange, relay, queue and binding of the topology up, and nothing else is declared |
| Routing.StandardIsConfigured | rabbit_config.py:18-263 | What setup leaves is a configured broker, of which the routing theorems speak |
| Routing.RelaysAreOneDeep | rabbit_config.py:86-98 | Nothing is relayed from an exchange that is itself relayed to |
| Routing.ReachedIff | rabbit_config.py:86-263 | A queue gets a message exactly when its one binding is reached from the exchange and accepts the key |
| Routing.ScanInReaches | rabbit_config.py:86-98 | A topic of any state and workflow published to Scan In reaches its one queue when the service name has no dot, and no queue otherwise |
| Routing.AwaitCycle | rabbit_config.py:115-162 | An await message goes to one awaited queue, dead-letters to one polling queue on its side, and is re-published to the current awaited queue |
| Routing.LegacyReaches | workflows/feedback_services/pr/queue_constants.py:9-27 | The await messages of pull requests on the legacy exchanges reach the legacy queues only |
| Routing.TagCharIff | workflows/resolver_scan_service.py:22 | The tag test admits exactly the characters that its refusal message promises and five more |
| Routing.TagTestAgreesIff | workflows/resolver_scan_service.py:45-49 | The test agrees with its message on a tag exactly when it refuses the tag or the tag holds none of the five; what is promised is never refused |
| Routing.TagIsolation | workflows/resolver_scan_service.py:27-41 | A run-scan topic of a valid tag reaches the queue of that tag alone, for any service name; a result topic, tagged or not, only the queue of finished scans; a dead request only the timeout queue |
| Routing.QueueNamesDiffer | workflows/resolver_scan_service.py:98-102 | Different valid tags get different queue names, quoting included |
| Backoff.ClosedForm | workflows/scan_polling_service.py:139-148 | The n-th wait is min(e0 * k^n, cap) |
| Backoff.WaitsNeverShrink | workflows/scan_polling_service.py:139-148 | From the first re-enqueue on waits never shrink, and stay at the cap |
| Backoff.SumIsLong | workflows/scan_polling_service.py:139-148 | n waits last at least n times the shorter of the first wait and the cap |
| Backoff.SumAtCap | workflows/scan_polling_service.py:139-148 | Waits from a capped one on last the cap each |
| Polling.Broadcast | workflows/scan_polling_service.py:73-78 | Telling every service of a finished scan publishes once per service of its workflow, by loop |
| Polling.BroadcastReachesOneService | config/server/__init__.py:647-650 | Of the configured services exactly one has the workflow of the scan, so a report is never doubled |
| Polling.ExecutePollScanWorkflow | workflows/scan_polling_service.py:40-166 | The nested try and finally blocks have exactly the effects of the plan, and raise exactly when it does |
| Polling.RequeueInFinally | workflows/scan_polling_service.py:130-163 | The re-enqueue publishes the successor under the same key and settles by its confirm |
| Polling.ProcessPoll | workflow_agent.py:37-47 | The outer handler has exactly the effects of the whole plan |
| Polling.ReportsIff | workflows/scan_polling_service.py:59-114 | In terms of the answers alone: a delivery in time reports exactly what the scan and its policies tell, success only of a scan that succeeded and passed at first asking, with its scan, workflow and service, under the topic of that |
| Polling.RepeatsIff | workflows/scan_polling_service.py:116-152 | It asks again exactly when the scan still runs or its end, policy or report cannot be had: the same body and key, after the capped multiple of the last wait |
| Polling.RunningGoesOn | workflows/scan_polling_service.py:130-158 | A scan that still runs is never dropped in time: one successor exactly on a confirm, redelivery on a refusal, rejection on a raise |
| Polling.SilentAckIff | workflows/scan_polling_service.py:48-52 | A delivery is acknowledged with no publish before exactly when it is too old or the scan answers with a response error |
| Polling.PollFate | workflows/scan_polling_service.py:44-163 | Exactly when a delivery is acknowledged, redelivered or dropped, for every combination of answers |
| Polling.SettledOnce | workflows/scan_polling_service.py:117-166 | A delivery is settled once, and twice exactly when the inner handler settles it and then raises: for a foreign error, or because its channel does not close |
| Polling.AckMeans | workflows/scan_polling_service.py:116-158 | An acknowledged delivery has stored exactly the report of what its answers tell, or exactly its successor, or nothing when it was too old, could not be read, or had its report refused |
| PollingRuns.Always | workflows/scan_polling_service.py:40-166 | Every state of every run satisfies the invariant: queues, waits, death records and what handlers have stored |
| PollingTheorems.EndingStores | workflows/scan_polling_service.py:44-163 | What a settled delivery has stored, by its ending: the one report of what it was answered, its one successor, or nothing |
| PollingTheorems.NeverLost | workflows/scan_polling_service.py:44-163 | In every state of every run, crashes and refusals included, each scan started under a name without a dot has its token with its body and routing key present, or its last delivery came to an ending that is named by its answers; one started under a dotted name never had a token |
| PollingTheorems.LeavesNothingIff | workflows/scan_polling_service.py:44-163 | A copy of a started scan's token has left neither itself nor a report exactly when the name has a dot or its last delivery was too old, was stopped, had its report refused, knew no service, got no channel, or could not be re-enqueued |
| PollingTheorems.NothingIsLost | workflows/scan_polling_service.py:44-163 | With known names without dots, open channels, answered re-enqueues and reports that are not refused, each started scan has its token present, or a report of what its last poll found, or was last polled after its deadline or answered with a response error; crashes and refused re-enqueues included |
| PollingTheorems.PollingIsBounded | workflows/scan_polling_service.py:48-52 | n re-enqueues satisfy n * min(e0, cap) < drop_by - start, the last wait has the closed form, and there is a sharper bound at the cap |
| PollingTheorems.LegacyQueuesDrain | workflows/scan_polling_service.py:130-152 | A token leaves the legacy queues at its first re-enqueue for good |
| PollingTheorems.OwnersBounded | workflows/scan_polling_service.py:130-163 | Tokens and reports of one scan number at most one more than the crashes of the run |
| PollingTheorems.ExactlyOneOwner | workflows/scan_polling_service.py:130-163 | Without crashes each started scan has exactly one owner at every moment: its waiting message, its handler, its end or its report |
| PollingTheorems.NoTraceIff | workflows/scan_polling_service.py:44-163 | Without crashes a started scan has no token on its way and no report anywhere exactly when its name has a dot or a delivery of it ended in silence |
| PollingTheorems.ReportedExactlyOnce | workflows/scan_polling_service.py:66-114 | A finished poll with a confirmed report has one report of what it found in the one queue of its workflow: of a pull request in PR Feedback exactly when the scan succeeded and passed at first asking; without crashes no other report of the scan exists |
| Delegation.ResolverRunner | agent/resolver/runner_agent.py:77-208 | The agent's handler has exactly the effects of its plan, exception paths included |
| Delegation.ResolverTimeoutAgent | agent/resolver/timeout_agent.py:12-31 | The timeout agent has exactly the effects of its plan |
| Delegation.HandleResolverScanTimeout | workflows/resolver_scan_service.py:124-174 | Only an expired request is resubmitted with one retry fewer or failed; any other adds nothing |
| Delegation.RunnerFate | agent/resolver/runner_agent.py:77-208 | An agent's delivery is settled once, and not at all exactly when its executor cannot be entered or its workflow not be built, or its attempt and its failure report both fail; rejected exactly on a foreign body or a failed attempt |
| Delegation.TimeoutFate | agent/resolver/timeout_agent.py:12-31 | A returned request is settled once, and rejected under exactly the stated answers |
| Delegation.RunnerSays | agent/resolver/runner_agent.py:77-203 | An agent scans for its event, once and first, exactly when its work submits; it then says first that there was a scan and whether the resolver succeeded exactly when the scan ran well, and nothing else it publishes claims one |
| Delegation.TimeoutSays | workflows/resolver_scan_service.py:130-170 | The timeout handler publishes exactly for an expired request with a retry header: the request under its key with one retry fewer while more than one is left, else a failure without a scan |
| Delegation.RunnerAnswersOnce | agent/resolver/runner_agent.py:77-208 | One agent delivery stores exactly one outcome under exactly the stated answers |
| Orchestration.ExecCloneScan | orchestration/base.py:161-203 | The retry loop scans once after at most one authentication failure, falls through after two, and raises on any other error, before the scan was submitted or after |
| Orchestration.OrchestrateScan | orchestration/base.py:205-279 | An event is refused, skipped, delegated or scanned as planned |
| Orchestration.StartWorkflow | workflows/feedback_services/pr/pr_feedback_service.py:146-169 | Starting a workflow publishes the await message first, and tells whether a publish raised |
| Orchestration.ExecuteScanWorkflow | orchestration/base.py:309-350 | The push and pull-request workflows have exactly the effects of the plan |
| Orchestration.OneRoute | orchestration/base.py:205-279 | In terms of the answers alone: an event scans at most once, exactly on the local route when the first attempt or the one after a refused clone submits; it stores a request exactly when one is asked for under a known tag and confirmed; and a scan it ran is awaited exactly when its context was left well and its workflow is on |
| Orchestration.EventSays | workflows/pull_request_workflow.py:112-147 | An event scans for itself alone; its request and its await message carry its id, workflow, service and topic, the request its time to live and retries, the await message its date, deadline and interval |
| Orchestration.NoticesIff | workflows/feedback_services/pr/pr_feedback_service.py:147-180 | A pull request is told once, after all else: that its scan started exactly when one is awaited and no publish raised, that it is being prepared exactly when it was delegated |
| Orchestration.ResolverResultsAgent | agent/resolver/results_agent.py:25-70 | The results agent has exactly the effects of its plan |
| Orchestration.ResultsFate | agent/resolver/results_agent.py:25-70 | A result is settled once: rejected exactly on a foreign body, an invalid signature, or a dispatch or publish that raises; an unhandled route or event is acknowledged |
| Orchestration.ResultsNeverRescan | agent/resolver/results_agent.py:36-67 | Handling a result never scans nor delegates again; it starts the await workflow, before anything else, exactly for a scan the agent submitted whose event has a handler, and then tells the pull request unless that raised |
| Orchestration.ResultsSay | orchestration/base.py:281-303 | The await message of a result carries the scan, workflow and service of the result and the date, deadline and interval it was handled with |
| DelegationRuns.Always | workflows/resolver_scan_service.py:124-174 | Every state of every run satisfies the invariant on requests, their retry headers, their outcomes and what the handlers of outcomes have stored |
| DelegationTheorems.CountsBounded | workflows/resolver_scan_service.py:124-174 | An event's open requests and outcomes, and its possible and actual await messages, each number at most one more than the crashes and the messages that handlers stored after one was stored |
| DelegationTheorems.TryingHasNoSurplus | agent/resolver/runner_agent.py:189-203 | Such late messages bring no scan: scans that ran or may still run number at most one more than the crashes |
| DelegationTheorems.SteadyHasNoSurplus | agent/resolver/runner_agent.py:189-203 | Agents that do not fault after a confirmed outcome store nothing late |
| DelegationTheorems.AtMostOneScan | orchestration/base.py:230-272 | Without crashes one event runs at most one scan in the whole run, local or delegated, whatever agents fail and with its results handled |
| DelegationTheorems.AtMostOneAwait | agent/resolver/results_agent.py:56-67 | Without crashes and faults after an outcome one event stores at most one await message in the whole run, and none while its request is open or its outcome not handled |
| DelegationTheorems.ExactlyOneOwner | agent/resolver/runner_agent.py:189-208 | Without crashes and faults after an outcome every request has exactly one owner at every moment, so at most one outcome; rejected copies own nothing |
| DelegationTheorems.RequestsAreNotLost | workflows/resolver_scan_service.py:124-174 | With valid signatures and confirmed reports a request is always queued, in hand or answered, its outcome queued for or taken by the results agent, crashes included |
| DelegationTheorems.AnsweredExactlyOnce | agent/resolver/timeout_agent.py:12-31 | Without crashes, with valid signatures, confirmed reports and no fault after an outcome: a request that is on its way nowhere has exactly one outcome, and one that is has none |
| DelegationTheorems.RetriesCountDown | workflows/resolver_workflow.py:134-160 | The retry header falls by one with each submission and is never negative; a timeout fails a request after exactly max(1, R) submissions |
| DelegationMessages.EventLeaves | orchestration/base.py:205-350 | An event handled to its end leaves its request in the queue of its tag when delegated, its scan among those that ran when submitted, and its await message when the wait was confirmed under a name without a dot |
| DelegationMessages.NoticesArrive | workflows/feedback_services/pr/pr_feedback_service.py:147-180 | A started pull-request scan puts exactly one notice into PR Annotating, a delegated one exactly one into Prescan PR Annotating, any other event none |
| DelegationMessages.OutcomesAreHonest | agent/resolver/runner_agent.py:168-179 | In every state of every run an outcome tells of a scan only when one has run for its event |
| DelegationMessages.ResultIsAwaited | agent/resolver/results_agent.py:56-67 | A result that was dispatched with its publish confirmed has its await message, with the deadline given, stored in the queue of awaited scans |
| DelegationMessages.DelegatedScanIsAwaited | agent/resolver/runner_agent.py:168-187 | When an agent ran a scan and its outcome was confirmed, the scan ran, the outcome says so and whether the resolver succeeded, and once its result was dispatched and confirmed the scan is awaited |
| DelegationMessages.AwaitWasGiven | workflows/pull_request_workflow.py:112-129 | In every state of every run each stored await message was given by an event that arrived or by the result of a scan that ran, with its date, deadline and interval |
| Handover.FirstPoll | workflows/scan_polling_service.py:48-163 | The first poll of an await message so given is too old exactly from its deadline on; before it, a finished scan is told, a running one waits again for the capped multiple of the first wait, and one that cannot be read is stopped |
| Handover.PolledInTime | workflows/messaging/util.py:4-21 | A scan whose deadline is later than its first wait is polled in time, and reported when it is finished by then |
| Comments.Appender.Append | workflows/pr_content.py:507-517 | What is appended is always the trimming of everything offered so far |
| Comments.GetContent | workflows/pr_content.py:484-540 | The loops with their early exits render exactly the trimmed pieces of the whole document, or refuse a limit below the link |
| Comments.TrimmedStays | workflows/pr_content.py:521-538 | Once a piece is dropped whatever follows changes nothing, so the early exits do not show |
| Comments.PiecesAreLaid | workflows/pr_content.py:519-538 | The pieces are exactly the markers, lines and table rows of the document, each once, in its order, each with a newline if it had none |
| Comments.LaidIsUnique | workflows/pr_content.py:519-538 | Only one list of pieces is that |
| Comments.RenderedIsLongestPrefix | workflows/pr_content.py:484-540 | A comment is the longest prefix of its document's markers, lines and rows in order strictly below limit less link, then the link if a piece was dropped; it keeps the limit and is cut after a newline |
| Comments.LongestIsUnique | workflows/pr_content.py:507-517 | Only one text and one number of pieces are the longest prefix |
| Comments.AllIsShown | workflows/pr_content.py:519-540 | Of a document below the limit less the link every marker, line and row stands in the comment, in order |
| Comments.IdentifierRecognised | workflows/pr_content.py:161-169 | Any text with the identifier put before it is recognised |
| Comments.RenderedRecognisedIff | workflows/pr_content.py:161-196 | A rendered comment is recognised exactly when more than 17 characters are left beside the link, or the link reads like the identifier |
| Comments.PrescanRecognisedIff | workflows/pr_content.py:546-557 | A prescan comment keeps the limit and is recognised exactly when the limit leaves the identifier whole |
| DetailRows.LeqByPrefix | workflows/pr_content.py:23-25 | In string order prefixes of one width decide before what follows them |
| DetailRows.PaddedOrder | workflows/pr_content.py:23-25 | Three-place padded numbers below 1000 are ordered and equal like the numbers |
| DetailRows.KeyOrder | workflows/pr_content.py:71-129 | Row keys of every table order by severity first, the worst first, and within it by the columns of the table |
| DetailRows.SortedDetailRows.AddRow | workflows/pr_content.py:37-40 | The new row goes after every row whose key is not larger |
| DetailRows.RowsInOrder | workflows/pr_content.py:33-49 | After any additions the rows are a permutation, sorted, and rows of one key keep the order in which they were added |
| DetailRows.SeveritiesInOrder | workflows/enums.py:58-67 | In every table the worst come first: before a critical row only critical ones, before a high one critical and high ones, and so on |
| Versions.ParseUndoesPad | workflows/pr_content.py:97 | Reading a padded number gives the number back, negative ones included |
| Versions.NormalizedKeepsNumbers | workflows/pr_content.py:89-100 | Normalising keeps the numbers of a version, and doing it again changes nothing |
| Versions.VersionOrderIff | workflows/pr_content.py:89-100 | Normalised versions of numbers below a bound are ordered like their numbers exactly when the bound is at most 1000 |
| Versions.ScaKeyOrder | workflows/pr_content.py:102-109 | The whole key of two packages of one severity and name, versions below a thousand: numbers decide when neither version continues the other, identifiers when they are equal, else the shorter's identifier against the dot |
| Versions.ScaVersionOrderIff | workflows/pr_content.py:87-109 | The key orders two different versions like their numbers exactly when neither continues the other or the shorter's identifier begins below the dot |
| CommentUpsert.PageGen.Next | scm_services/bitbucket/bbc.py:14-34 | Each step yields the next of what is still to come, or ends |
| CommentUpsert.FindExistingComment | scm_services/bitbucket/bbc.py:36-49 | Returns the id of the first yielded comment that is ours |
| CommentUpsert.CompleteIff | scm_services/bitbucket/bbc.py:14-34 | Every listed comment is yielded exactly when no page with comments follows an empty one |
| CommentUpsert.FirstOursIs | scm_services/bitbucket/bbc.py:36-49 | The search ends at the first comment that is ours, and at none exactly when there is none |
| CommentUpsert.DecorationSays | workflows/pr_content.py:171-196 | A decoration has written the identifier, header, annotation, summary and details, each after its marker and in this order, cut to fit; nothing exactly when its link is beyond the limit |
| CommentUpsert.MessagesSay | workflows/pr_content.py:546-557 | Prescan and error events have written the identifier and then their message, the first emphasised and cut to the limit |
| CommentUpsert.CreateOrUpdateComment | scm_services/bitbucket/bbc.py:97-108 | Posts where none is found, else rewrites the one found; a refused write changes nothing |
| CommentUpsert.SoundIffRecognised | scm_services/bitbucket/bbc.py:110-175 | The bodies of all events are recognised exactly when the overflow link leaves room for the identifier |
| CommentUpsert.WriteKeeps | scm_services/bitbucket/bbc.py:97-108 | One write makes one comment of ours out of none, else keeps their number and everybody else's comments |
| CommentUpsert.OneCommentPerThread | scm_services/bitbucket/bbc.py:97-175 | Over any sound events, with refused writes and comments of others between them, our comments never exceed max(1, initial); from none there is one with a stable id and the last written body |
| CommentUpsert.OthersAreKept | scm_services/bitbucket/bbc.py:97-108 | A sound event never changes a comment that is not ours |
| CommentUpsert.PostsAreCounted | scm_services/bitbucket/bbc.py:97-175 | Over any events at all, from none: there is a comment of ours exactly while the last written event was sound, and each event written while there is none adds one |
| CommentUpsert.PostsOnceIff | scm_services/bitbucket/bbc.py:97-175 | A run posts at most one comment exactly when every written event before another written one is sound |
| Paging.PageGenerator.Next | api_utils/pagers.py:28-42 | Each step yields the next of what is still to come, ends, or raises, counting requests |
| Paging.GetBranches | orchestration/gh.py:535-564 | Collecting the generator gives its whole course, and loses all of it to an answer that is not ok |
| Paging.PagingIsExact | api_utils/pagers.py:28-42 | N items come out exactly once, pages in order and each reversed, after floor(N/100) + 1 requests |
| Paging.RaisesIff | orchestration/gh.py:538-547 | It raises exactly when one of the answers it asks for is not ok |
| Grouping.GroupingService.ResolveGroupId | cxone_service/grouping.py:40-79 | One path: the tables, the lookup made and the id given, in every branch |
| Grouping.GroupingService.ResolveGroups | cxone_service/grouping.py:83-90 | The loop over the matching rules looks up and gives what the paths of those rules do |
| Grouping.AlwaysSane | cxone_service/grouping.py:37-81 | Always: no path is in both tables, a resolved path was found once and not looked up again until a purge, and errors are counted exactly |
| Grouping.LookupIff | cxone_service/grouping.py:53-68 | A lookup gives the id of the first group returned of that very name, is a hit exactly when there is one, and errs exactly when it fails or returns no groups |
| Grouping.ResolvedAre | cxone_service/grouping.py:83-95 | The ids resolved are exactly those that the rules matching the URL give |
| Grouping.ResolvedInOrder | cxone_service/grouping.py:83-95 | The ids of more rules come after those of the rules before |
| Grouping.OnePathResolved | cxone_service/grouping.py:37-81 | A rule with one path gives its id once, when it matches and the path is found |
| Grouping.CacheAgrees | cxone_service/grouping.py:83-95 | While the directory is stable, failed lookups aside, the cache resolves what an uncached resolver would |
| CheckRuns.EventAdvances | scm_services/gh/checks.py:132-333 | An event moves the run it finds forward, adds at most one, and leaves runs of other names and heads alone |
| CheckRuns.EventSets | scm_services/gh/checks.py:132-333 | An event changes only the last run listed in the status it looks for; an update has it in progress, a success completes it as one and every other result as a failure; new runs are queued when pending and in progress when updating |
| CheckRuns.RunsOnlyMoveForward | scm_services/gh/checks.py:132-333 | Over every sequence of events a run only moves forward, a completed one never changes, and exactly completed ones have a conclusion |
| CheckRuns.EventCounts | scm_services/gh/checks.py:45-79 | The runs of the head that an event names follow three counters, with access to checks or without |
| CheckRuns.RunsFollowCounters | scm_services/gh/checks.py:132-333 | Over any sequence of events of any heads, the runs of each head are what the counters make of the events that name it |
| CheckRuns.OpenRunsAreConserved | scm_services/gh/checks.py:132-333 | Over any such sequence the open runs of each head are those there were and those created since, less those completed since |
| CheckRuns.OwnRunIsCompleted | scm_services/gh/checks.py:132-310 | For a head without open runs, the run that a pending event creates is, by its id, the one that the update takes over and the result completes, whatever events of other heads come between |
| CheckRuns.OwnRunIsFailed | scm_services/gh/checks.py:312-333 | So is that of a scan that fails before it runs |
| CheckRuns.ChecksService.ExecPrScanUpdateDecorate | scm_services/gh/checks.py:132-171 | The update event takes a queued run over or creates one in progress |
| Kickoff.KickoffClient.GetJwt | cxoneflow_kickoff_api/kickoff_client.py:69-85 | Renews the token exactly when forced, missing or within a minute of its end |
| Kickoff.RenewedIff | cxoneflow_kickoff_api/kickoff_client.py:69-85 | A token is kept exactly when it is not forced out and has more than a minute left |
| Kickoff.KickoffClient.ExecuteRequest | cxoneflow_kickoff_api/kickoff_client.py:87-111 | The retry loop posts what the round says |
| Kickoff.KickoffClient.KickoffScan | cxoneflow_kickoff_api/kickoff_client.py:152-214 | The waiting loop has exactly the course of its rounds |
| Kickoff.RoundPosts | cxoneflow_kickoff_api/kickoff_client.py:87-111 | A round posts once, or twice when not authorised, the second time with a newer token; every token has more than 60 seconds left when checked |
| Kickoff.EveryPostIsFresh | cxoneflow_kickoff_api/kickoff_client.py:69-111 | So over a whole kickoff, with at most two posts a round |
| Kickoff.NoPostIsStale | cxoneflow_kickoff_api/kickoff_client.py:69-85 | In a whole kickoff no token is posted nine minutes or more after it was dated |
| Kickoff.TotalSleep | cxoneflow_kickoff_api/kickoff_client.py:203-208 | n waits last 15 n (n + 1) / 2 seconds up to twelve, and 1170 + 180 (n - 12) after |
| Kickoff.GoesOnIff | cxoneflow_kickoff_api/kickoff_client.py:155-214 | A kickoff goes on exactly after rounds of too many scans that the callback does not decline; in the first that is none it returns the status if it knows it, and raises exactly if it does not |
| Redaction.MaskGroup | cxoneflow_logging/__init__.py:37-41 | Masking one group stars exactly its span, and a group at (-1, -1) changes nothing |
| Redaction.Format | cxoneflow_logging/__init__.py:33-43 | The message keeps its length and exactly the participating spans become stars |

## Left out

- HTTP, git, the resolver process, Checkmarx One and SCM calls: their answers are parameters of the handlers.
- Signatures, pickling and message formats: a signature is valid or not, a body deserialises or not.
- Correlation ids; records of the model have their own identity.
- The order of messages within a queue, and RabbitMQ's expiry of only the head of a queue: any waiting message whose time is over may expire, and any may be delivered.
- Faults of the broker itself: its queues dead-letter at least once, so such a fault may duplicate a dead letter; here each is moved once.
- GitHub listings that are incomplete or out of date: a listing is taken to hold exactly the runs asked for (`Truthful`).
- Several brokers: the services of a configuration could use different AMQP connections; the model has one.
- A refused or raised publish that the broker stored all the same: what is not confirmed is not stored.
- Fractional backoff multipliers and rounding of waits to milliseconds: both are integers.
- Delivery of feedback after the queues (decorating pull requests, generating and sending SARIF) and the per-SCM orchestrators.
- The content of check runs, and of the tables before their rows: rows reach the renderer as printed lines, by value, while the source keeps a reference to the row list and prints it when rendering.
- The library behind the sorted list: its insertion after equal keys is taken as documented.
- Concurrent upserts and kickoffs: runs of both are one after another.
- Listings and reads of BitBucket Cloud that fail: they raise before anything is written.
- A check run for an event without a head: the service refuses it.
- Waits of a kickoff without end: a course is what a given list of rounds makes it, however long.
- Versions.ParseUndoesPad: numbers are ASCII; other Unicode digits and spaces that Python's int() takes, and its limit on the number of digits, are not modelled.
- Redaction.Format: finding the matches is a regular expression's work and given; only their spans are used.
