/** Where delegation ends and polling begins: the await message that an event or a result leaves is the token
    that is polled. */
module Handover {
  import opened Common
  import opened Topology
  import opened Routing
  import opened Amqp
  import opened Backoff
  import opened Polling
  import opened PollingTheorems
  import opened Delegation
  import opened Orchestration

  /** An await message of an event or of a result is published to Scan In under its topic, and gives its scan
      this deadline after this first wait. */
  ghost predicate Hands(x: Effect, deadline: int, wait: int) {
    Awaits(x) && x.exchange == ScanIn && x.message.key == AwaitTopic(x.message.body.flow, x.message.body.moniker) &&
    x.message.body.dropBy == deadline && x.message.ttl == Some(wait)
  }

  lemma EventHands(delegated: bool, tags: set<string>, e: Event, retries: int, ttl: int, w: EventWorld, x: Effect)
    requires x in ExecutePlan(delegated, tags, e, retries, ttl, w) && Awaits(x)
    ensures Hands(x, e.dropBy, e.interval) && x.message.body.scan == e.id && x.message.body.moniker == e.moniker
  {
    EventSays(delegated, tags, e, retries, ttl, w, x);
  }

  lemma ResultHands(m: Message, w: AgentWorld, x: Effect)
    requires w.Results? && x in ResultsPlan(m, w) && Awaits(x)
    ensures m.body.ScanOutcome? && Hands(x, w.dropBy, w.interval) && x.message.body.scan == m.body.event
  {
    ResultsSay(m, w, x);
  }

  /** The first poll of what was handed over, when its wait is over: too old exactly from the deadline on; and
      before that, with a channel, a finished scan is told, one that runs waits again for the capped multiple of
      the first wait, and one that cannot be read is stopped. */
  lemma FirstPoll(configs: map<string, PollConfig>, x: Effect, deadline: int, wait: int, clock: int, v: PollWorld)
    requires Hands(x, deadline, wait) && x.message.body.moniker in configs
    ensures var m, c := Dead(x.message, Expired), configs[x.message.body.moniker];
      (EndingOf(configs, m, clock, v).TooOld? <==> clock >= deadline) &&
      (clock < deadline && v.channel ==>
        (v.scan.ResponseError? <==> EndingOf(configs, m, clock, v).Stopped?) &&
        (Finished(v) && v.report.Confirmed? <==> EndingOf(configs, m, clock, v).Told?) &&
        (v.scan.Executing? && v.republish.Confirmed? ==>
          EndingOf(configs, m, clock, v).CarriedOn? && Stored(PollPlan(configs, m, clock, v)) ==
            [Message(x.message.body, x.message.key, Some(Min(wait * c.multiplier, c.cap)), None, None)]))
  {
    var m := Dead(x.message, Expired);
    if clock < deadline && v.channel && v.scan.Executing? {
      RunningGoesOn(configs, m, clock, v);
    }
  }

  /** So a scan whose deadline is later than its first wait can be polled in time. */
  lemma PolledInTime(configs: map<string, PollConfig>, delegated: bool, tags: set<string>, e: Event, retries: int,
      ttl: int, w: EventWorld, x: Effect, clock: int, v: PollWorld)
    requires x in ExecutePlan(delegated, tags, e, retries, ttl, w) && Awaits(x) && e.moniker in configs
    requires e.now + e.interval < e.dropBy && e.now + e.interval <= clock
    ensures EndingOf(configs, Dead(x.message, Expired), clock, v).TooOld? <==> clock >= e.dropBy
    ensures v.channel && Finished(v) && v.report.Confirmed? && clock == e.now + e.interval ==>
      EndingOf(configs, Dead(x.message, Expired), clock, v).Told?
  {
    EventHands(delegated, tags, e, retries, ttl, w, x);
    FirstPoll(configs, x, e.dropBy, e.interval, clock, v);
  }
}
