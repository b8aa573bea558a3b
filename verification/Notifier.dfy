/** Delivery of validated alerts: dedup window, caps, persist-first ordering, execution dispatch
    (notifier_and_logger.py). */
module Notifier {
  import opened Prelude
  import opened GateTypes
  import opened ValidateAndFilter
  import opened Webhook

  datatype NotifyKey = NotifyKey(timeframe: string, direction: Direction, symbol: string)

  type Keys = map<NotifyKey, real>

  function KeyFor(a: Alert): NotifyKey { NotifyKey(a.timeframe, a.direction, a.symbol) }

  predicate Live(keys: Keys, k: NotifyKey, now: real) { k in keys && now < keys[k] }

  // ---------------------------------------------------------------- admission and caps

  datatype Admission = Admission(alerts: seq<Alert>, keys: Keys)

  /** Parses the items and claims one key per alert; with Redis down nothing is suppressed. */
  function Admit(items: seq<RawItem>, keys: Keys, now: real, ttl: real, up: bool): Admission {
    if items == [] then Admission([], keys)
    else
      var before := Admit(items[..|items| - 1], keys, now, ttl, up);
      match ParseAlert(items[|items| - 1])
      case None => before
      case Some(a) =>
        if !up then Admission(before.alerts + [a], before.keys)
        else if Live(before.keys, KeyFor(a), now) then before
        else Admission(before.alerts + [a], before.keys[KeyFor(a) := now + ttl])
  }

  function EpConf(): Alert -> real { (a: Alert) => a.edgeProbability * a.confidence }

  function IsTrade(): Alert -> bool { (a: Alert) => Directional(a) }

  function IsWatchAlert(): Alert -> bool { (a: Alert) => !Directional(a) }

  /** The queue as it is when it fits, otherwise its best `cap` members in rank order. */
  function Capped(xs: seq<Alert>, cap: nat): seq<Alert> {
    if |xs| > cap then assert |SortDesc(xs, EpConf())| == |xs| by { SortDescSpec(xs, EpConf()); }
                       SortDesc(xs, EpConf())[..cap]
    else xs
  }

  function Queue(alerts: seq<Alert>, maxAlerts: nat): seq<Alert> {
    Capped(Keep(alerts, IsTrade()), maxAlerts) + Capped(Keep(alerts, IsWatchAlert()), 1)
  }

  // ---------------------------------------------------------------- delivering one alert

  /** What the outside world does while one alert is delivered; `replies` answers the webhook POSTs. */
  datatype Effect = Effect(formatRaises: bool, inserted: Option<nat>, mapRaises: bool, shouldDispatch: bool,
                           replies: nat -> Reply, markRaises: bool, sendRaises: bool, sendSucceeds: bool)

  datatype Event =
    | Inserted(alert: Alert, id: nat)
    | Dispatched(alert: Alert, id: nat, posts: seq<Reply>)   // the webhook delivery returned true
    | Marked(id: nat)                                        // the row is flagged execution_dispatched
    | SendAttempted(alert: Alert, ok: bool)

  /** The alert is handed to the execution webhook. */
  predicate Reaches(c: WebhookConfig, a: Alert, e: Effect) {
    !e.formatRaises && e.inserted.Some? && c.enabled && Directional(a) && !e.mapRaises && e.shouldDispatch
  }

  function ExecutionEvents(c: WebhookConfig, a: Alert, id: nat, e: Effect): seq<Event> {
    if e.mapRaises || !e.shouldDispatch || !Delivered(c, e.replies) then []
    else [Dispatched(a, id, Exchange(c, e.replies).posted)] + if e.markRaises then [] else [Marked(id)]
  }

  function DeliveryEvents(c: WebhookConfig, a: Alert, e: Effect): seq<Event> {
    if e.formatRaises || e.inserted.None? then []
    else
      var id := e.inserted.value;
      [Inserted(a, id)]
      + (if c.enabled && Directional(a) then ExecutionEvents(c, a, id, e) else [])
      + (if e.sendRaises then [] else [SendAttempted(a, e.sendSucceeds)])
  }

  /** What one delivery adds to the webhook client's log. */
  function DeliveryLog(c: WebhookConfig, a: Alert, e: Effect): Log {
    if Reaches(c, a, e) then Exchange(c, e.replies) else EMPTY_LOG
  }

  function Deliveries(c: WebhookConfig, queue: seq<Alert>, effects: int -> Effect): seq<Event> {
    if queue == [] then []
    else
      var n := |queue| - 1;
      Deliveries(c, queue[..n], effects) + DeliveryEvents(c, queue[n], effects(n))
  }

  function DeliveryLogs(c: WebhookConfig, queue: seq<Alert>, effects: int -> Effect): Log {
    if queue == [] then EMPTY_LOG
    else
      var n := |queue| - 1;
      Append(DeliveryLogs(c, queue[..n], effects), DeliveryLog(c, queue[n], effects(n)))
  }

  lemma DeliveriesNext(c: WebhookConfig, queue: seq<Alert>, i: nat, effects: int -> Effect, before: seq<Event>)
    requires i < |queue|
    ensures before + Deliveries(c, queue[..i + 1], effects)
         == before + Deliveries(c, queue[..i], effects) + DeliveryEvents(c, queue[i], effects(i))
  {
    assert queue[..i + 1][..i] == queue[..i];
  }

  lemma LogsNext(c: WebhookConfig, queue: seq<Alert>, i: nat, effects: int -> Effect, before: Log)
    requires i < |queue|
    ensures Append(before, DeliveryLogs(c, queue[..i + 1], effects))
         == Append(Append(before, DeliveryLogs(c, queue[..i], effects)), DeliveryLog(c, queue[i], effects(i)))
  {
    assert queue[..i + 1][..i] == queue[..i];
    AppendAssociates(before, DeliveryLogs(c, queue[..i], effects), DeliveryLog(c, queue[i], effects(i)));
  }

  function SentCount(events: seq<Event>): nat {
    if events == [] then 0
    else
      var last := events[|events| - 1];
      SentCount(events[..|events| - 1]) + if last.SendAttempted? && last.ok then 1 else 0
  }

  predicate Succeeds(e: Effect) { !e.formatRaises && e.inserted.Some? && !e.sendRaises && e.sendSucceeds }

  function Successes(effects: int -> Effect, n: nat): nat {
    if n == 0 then 0 else Successes(effects, n - 1) + if Succeeds(effects(n - 1)) then 1 else 0
  }

  class NotifierService {
    var keys: Keys
    var trace: seq<Event>
    const maxAlerts: nat
    const ttl: real
    const webhook: WebhookConfig
    const client: WebhookClient

    constructor (maxAlerts: nat, ttl: real, webhook: WebhookConfig, client: WebhookClient)
      ensures keys == map[] && trace == []
      ensures this.maxAlerts == maxAlerts && this.ttl == ttl && this.webhook == webhook && this.client == client
    {
      keys, trace := map[], [];
      this.maxAlerts, this.ttl, this.webhook, this.client := maxAlerts, ttl, webhook, client;
    }

    method IsDuplicateAlert(a: Alert, now: real, up: bool) returns (duplicate: bool)
      modifies this`keys
      ensures duplicate == (up && Live(old(keys), KeyFor(a), now))
      ensures keys == if up && !duplicate then old(keys)[KeyFor(a) := now + ttl] else old(keys)
    {
      if !up { return false; }
      var k := NotifyKey(a.timeframe, a.direction, a.symbol);
      if k in keys && now < keys[k] { return true; }
      keys := keys[k := now + ttl];
      return false;
    }

    method AdmitItems(items: seq<RawItem>, now: real, up: bool) returns (valid: seq<Alert>)
      modifies this`keys
      ensures Admission(valid, keys) == Admit(items, old(keys), now, ttl, up)
    {
      valid := [];
      for i := 0 to |items|
        invariant Admission(valid, keys) == Admit(items[..i], old(keys), now, ttl, up)
      {
        assert items[..i + 1][..i] == items[..i];
        var parsed := ParseAlert(items[i]);
        if parsed.Some? {
          var duplicate := IsDuplicateAlert(parsed.value, now, up);
          if !duplicate {
            valid := valid + [parsed.value];
          }
        }
      }
      assert items[..|items|] == items;
    }

    method DeliverOne(a: Alert, e: Effect) returns (sent: nat)
      modifies this`trace, client
      ensures trace == old(trace) + DeliveryEvents(webhook, a, e)
      ensures client.State() == Append(old(client.State()), DeliveryLog(webhook, a, e))
      ensures sent == if Succeeds(e) then 1 else 0
    {
      sent := 0;
      AppendAssociates(client.State(), EMPTY_LOG, EMPTY_LOG);
      if e.formatRaises { return; }
      if e.inserted.None? { return; }
      var id := e.inserted.value;
      trace := trace + [Inserted(a, id)];
      if webhook.enabled && a.direction in {LONG, SHORT} {
        if !e.mapRaises && e.shouldDispatch {
          var delivered := client.Deliver(webhook, e.replies);
          if delivered {
            trace := trace + [Dispatched(a, id, Exchange(webhook, e.replies).posted)];
            if !e.markRaises {
              trace := trace + [Marked(id)];
            }
          }
        }
      }
      if e.sendRaises { return; }
      trace := trace + [SendAttempted(a, e.sendSucceeds)];
      if e.sendSucceeds { sent := 1; }
    }

    method DeliverAll(queue: seq<Alert>, effects: int -> Effect) returns (sent: nat)
      modifies this`trace, client
      ensures trace == old(trace) + Deliveries(webhook, queue, effects)
      ensures client.State() == Append(old(client.State()), DeliveryLogs(webhook, queue, effects))
      ensures sent == Successes(effects, |queue|)
    {
      sent := 0;
      AppendAssociates(client.State(), EMPTY_LOG, EMPTY_LOG);
      for i := 0 to |queue|
        invariant trace == old(trace) + Deliveries(webhook, queue[..i], effects)
        invariant client.State() == Append(old(client.State()), DeliveryLogs(webhook, queue[..i], effects))
        invariant sent == Successes(effects, i)
      {
        DeliveriesNext(webhook, queue, i, effects, old(trace));
        LogsNext(webhook, queue, i, effects, old(client.State()));
        var n := DeliverOne(queue[i], effects(i));
        sent := sent + n;
      }
      assert queue[..|queue|] == queue;
    }

    /** Admits, caps and delivers; returns the number of alerts Discord accepted. */
    method Notify(items: seq<RawItem>, now: real, up: bool, effects: int -> Effect) returns (sent: nat)
      modifies this`keys, this`trace, client
      ensures var admitted := Admit(items, old(keys), now, ttl, up);
              var queue := Queue(admitted.alerts, maxAlerts);
              var events := Deliveries(webhook, queue, effects);
        && keys == admitted.keys && trace == old(trace) + events && sent == SentCount(events)
        && client.State() == Append(old(client.State()), DeliveryLogs(webhook, queue, effects))
    {
      var valid := AdmitItems(items, now, up);
      var trades := Keep(valid, IsTrade());
      var watches := Keep(valid, IsWatchAlert());
      if |trades| > maxAlerts {
        SortDescSpec(trades, EpConf());
        trades := SortDesc(trades, EpConf())[..maxAlerts];
      }
      if |watches| > 1 {
        SortDescSpec(watches, EpConf());
        watches := SortDesc(watches, EpConf())[..1];
      }
      SentIsSuccesses(webhook, trades + watches, effects);
      sent := DeliverAll(trades + watches, effects);
    }
  }

  lemma {:induction false} SentIsSuccesses(c: WebhookConfig, queue: seq<Alert>, effects: int -> Effect)
    ensures SentCount(Deliveries(c, queue, effects)) == Successes(effects, |queue|)
  {
    if queue != [] {
      var n := |queue| - 1;
      SentIsSuccesses(c, queue[..n], effects);
      DeliverySends(c, queue[n], effects(n));
      SentConcat(Deliveries(c, queue[..n], effects), DeliveryEvents(c, queue[n], effects(n)));
    }
  }

  lemma {:induction false} SentConcat(a: seq<Event>, b: seq<Event>)
    ensures SentCount(a + b) == SentCount(a) + SentCount(b)
  {
    if b == [] {
      assert a + b == a;
    } else {
      assert (a + b)[..|a + b| - 1] == a + b[..|b| - 1];
      SentConcat(a, b[..|b| - 1]);
    }
  }

  lemma SentLast(events: seq<Event>, last: Event)
    ensures SentCount(events + [last]) == SentCount(events) + if last.SendAttempted? && last.ok then 1 else 0
  {
    assert (events + [last])[..|events|] == events;
  }

  lemma DeliverySends(c: WebhookConfig, a: Alert, e: Effect)
    ensures SentCount(DeliveryEvents(c, a, e)) == if Succeeds(e) then 1 else 0
  {
    if !e.formatRaises && e.inserted.Some? {
      var id := e.inserted.value;
      var exec := if c.enabled && Directional(a) then ExecutionEvents(c, a, id, e) else [];
      var before := [Inserted(a, id)] + exec;
      assert forall x :: x in exec ==> !x.SendAttempted?;
      NothingSent(before);
      SentLast(before, SendAttempted(a, e.sendSucceeds));
      assert before + [] == before;
    }
  }

  lemma {:induction false} NothingSent(events: seq<Event>)
    requires forall x :: x in events ==> !x.SendAttempted?
    ensures SentCount(events) == 0
  {
    if events != [] { NothingSent(events[..|events| - 1]); }
  }

  // ---------------------------------------------------------------- one call

  /** As many trades as `maxAlerts` allows and one WATCH are queued, each set the best of its kind:
      nothing left out scores above anything kept. */
  lemma QueueIsCapped(alerts: seq<Alert>, maxAlerts: nat)
    ensures var q := Queue(alerts, maxAlerts);
            var trades, watches := Keep(q, IsTrade()), Keep(q, IsWatchAlert());
      && |trades| == MinInt(maxAlerts, |Keep(alerts, IsTrade())|)
      && |watches| == MinInt(1, |Keep(alerts, IsWatchAlert())|)
      && |q| == |trades| + |watches|
      && (forall a :: a in q ==> a in alerts)
      && (forall a, k :: a in alerts && a !in q && k in q && Directional(a) == Directional(k) ==>
            EpConf()(k) >= EpConf()(a))
  {
    var trades, watches := Keep(alerts, IsTrade()), Keep(alerts, IsWatchAlert());
    CappedKeepsBest(trades, maxAlerts);
    CappedKeepsBest(watches, 1);
    var t, w := Capped(trades, maxAlerts), Capped(watches, 1);
    KeepConcat(t, w, IsTrade());
    KeepConcat(t, w, IsWatchAlert());
    KeepAll(t, IsTrade());
    KeepNone(w, IsTrade());
    KeepNone(t, IsWatchAlert());
    KeepAll(w, IsWatchAlert());
  }

  /** An alert left out of the queue has no more edge times confidence than any of its kind that is in. */
  lemma QueueKeepsBest(alerts: seq<Alert>, maxAlerts: nat, a: Alert, k: Alert)
    requires a in alerts && a !in Queue(alerts, maxAlerts) && k in Queue(alerts, maxAlerts)
    requires a.direction == WATCH <==> k.direction == WATCH
    ensures Times(k.edgeProbability, k.confidence) >= Times(a.edgeProbability, a.confidence)
  {
    QueueIsCapped(alerts, maxAlerts);
    EpConfIs(a);
    EpConfIs(k);
  }

  lemma EpConfIs(a: Alert)
    ensures EpConf()(a) == Times(a.edgeProbability, a.confidence)
  {}

  lemma CappedKeepsBest(xs: seq<Alert>, cap: nat)
    ensures |Capped(xs, cap)| == MinInt(cap, |xs|)
    ensures forall a :: a in Capped(xs, cap) ==> a in xs
    ensures forall a, k :: a in xs && a !in Capped(xs, cap) && k in Capped(xs, cap) ==> EpConf()(k) >= EpConf()(a)
  {
    SortDescSpec(xs, EpConf());
    if |xs| > cap {
      var sorted := SortDesc(xs, EpConf());
      CutKeepsBest(sorted, cap, EpConf());
      assert sorted == sorted[..cap] + sorted[cap..];
    }
  }

  ghost predicate InsertedBefore(events: seq<Event>, i: nat, a: Alert)
    requires i <= |events|
  {
    exists j :: 0 <= j < i && events[j].Inserted? && events[j].alert == a
  }

  ghost predicate DispatchedBefore(events: seq<Event>, i: nat, id: nat, queue: seq<Alert>)
    requires i <= |events|
  {
    exists j :: 0 <= j < i && events[j].Dispatched? && events[j].id == id
                && Directional(events[j].alert) && events[j].alert in queue
  }

  /** Persist-first, over a whole call: a Discord send or a dispatch comes only after that alert's
      own insert, and a row is marked dispatched only after the webhook call for it returned true,
      and only for a trade. */
  lemma {:induction false} PersistFirst(c: WebhookConfig, queue: seq<Alert>, effects: int -> Effect, i: nat)
    requires i < |Deliveries(c, queue, effects)|
    ensures var events := Deliveries(c, queue, effects);
      && (events[i].SendAttempted? || events[i].Dispatched? ==> InsertedBefore(events, i, events[i].alert))
      && (events[i].Marked? ==> c.enabled && DispatchedBefore(events, i, events[i].id, queue))
  {
    var n := |queue| - 1;
    var before := Deliveries(c, queue[..n], effects);
    var own := DeliveryEvents(c, queue[n], effects(n));
    var events := Deliveries(c, queue, effects);
    assert events == before + own;
    if i < |before| {
      PersistFirst(c, queue[..n], effects, i);
      assert events[i] == before[i];
      if events[i].SendAttempted? || events[i].Dispatched? {
        var j :| 0 <= j < i && before[j].Inserted? && before[j].alert == before[i].alert;
        assert events[j] == before[j];
      } else if events[i].Marked? {
        var j :| 0 <= j < i && before[j].Dispatched? && before[j].id == before[i].id
                 && Directional(before[j].alert) && before[j].alert in queue[..n];
        assert events[j] == before[j];
      }
    } else {
      var m := |before|;
      OwnEvents(c, queue[n], effects(n), i - m);
      assert events[i] == own[i - m] && events[m] == own[0];
      if events[i].Marked? {
        assert events[m + 1] == own[1];
      }
    }
  }

  lemma OwnEvents(c: WebhookConfig, a: Alert, e: Effect, k: nat)
    requires k < |DeliveryEvents(c, a, e)|
    ensures var own := DeliveryEvents(c, a, e);
      && own[0].Inserted? && own[0].alert == a
      && (own[k].SendAttempted? || own[k].Dispatched? ==> k > 0 && own[k].alert == a)
      && (own[k].Marked? ==>
            && c.enabled && Directional(a) && k == 2
            && own[1] == Dispatched(a, own[2].id, Exchange(c, e.replies).posted))
  {
  }

  // ---------------------------------------------------------------- when a row is marked

  /** Everything but the webhook's answer is in place for a mark. */
  predicate Markable(c: WebhookConfig, a: Alert, e: Effect) { Reaches(c, a, e) && !e.markRaises }

  predicate Marks(c: WebhookConfig, a: Alert, e: Effect) {
    Markable(c, a, e) && (c.dryRun || Acknowledged(c, e.replies))
  }

  lemma OwnMark(c: WebhookConfig, a: Alert, e: Effect, id: nat)
    ensures Marked(id) in DeliveryEvents(c, a, e) <==> Marks(c, a, e) && e.inserted == Some(id)
  {
    var own := DeliveryEvents(c, a, e);
    if Marks(c, a, e) { assert own[2] == Marked(e.inserted.value); }
  }

  ghost predicate SomeMarks(c: WebhookConfig, queue: seq<Alert>, effects: int -> Effect, id: nat) {
    exists k :: 0 <= k < |queue| && Marks(c, queue[k], effects(k)) && effects(k).inserted == Some(id)
  }

  ghost predicate SomeMarkable(c: WebhookConfig, queue: seq<Alert>, effects: int -> Effect) {
    exists k :: 0 <= k < |queue| && Markable(c, queue[k], effects(k))
  }

  lemma OneMoreDelivery(c: WebhookConfig, queue: seq<Alert>, effects: int -> Effect, id: nat)
    requires queue != []
    ensures var n := |queue| - 1;
      && (SomeMarks(c, queue, effects, id)
          <==> SomeMarks(c, queue[..n], effects, id)
               || (Marks(c, queue[n], effects(n)) && effects(n).inserted == Some(id)))
      && (SomeMarkable(c, queue, effects)
          <==> SomeMarkable(c, queue[..n], effects) || Markable(c, queue[n], effects(n)))
  {
    var init := queue[..|queue| - 1];
    assert forall k :: 0 <= k < |init| ==> init[k] == queue[k];
  }

  /** A row is marked as dispatched if and only if some delivery inserted it, was due, raised nothing,
      and ran dry or had its last POST acknowledged. */
  lemma {:induction false} MarkedMeaning(c: WebhookConfig, queue: seq<Alert>, effects: int -> Effect, id: nat)
    ensures Marked(id) in Deliveries(c, queue, effects) <==> SomeMarks(c, queue, effects, id)
  {
    if queue != [] {
      var n := |queue| - 1;
      MarkedMeaning(c, queue[..n], effects, id);
      OwnMark(c, queue[n], effects(n), id);
      OneMoreDelivery(c, queue, effects, id);
    }
  }

  /** The reply trade-execute gives to an order it has taken. */
  predicate TakesOrder(r: Reply) {
    r.Response? && r.status == 200 && r.body.Object? && r.body.acceptedIsTrue && r.body.executionId.Some?
    && r.body.executionId.value != ""
  }

  /** Outside a dry run a row is marked only where the last POST of its delivery, within the limit, was
      answered by taking the order: no other status, no refusal and no missing execution id will do. */
  lemma MarkTakesOrder(c: WebhookConfig, queue: seq<Alert>, effects: int -> Effect, id: nat) returns (k: nat, n: nat)
    requires !c.dryRun && Marked(id) in Deliveries(c, queue, effects)
    ensures k < |queue| && Directional(queue[k]) && effects(k).inserted == Some(id)
    ensures 1 <= n <= c.maxRetries && TakesOrder(effects(k).replies(n))
    ensures forall j :: 1 <= j < n ==> !TakesOrder(effects(k).replies(j))
  {
    MarkedMeaning(c, queue, effects, id);
    k :| k < |queue| && Marks(c, queue[k], effects(k)) && effects(k).inserted == Some(id);
    n := Attempts(effects(k).replies, c.maxRetries);
    AttemptsMeaning(effects(k).replies, c.maxRetries);
  }

  /** Event i is a mark whose dispatch, just before it, ended with an acknowledged POST. */
  predicate AcknowledgedMark(events: seq<Event>, i: nat)
    requires i < |events|
  {
    && i > 0 && events[i].Marked? && events[i - 1].Dispatched? && events[i - 1].id == events[i].id
    && var posts := events[i - 1].posts; posts != [] && Accepted(posts[|posts| - 1])
  }

  ghost predicate EveryMarkAcknowledged(events: seq<Event>) {
    forall i :: 0 <= i < |events| && events[i].Marked? ==> AcknowledgedMark(events, i)
  }

  lemma MarksConcat(a: seq<Event>, b: seq<Event>)
    requires b == [] || !b[0].Marked?
    ensures EveryMarkAcknowledged(a + b) <==> EveryMarkAcknowledged(a) && EveryMarkAcknowledged(b)
  {
    if EveryMarkAcknowledged(a + b) {
      forall i | 0 <= i < |a| && a[i].Marked? ensures AcknowledgedMark(a, i) { assert AcknowledgedMark(a + b, i); }
      forall i | 0 <= i < |b| && b[i].Marked? ensures AcknowledgedMark(b, i) {
        assert (a + b)[|a| + i] == b[i];
        assert AcknowledgedMark(a + b, |a| + i);
      }
    }
    if EveryMarkAcknowledged(a) && EveryMarkAcknowledged(b) {
      forall i | 0 <= i < |a + b| && (a + b)[i].Marked? ensures AcknowledgedMark(a + b, i) {
        if i < |a| { assert AcknowledgedMark(a, i); } else { assert AcknowledgedMark(b, i - |a|); }
      }
    }
  }

  lemma OwnMarkAcknowledged(c: WebhookConfig, a: Alert, e: Effect)
    ensures EveryMarkAcknowledged(DeliveryEvents(c, a, e)) <==> !(c.dryRun && Markable(c, a, e))
  {
    var own := DeliveryEvents(c, a, e);
    forall k | 0 <= k < |own| && own[k].Marked?
      ensures k == 2 && own[1] == Dispatched(a, own[2].id, Exchange(c, e.replies).posted)
    {
      OwnEvents(c, a, e, k);
    }
    if Markable(c, a, e) {
      if c.dryRun {
        assert own[2].Marked? && own[1].posts == [];
        assert !AcknowledgedMark(own, 2);
      } else if Acknowledged(c, e.replies) {
        var n := Attempts(e.replies, c.maxRetries);
        PostedLength(e.replies, n);
        assert Exchange(c, e.replies).posted[n - 1] == e.replies(n);
      }
    }
  }

  lemma {:induction false} PostedLength(replies: nat -> Reply, n: nat)
    ensures |Posted(replies, n)| == n
  {
    if n > 0 { PostedLength(replies, n - 1); }
  }

  /** Every mark has an acknowledged POST if and only if no otherwise markable delivery runs dry. */
  lemma {:induction false} MarksAreAcknowledged(c: WebhookConfig, queue: seq<Alert>, effects: int -> Effect)
    ensures EveryMarkAcknowledged(Deliveries(c, queue, effects))
       <==> !(c.dryRun && SomeMarkable(c, queue, effects))
  {
    if queue != [] {
      var n := |queue| - 1;
      MarksAreAcknowledged(c, queue[..n], effects);
      OwnMarkAcknowledged(c, queue[n], effects(n));
      var own := DeliveryEvents(c, queue[n], effects(n));
      if own != [] { OwnEvents(c, queue[n], effects(n), 0); }
      MarksConcat(Deliveries(c, queue[..n], effects), own);
      OneMoreDelivery(c, queue, effects, 0);
    }
  }

  /** A dry run marks a row although nothing was sent for it. */
  lemma DryRunMarks(a: Alert) returns (c: WebhookConfig, effects: int -> Effect)
    requires Directional(a)
    ensures c.enabled && c.dryRun && Marked(7) in Deliveries(c, [a], effects)
    ensures DeliveryLogs(c, [a], effects).posted == [] && !EveryMarkAcknowledged(Deliveries(c, [a], effects))
  {
    c := WebhookConfig(true, true, true, true, 3, 1.0);
    var e := Effect(false, Some(7), false, true, (n: nat) => Timeout, false, false, true);
    effects := (k: int) => e;
    assert Markable(c, [a][0], effects(0));
    MarkedMeaning(c, [a], effects, 7);
    MarksAreAcknowledged(c, [a], effects);
  }

  // ---------------------------------------------------------------- many calls

  datatype Call = Call(items: seq<RawItem>, now: real, effects: int -> Effect)

  function KeysAfter(h: seq<Call>, ttl: real): Keys {
    if h == [] then map[]
    else Admit(h[|h| - 1].items, KeysAfter(h[..|h| - 1], ttl), h[|h| - 1].now, ttl, true).keys
  }

  /** The alerts call i admits, with Redis up throughout. */
  function AdmittedAt(h: seq<Call>, i: nat, ttl: real): seq<Alert>
    requires i < |h|
  {
    Admit(h[i].items, KeysAfter(h[..i], ttl), h[i].now, ttl, true).alerts
  }

  /** The alerts call i queues. */
  function QueueAt(h: seq<Call>, i: nat, ttl: real, maxAlerts: nat): seq<Alert>
    requires i < |h|
  {
    Queue(AdmittedAt(h, i, ttl), maxAlerts)
  }

  /** An admitted alert's key was free and is now held for a full window; no key's hold shrinks. */
  lemma {:induction false} AdmissionHolds(items: seq<RawItem>, keys: Keys, now: real, ttl: real)
    requires ttl > 0.0
    ensures var r := Admit(items, keys, now, ttl, true);
      && (forall k :: k in keys ==> k in r.keys && r.keys[k] >= keys[k])
      && (forall a :: a in r.alerts ==>
            !Live(keys, KeyFor(a), now) && KeyFor(a) in r.keys && r.keys[KeyFor(a)] == now + ttl)
      && (forall i, j :: 0 <= i < j < |r.alerts| ==> KeyFor(r.alerts[i]) != KeyFor(r.alerts[j]))
  {
    if items != [] {
      AdmissionHolds(items[..|items| - 1], keys, now, ttl);
    }
  }

  lemma {:induction false} HoldsPersist(h: seq<Call>, i: nat, j: nat, ttl: real, k: NotifyKey)
    requires ttl > 0.0 && i <= j <= |h| && k in KeysAfter(h[..i], ttl)
    ensures k in KeysAfter(h[..j], ttl) && KeysAfter(h[..j], ttl)[k] >= KeysAfter(h[..i], ttl)[k]
    decreases j - i
  {
    if i < j {
      HoldsPersist(h, i, j - 1, ttl, k);
      KeyIsKept(h, j - 1, ttl, k);
    }
  }

  lemma KeyIsKept(h: seq<Call>, i: nat, ttl: real, k: NotifyKey)
    requires ttl > 0.0 && i < |h| && k in KeysAfter(h[..i], ttl)
    ensures k in KeysAfter(h[..i + 1], ttl) && KeysAfter(h[..i + 1], ttl)[k] >= KeysAfter(h[..i], ttl)[k]
  {
    KeysNext(h, i, ttl);
    AdmissionHolds(h[i].items, KeysAfter(h[..i], ttl), h[i].now, ttl);
  }

  lemma KeysNext(h: seq<Call>, i: nat, ttl: real)
    requires i < |h|
    ensures KeysAfter(h[..i + 1], ttl) == Admit(h[i].items, KeysAfter(h[..i], ttl), h[i].now, ttl, true).keys
  {
    assert h[..i + 1][..i] == h[..i];
  }

  lemma QueuedIsAdmitted(alerts: seq<Alert>, maxAlerts: nat, a: Alert)
    requires a in Queue(alerts, maxAlerts)
    ensures a in alerts
  {
    QueueIsCapped(alerts, maxAlerts);
  }

  lemma QueuedKeyIsFree(h: seq<Call>, i: nat, ttl: real, maxAlerts: nat, a: Alert)
    requires ttl > 0.0 && i < |h| && a in QueueAt(h, i, ttl, maxAlerts)
    ensures !Live(KeysAfter(h[..i], ttl), KeyFor(a), h[i].now)
    ensures KeyFor(a) in KeysAfter(h[..i + 1], ttl) && KeysAfter(h[..i + 1], ttl)[KeyFor(a)] == h[i].now + ttl
  {
    var keys := KeysAfter(h[..i], ttl);
    QueuedIsAdmitted(Admit(h[i].items, keys, h[i].now, ttl, true).alerts, maxAlerts, a);
    AdmissionHolds(h[i].items, keys, h[i].now, ttl);
    KeysNext(h, i, ttl);
  }

  /** Over any sequence of calls, two calls that queue the same symbol, direction and timeframe are
      at least one dedup window apart. */
  lemma DeliveriesAreSpaced(h: seq<Call>, i: nat, j: nat, ttl: real, maxAlerts: nat, a: Alert, b: Alert)
    requires ttl > 0.0 && i < j < |h|
    requires a in QueueAt(h, i, ttl, maxAlerts) && b in QueueAt(h, j, ttl, maxAlerts) && KeyFor(a) == KeyFor(b)
    ensures h[j].now - h[i].now >= ttl
  {
    QueuedKeyIsFree(h, i, ttl, maxAlerts, a);
    QueuedKeyIsFree(h, j, ttl, maxAlerts, b);
    HoldsPersist(h, i + 1, j, ttl, KeyFor(a));
  }

  predicate Admits(alerts: seq<Alert>, k: NotifyKey) { exists a :: a in alerts && KeyFor(a) == k }

  predicate Offers(items: seq<RawItem>, k: NotifyKey) {
    exists i :: 0 <= i < |items| && ParseAlert(items[i]).Some? && KeyFor(ParseAlert(items[i]).value) == k
  }

  lemma AdmitsSnoc(alerts: seq<Alert>, a: Alert, k: NotifyKey)
    ensures Admits(alerts + [a], k) <==> Admits(alerts, k) || KeyFor(a) == k
  {
    if Admits(alerts, k) {
      var b :| b in alerts && KeyFor(b) == k;
      assert b in alerts + [a];
    }
    assert a in alerts + [a];
  }

  lemma OffersSnoc(items: seq<RawItem>, k: NotifyKey)
    requires items != []
    ensures var item := items[|items| - 1];
      Offers(items, k)
      <==> Offers(items[..|items| - 1], k) || (ParseAlert(item).Some? && KeyFor(ParseAlert(item).value) == k)
  {
    var init := items[..|items| - 1];
    assert forall i :: 0 <= i < |init| ==> init[i] == items[i];
  }

  /** One call, for one key: it admits an alert with the key exactly when the key is free and some item
      has it; and the key is live afterwards, at any time, exactly when it was or has just been claimed. */
  lemma {:induction false} AdmissionOfKey(items: seq<RawItem>, keys: Keys, now: real, ttl: real, k: NotifyKey, t: real)
    requires ttl > 0.0
    ensures var r := Admit(items, keys, now, ttl, true);
      && (Admits(r.alerts, k) <==> !Live(keys, k, now) && Offers(items, k))
      && (Live(r.keys, k, t) <==> Live(keys, k, t) || (Admits(r.alerts, k) && t < now + ttl))
  {
    if items != [] {
      var init, last := items[..|items| - 1], ParseAlert(items[|items| - 1]);
      AdmissionOfKey(init, keys, now, ttl, k, t);
      AdmissionOfKey(init, keys, now, ttl, k, now);
      OffersSnoc(items, k);
      if last.Some? { AdmitsSnoc(Admit(init, keys, now, ttl, true).alerts, last.value, k); }
    }
  }

  /** Call i admitted an alert with the key less than one window before t. */
  predicate HeldBy(h: seq<Call>, i: nat, ttl: real, k: NotifyKey, t: real)
    requires i < |h|
  {
    t < h[i].now + ttl && Admits(AdmittedAt(h, i, ttl), k)
  }

  ghost predicate Held(h: seq<Call>, n: nat, ttl: real, k: NotifyKey, t: real)
    requires n <= |h|
  {
    exists i :: 0 <= i < n && HeldBy(h, i, ttl, k, t)
  }

  /** Over any sequence of calls a key is live exactly when some call so far admitted an alert with it
      less than one window before. */
  lemma {:induction false} LiveMeaning(h: seq<Call>, n: nat, ttl: real, k: NotifyKey, t: real)
    requires ttl > 0.0 && n <= |h|
    ensures Live(KeysAfter(h[..n], ttl), k, t) <==> Held(h, n, ttl, k, t)
  {
    if n > 0 {
      LiveMeaning(h, n - 1, ttl, k, t);
      KeysNext(h, n - 1, ttl);
      AdmissionOfKey(h[n - 1].items, KeysAfter(h[..n - 1], ttl), h[n - 1].now, ttl, k, t);
      assert Held(h, n, ttl, k, t) <==> Held(h, n - 1, ttl, k, t) || HeldBy(h, n - 1, ttl, k, t);
    }
  }

  /** When a call lets a key through: exactly when one of its items has it and no earlier call admitted
      it less than one window before. Admission alone counts, so an alert that the cap then drops, or
      whose insert fails, blocks its key for a full window. */
  lemma AdmissionMeaning(h: seq<Call>, j: nat, ttl: real, k: NotifyKey)
    requires ttl > 0.0 && j < |h|
    ensures Admits(AdmittedAt(h, j, ttl), k) <==> Offers(h[j].items, k) && !Held(h, j, ttl, k, h[j].now)
  {
    LiveMeaning(h, j, ttl, k, h[j].now);
    AdmissionOfKey(h[j].items, KeysAfter(h[..j], ttl), h[j].now, ttl, k, h[j].now);
  }

  /** An admitted alert blocks its key for a full window although it was never queued. */
  lemma DroppedAlertBlocks(h: seq<Call>, i: nat, j: nat, ttl: real, maxAlerts: nat, a: Alert)
    requires ttl > 0.0 && i < j < |h| && h[j].now < h[i].now + ttl
    requires a in AdmittedAt(h, i, ttl) && a !in QueueAt(h, i, ttl, maxAlerts)
    ensures forall b :: b in QueueAt(h, j, ttl, maxAlerts) ==> KeyFor(b) != KeyFor(a)
  {
    AdmissionMeaning(h, j, ttl, KeyFor(a));
    assert HeldBy(h, i, ttl, KeyFor(a), h[j].now);
    forall b | b in QueueAt(h, j, ttl, maxAlerts) ensures KeyFor(b) != KeyFor(a) {
      QueuedIsAdmitted(AdmittedAt(h, j, ttl), maxAlerts, b);
    }
  }
}
