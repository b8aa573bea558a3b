/** Webhook delivery with retry, backoff, strict acknowledgement and audit (execution_webhook.py). */
module Webhook {
  import opened Prelude

  /** A response body, as far as the acknowledgement contract reads it. */
  datatype Body =
    | NotJson
    | NotObject
    | Object(acceptedIsTrue: bool, executionId: Option<string>)

  /** How one POST ends. */
  datatype Reply = Response(status: int, body: Body) | Timeout | RequestError

  function ParseAck(status: int, body: Body): (bool, Option<string>) {
    if status != 200 || !body.Object? || !body.acceptedIsTrue then (false, None)
    else if body.executionId.None? || body.executionId.value == "" then (false, None)
    else (true, body.executionId)
  }

  predicate Accepted(r: Reply) { r.Response? && ParseAck(r.status, r.body).0 }

  /** A sender error that retrying cannot cure. */
  predicate Permanent(r: Reply) { r.Response? && r.status != 429 && 400 <= r.status < 500 }

  predicate Final(r: Reply) { Accepted(r) || Permanent(r) }

  datatype AuditStatus = DryRun | Success | Failed

  datatype Audit = Audit(status: AuditStatus, httpStatus: Option<int>, attemptCount: nat)

  datatype WebhookConfig = WebhookConfig(enabled: bool, dryRun: bool, urlSet: bool, secretSet: bool,
                                         maxRetries: nat, backoff: real)

  predicate Posts(c: WebhookConfig) { c.enabled && !c.dryRun && c.urlSet && c.secretSet }

  function Pow2(n: nat): (r: nat)
    ensures r >= 1
  {
    if n == 0 then 1 else 2 * Pow2(n - 1)
  }

  function Delay(c: WebhookConfig, attempt: nat): real
    requires attempt >= 1
  {
    Times(c.backoff, Pow2(attempt - 1) as real)
  }

  // ---------------------------------------------------------------- specification

  /** The number of POSTs made, counting from attempt i: up to the first final reply or the limit. */
  function LastAttempt(replies: nat -> Reply, i: nat, max: nat): (n: nat)
    requires 1 <= i <= max
    ensures i <= n <= max
    ensures forall k :: i <= k < n ==> !Final(replies(k))
    ensures n < max ==> Final(replies(n))
    decreases max - i
  {
    if Final(replies(i)) || i == max then i else LastAttempt(replies, i + 1, max)
  }

  function Attempts(replies: nat -> Reply, max: nat): nat {
    if max == 0 then 0 else LastAttempt(replies, 1, max)
  }

  /** The first n attempts, in order. */
  function Posted(replies: nat -> Reply, n: nat): seq<Reply> {
    if n == 0 then [] else Posted(replies, n - 1) + [replies(n)]
  }

  /** The POSTs go on exactly past the replies that are not final, up to the limit. */
  lemma AttemptsGoOn(replies: nat -> Reply, max: nat, k: nat)
    requires 1 <= k <= Attempts(replies, max)
    ensures k <= max
    ensures k == Attempts(replies, max) <==> Final(replies(k)) || k == max
  {}

  /** The status of the latest response among the first n replies. */
  function LastStatus(replies: nat -> Reply, n: nat): Option<int> {
    if n == 0 then None
    else if replies(n).Response? then Some(replies(n).status)
    else LastStatus(replies, n - 1)
  }

  function Delays(c: WebhookConfig, n: nat): seq<real> {
    if n == 0 then [] else Delays(c, n - 1) + [Delay(c, n)]
  }

  /** The delays slept once attempt `n` has failed: none follows the last one allowed. */
  function Waited(c: WebhookConfig, n: nat): seq<real> {
    Delays(c, if n == c.maxRetries > 0 then n - 1 else n)
  }

  lemma WaitedNext(c: WebhookConfig, n: nat, before: seq<real>)
    requires 1 <= n < c.maxRetries
    ensures before + Waited(c, n - 1) + [Delay(c, n)] == before + Waited(c, n)
  {}

  lemma PostedNext(replies: nat -> Reply, n: nat, before: seq<Reply>)
    requires n >= 1
    ensures before + Posted(replies, n - 1) + [replies(n)] == before + Posted(replies, n)
  {}

  /** Everything a client has sent, waited and written. */
  datatype Log = Log(posted: seq<Reply>, slept: seq<real>, audits: seq<Audit>)

  const EMPTY_LOG := Log([], [], [])

  function Append(a: Log, b: Log): Log { Log(a.posted + b.posted, a.slept + b.slept, a.audits + b.audits) }

  lemma AppendAssociates(a: Log, b: Log, c: Log)
    ensures Append(Append(a, b), c) == Append(a, Append(b, c))
    ensures Append(a, EMPTY_LOG) == a
  {}

  /** trade-execute acknowledged the last POST of the delivery. */
  predicate Acknowledged(c: WebhookConfig, replies: nat -> Reply) {
    Posts(c) && var n := Attempts(replies, c.maxRetries); n > 0 && Accepted(replies(n))
  }

  /** What a delivery reports; a disabled or dry-run one reports success without a POST. */
  predicate Delivered(c: WebhookConfig, replies: nat -> Reply) {
    !c.enabled || c.dryRun || Acknowledged(c, replies)
  }

  /** What one delivery adds to the log. */
  function Exchange(c: WebhookConfig, replies: nat -> Reply): Log {
    if Posts(c) then
      var n := Attempts(replies, c.maxRetries);
      Log(Posted(replies, n), Delays(c, if n == 0 then 0 else n - 1),
          [Audit(if Acknowledged(c, replies) then Success else Failed, LastStatus(replies, n), n)])
    else Log([], [], if c.enabled && c.dryRun then [Audit(DryRun, None, 0)] else [])
  }

  class WebhookClient {
    var posted: seq<Reply>
    var slept: seq<real>
    var audits: seq<Audit>

    constructor ()
      ensures posted == [] && slept == [] && audits == []
    {
      posted, slept, audits := [], [], [];
    }

    function State(): Log
      reads this
    {
      Log(posted, slept, audits)
    }

    /** The retry loop and the single audit write that ends it. */
    method PostWithRetries(c: WebhookConfig, replies: nat -> Reply) returns (delivered: bool)
      modifies this
      ensures var n := Attempts(replies, c.maxRetries);
        && posted == old(posted) + Posted(replies, n)
        && slept == old(slept) + Delays(c, if n == 0 then 0 else n - 1)
        && delivered == (n > 0 && Accepted(replies(n)))
        && audits == old(audits) + [Audit(if delivered then Success else Failed, LastStatus(replies, n), n)]
    {
      ghost var n := Attempts(replies, c.maxRetries);
      var lastStatus: Option<int> := None;
      var attempt := 0;
      while attempt < c.maxRetries
        invariant attempt <= n && attempt <= c.maxRetries
        invariant attempt == n ==> attempt == c.maxRetries && (attempt > 0 ==> !Final(replies(attempt)))
        invariant posted == old(posted) + Posted(replies, attempt) && audits == old(audits)
        invariant lastStatus == LastStatus(replies, attempt)
        invariant slept == old(slept) + Waited(c, attempt)
      {
        attempt := attempt + 1;
        AttemptsGoOn(replies, c.maxRetries, attempt);
        var reply := replies(attempt);
        PostedNext(replies, attempt, old(posted));
        posted := posted + [reply];
        if reply.Response? {
          lastStatus := Some(reply.status);
          var (accepted, executionId) := ParseAck(reply.status, reply.body);
          if accepted {
            audits := audits + [Audit(Success, Some(reply.status), attempt)];
            return true;
          }
          if reply.status != 429 && 400 <= reply.status < 500 { break; }
        }
        if attempt < c.maxRetries {
          WaitedNext(c, attempt, old(slept));
          slept := slept + [Delay(c, attempt)];
        }
      }
      audits := audits + [Audit(Failed, lastStatus, attempt)];
      return false;
    }

    method Deliver(c: WebhookConfig, replies: nat -> Reply) returns (delivered: bool)
      modifies this
      ensures delivered == Delivered(c, replies) && State() == Append(old(State()), Exchange(c, replies))
      ensures !c.enabled ==> delivered && posted == old(posted) && audits == old(audits)
      ensures c.enabled && c.dryRun ==>
                delivered && posted == old(posted) && audits == old(audits) + [Audit(DryRun, None, 0)]
      ensures c.enabled && !c.dryRun && !(c.urlSet && c.secretSet) ==>
                !delivered && posted == old(posted) && audits == old(audits)
      ensures !Posts(c) ==> slept == old(slept)
      ensures Posts(c) ==>
        var n := Attempts(replies, c.maxRetries);
        && posted == old(posted) + Posted(replies, n)
        && slept == old(slept) + Delays(c, if n == 0 then 0 else n - 1)
        && delivered == (n > 0 && Accepted(replies(n)))
        && audits == old(audits) + [Audit(if delivered then Success else Failed, LastStatus(replies, n), n)]
    {
      if !c.enabled { return true; }
      if c.dryRun {
        audits := audits + [Audit(DryRun, None, 0)];
        return true;
      }
      if !c.urlSet { return false; }
      if !c.secretSet { return false; }
      delivered := PostWithRetries(c, replies);
    }
  }

  // ---------------------------------------------------------------- what the trace guarantees

  /** The contract of an acknowledgement: a 200 response whose JSON object says accepted and names an
      execution. */
  lemma AckMeaning(r: Reply)
    ensures Accepted(r) <==> exists id :: id != "" && r == Response(200, Object(true, Some(id)))
    ensures Permanent(r) <==> r.Response? && 400 <= r.status <= 499 && r.status != 429
  {
    if Accepted(r) { assert r == Response(200, Object(true, Some(r.body.executionId.value))); }
  }

  /** The status in the audit row: that of the last POST that got a response, whatever its status, or none
      when no POST did. */
  lemma {:induction false} LastStatusMeaning(replies: nat -> Reply, n: nat)
    ensures LastStatus(replies, n).None? <==> forall k :: 1 <= k <= n ==> !replies(k).Response?
    ensures LastStatus(replies, n).Some? ==>
      exists k :: 1 <= k <= n && replies(k).Response? && LastStatus(replies, n) == Some(replies(k).status)
                  && forall j :: k < j <= n ==> !replies(j).Response?
  {
    if n > 0 { LastStatusMeaning(replies, n - 1); }
  }

  /** At most `max` POSTs; every POST but the last was neither acknowledged nor a permanent refusal,
      and giving up before the limit means the last one was. */
  lemma AttemptsMeaning(replies: nat -> Reply, max: nat)
    ensures var n := Attempts(replies, max);
      && n <= max
      && (forall k :: 1 <= k < n ==> !Accepted(replies(k)) && !Permanent(replies(k)))
      && (0 < n < max ==> Accepted(replies(n)) || Permanent(replies(n)))
      && ((forall k :: 1 <= k < max ==> !Final(replies(k))) <==> n == max)
  {
  }

  /** n backoff delays add up to base * (2^n - 1). */
  lemma {:induction false} TotalBackoff(c: WebhookConfig, n: nat)
    ensures Sum(Delays(c, n)) == Times(c.backoff, (Pow2(n) - 1) as real)
  {
    if n > 0 {
      TotalBackoff(c, n - 1);
      NextBackoff(c, n - 1);
      Doubling(c.backoff, Pow2(n - 1), Sum(Delays(c, n - 1)), Delay(c, n));
    }
  }

  lemma Doubling(base: real, x: nat, total: real, delay: real)
    requires total == Times(base, (x - 1) as real) && delay == Times(base, x as real)
    ensures total + delay == Times(base, (2 * x - 1) as real)
  {}

  lemma DelayIsPositive(c: WebhookConfig, n: nat)
    requires n >= 1 && c.backoff > 0.0
    ensures Delay(c, n) > 0.0
  {
    var x := Pow2(n - 1) as real;
    assert x >= 1.0;
    assert c.backoff * x > 0.0;
  }

  lemma NextBackoff(c: WebhookConfig, n: nat)
    ensures Sum(Delays(c, n + 1)) == Sum(Delays(c, n)) + Delay(c, n + 1)
  {
    var d := Delays(c, n);
    assert Delays(c, n + 1) == d + [Delay(c, n + 1)];
    assert (d + [Delay(c, n + 1)])[..|d|] == d;
  }

  /** The total backoff grows strictly with the number of delays. */
  lemma {:induction false} BackoffGrows(c: WebhookConfig, n: nat, max: nat)
    requires n <= max && c.backoff > 0.0
    ensures Sum(Delays(c, n)) <= Sum(Delays(c, max))
    ensures n < max ==> Sum(Delays(c, n)) < Sum(Delays(c, max))
  {
    if n < max {
      BackoffGrows(c, n, max - 1);
      NextBackoff(c, max - 1);
      DelayIsPositive(c, max);
    }
  }

  /** A delivery never sleeps longer than the delays of the configured limit, and sleeps that long
      exactly when every POST before the limit was transient. */
  lemma BackoffIsBounded(c: WebhookConfig, replies: nat -> Reply, n: nat)
    requires c.maxRetries >= 1 && c.backoff > 0.0 && n == Attempts(replies, c.maxRetries)
    ensures Sum(Delays(c, n - 1)) <= Sum(Delays(c, c.maxRetries - 1))
    ensures Sum(Delays(c, n - 1)) == Sum(Delays(c, c.maxRetries - 1))
        <==> forall k :: 1 <= k < c.maxRetries ==> !Final(replies(k))
  {
    AttemptsMeaning(replies, c.maxRetries);
    BackoffGrows(c, n - 1, c.maxRetries - 1);
  }
}
