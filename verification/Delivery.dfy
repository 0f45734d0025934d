/** Routing, retry schedule and broker errors of the delivery service. */
module Delivery {
  import opened Common
  import opened NulText
  import opened Records

  // ---------------------------------------------------------------------------------------
  // Routing
  // ---------------------------------------------------------------------------------------

  datatype Route = Route(topic: string, partitionKey: string, checksum: Checksum, version: int)

  datatype Routing = Routed(route: Route) | UnsupportedRoutingVersion | EmptyField

  function Topic(installationId: string, ns: string): string {
    "craftrelay." + installationId + "." + ns + ".events"
  }

  function RoutingText(e: Envelope): string {
    Render(Words([e.installationId, e.ns, e.streamType, e.streamKey, e.eventType, Decimal(e.routingVersion)]))
  }

  /** No routing field is empty. */
  predicate Routable(e: Envelope) {
    e.installationId != "" && e.ns != "" && e.streamType != "" && e.streamKey != "" && e.eventType != ""
  }

  /** `resolve_routing` on the stored envelope. */
  function ResolveRouting(sha: Hash, e: Envelope): (r: Routing)
    ensures r.UnsupportedRoutingVersion? <==> e.routingVersion != 1
    ensures r.Routed? <==> e.routingVersion == 1 && Routable(e)
    ensures r.Routed? ==>
      && r.route.partitionKey == StreamOf(e) && r.route.topic == Topic(e.installationId, e.ns)
      && r.route.checksum == sha(RoutingText(e)) && r.route.version == 1
  {
    if e.routingVersion != 1 then UnsupportedRoutingVersion
    else if e.installationId == "" || e.ns == "" || e.streamType == "" || e.streamKey == "" || e.eventType == "" then EmptyField
    else
      Routed(Route(Topic(e.installationId, e.ns),
                   e.installationId + [NUL] + e.ns + [NUL] + e.streamType + [NUL] + e.streamKey,
                   sha(RoutingText(e)),
                   e.routingVersion))
  }

  /** The fingerprint text determines every routing field. */
  lemma {:induction false} RoutingTextDeterminesRoute(a: Envelope, b: Envelope)
    requires NulFree(a.installationId) && NulFree(a.ns) && NulFree(a.streamType) && NulFree(a.streamKey) && NulFree(a.eventType)
    requires NulFree(b.installationId) && NulFree(b.ns) && NulFree(b.streamType) && NulFree(b.streamKey) && NulFree(b.eventType)
    ensures RoutingText(a) == RoutingText(b)
       <==> StreamOf(a) == StreamOf(b) && a.eventType == b.eventType && a.routingVersion == b.routingVersion
  {
    hide Render;
    var x := [a.installationId, a.ns, a.streamType, a.streamKey, a.eventType, Decimal(a.routingVersion)];
    var y := [b.installationId, b.ns, b.streamType, b.streamKey, b.eventType, Decimal(b.routingVersion)];
    DecimalInjective(a.routingVersion, b.routingVersion);
    DecimalInjective(b.routingVersion, a.routingVersion);
    ComposedKeyInjective(a.installationId, a.ns, a.streamType, a.streamKey, b.installationId, b.ns, b.streamType, b.streamKey);
    if RoutingText(a) == RoutingText(b) {
      RenderInjective(Words(x), Words(y));
      assert forall i :: 0 <= i < 6 ==> Words(x)[i] == Words(y)[i];
      assert x[0] == y[0] && x[1] == y[1] && x[2] == y[2] && x[3] == y[3] && x[4] == y[4] && x[5] == y[5];
    }
  }

  predicate DotFree(s: string) {
    forall i :: 0 <= i < |s| ==> s[i] != '.'
  }

  lemma SplitAtDot(i: string, n: string, j: string, m: string)
    requires DotFree(i) && DotFree(j) && i + "." + n == j + "." + m
    ensures i == j && n == m
  {
    var x, y := i + "." + n, j + "." + m;
    assert x[|i|] == '.' && y[|j|] == '.';
    assert forall k :: 0 <= k < |i| ==> x[k] == i[k];
    assert forall k :: 0 <= k < |j| ==> y[k] == j[k];
    assert |i| == |j|;
    assert x[..|i|] == i && y[..|j|] == j && x[|i| + 1..] == n && y[|j| + 1..] == m;
  }

  /** Two routes share a topic exactly when their dotted names agree; installations whose ids hold
      no dot share one exactly when they and the namespaces agree. */
  lemma {:induction false} SameTopicExactlyWhen(i: string, n: string, j: string, m: string)
    ensures Topic(i, n) == Topic(j, m) <==> i + "." + n == j + "." + m
    ensures DotFree(i) && DotFree(j) ==> (Topic(i, n) == Topic(j, m) <==> i == j && n == m)
  {
    hide Topic, DotFree;
    TopicCore(i, n);
    TopicCore(j, m);
    if DotFree(i) && DotFree(j) && Topic(i, n) == Topic(j, m) {
      SplitAtDot(i, n, j, m);
    }
  }

  lemma TopicCore(i: string, n: string)
    ensures var x := Topic(i, n); |x| == |i| + |n| + 19 && x[11..|x| - 7] == i + "." + n && x == "craftrelay." + (i + "." + n) + ".events"
  {
    var x := Topic(i, n);
    assert x == "craftrelay." + (i + "." + n) + ".events";
    assert |"craftrelay."| == 11 && |".events"| == 7;
  }

  /** With a dot in an installation id two installations share a topic. */
  lemma {:induction false} TopicsCollide(i: string, n: string, m: string)
    ensures Topic(i + "." + n, m) == Topic(i, n + "." + m)
  {
    assert "craftrelay." + (i + "." + n) + "." + m + ".events" == "craftrelay." + i + "." + (n + "." + m) + ".events";
  }

  // ---------------------------------------------------------------------------------------
  // Broker errors
  // ---------------------------------------------------------------------------------------

  /** `Unknown` carries its rendered debug text. */
  datatype SendError =
    BrokerUnavailable | TopicNotFound | AuthorizationFailed | MessageTooLarge | Timeout | QueueFull | Unknown(rendered: string)

  predicate Retriable(e: SendError) {
    e.BrokerUnavailable? || e.Timeout? || e.QueueFull?
  }

  predicate Permanent(e: SendError) {
    e.TopicNotFound? || e.AuthorizationFailed? || e.MessageTooLarge?
  }

  function ErrorText(e: SendError): string {
    match e
    case BrokerUnavailable => "BrokerUnavailable"
    case TopicNotFound => "TopicNotFound"
    case AuthorizationFailed => "AuthorizationFailed"
    case MessageTooLarge => "MessageTooLarge"
    case Timeout => "Timeout"
    case QueueFull => "QueueFull"
    case Unknown(rendered) => rendered
  }

  // ---------------------------------------------------------------------------------------
  // Retry schedule
  // ---------------------------------------------------------------------------------------

  const MAX_RETRY_ATTEMPTS := 32
  const BASE_BACKOFF_MS := 1_000
  const MAX_BACKOFF_MS := 300_000
  const I64_MAX := 0x7fff_ffff_ffff_ffff

  datatype RetryDecision = RetryAt(nextRetryAtMs: int) | Exhausted

  function Pow2(n: nat): (p: int)
    ensures p >= 1
  {
    if n == 0 then 1 else 2 * Pow2(n - 1)
  }

  function Saturated(n: int): int {
    if n > I64_MAX then I64_MAX else n
  }

  function Min(a: int, b: int): int {
    if a <= b then a else b
  }

  function ComputeNextRetry(attemptCount: int, now: int): RetryDecision {
    if attemptCount >= MAX_RETRY_ATTEMPTS then Exhausted
    else
      var exponent := if attemptCount - 1 > 0 then attemptCount - 1 else 0;
      RetryAt(now + Min(Saturated(BASE_BACKOFF_MS * Saturated(Pow2(exponent))), MAX_BACKOFF_MS))
  }

  predicate ShouldRetry(e: SendError, attemptCount: int) {
    Retriable(e) && attemptCount < MAX_RETRY_ATTEMPTS
  }

  lemma {:induction false} Pow2Monotone(m: nat, n: nat)
    requires m <= n
    ensures Pow2(m) <= Pow2(n)
  {
    if m < n {
      Pow2Monotone(m, n - 1);
    }
  }

  /** The delay of attempt n is min(1000 * 2^(n-1), 300000) and no operation saturates; it
      never shrinks from one attempt to a later one and reaches the cap at the tenth. */
  lemma {:induction false} BackoffSchedule(n: int, now: int)
    requires 1 <= n < MAX_RETRY_ATTEMPTS
    ensures BASE_BACKOFF_MS * Pow2(n - 1) <= I64_MAX
    ensures ComputeNextRetry(n, now) == RetryAt(now + Min(BASE_BACKOFF_MS * Pow2(n - 1), MAX_BACKOFF_MS))
    ensures Min(BASE_BACKOFF_MS * Pow2(n - 1), MAX_BACKOFF_MS) == MAX_BACKOFF_MS <==> n >= 10
    ensures forall m :: 1 <= m <= n ==> ComputeNextRetry(m, now).RetryAt? && ComputeNextRetry(m, now).nextRetryAtMs <= ComputeNextRetry(n, now).nextRetryAtMs
  {
    Pow2Values();
    forall m | 1 <= m <= n
      ensures ComputeNextRetry(m, now).RetryAt? && ComputeNextRetry(m, now).nextRetryAtMs <= ComputeNextRetry(n, now).nextRetryAtMs
    {
      Pow2Monotone(m - 1, n - 1);
    }
    Pow2Monotone(n - 1, 30);
    if n >= 10 {
      Pow2Monotone(9, n - 1);
    } else {
      Pow2Monotone(n - 1, 8);
    }
  }

  lemma Pow2Values()
    ensures Pow2(8) == 256 && Pow2(9) == 512 && Pow2(30) == 0x4000_0000
  {
    assert Pow2(10) == 1024;
    assert Pow2(20) == 0x10_0000 by {
      assert Pow2(15) == 0x8000;
    }
    assert Pow2(25) == 0x200_0000;
  }

  /** After a retriable failure the schedule is never found exhausted: `should_retry` already
      sent such an attempt to the blocking branch. */
  lemma {:induction false} ExhaustedIsUnreachable(e: SendError, attemptCount: int, now: int)
    ensures ShouldRetry(e, attemptCount) ==> ComputeNextRetry(attemptCount, now).RetryAt?
  {
  }
}
