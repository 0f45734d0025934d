/** What every run of the journal guarantees. */
module JournalTheorems {
  import opened Common
  import opened Records
  import opened Journal
  import opened JournalRuns

  // ---------------------------------------------------------------------------------------
  // Acceptance order and idempotence
  // ---------------------------------------------------------------------------------------

  ghost predicate Holds(envelopes: seq<Envelope>, stream: string, n: int) {
    exists i :: 0 <= i < |envelopes| && StreamOf(envelopes[i]) == stream && envelopes[i].streamSequence == n
  }

  /** Journal sequences are 1..n; each stream holds exactly 1..head; both orders agree. */
  lemma {:induction false} AcceptanceOrder(sha: Hash, ops: seq<Op>)
    ensures var t := After(sha, ops);
      && (forall i :: 0 <= i < |t.envelopes| ==> t.envelopes[i].journalSequence == i + 1)
      && (forall i, j :: 0 <= i < |t.envelopes| && 0 <= j < |t.envelopes| && StreamOf(t.envelopes[i]) == StreamOf(t.envelopes[j]) ==>
            (i < j <==> t.envelopes[i].streamSequence < t.envelopes[j].streamSequence))
      && (forall stream: string, n: int :: Holds(t.envelopes, stream, n) <==> 1 <= n <= Head(t, stream))
  {
    hide Ordered, Count, StreamOf, Find, AllIntact, Keyed, ProducersRise, LogsBounded, After;
    var t := After(sha, ops);
    RunsAreConsistent(sha, ops);
    forall i | 0 <= i < |t.envelopes|
      ensures t.envelopes[i].journalSequence == i + 1
    {
      OrderedAt(t.envelopes, i);
    }
    forall i, j | 0 <= i < |t.envelopes| && 0 <= j < |t.envelopes| && StreamOf(t.envelopes[i]) == StreamOf(t.envelopes[j])
      ensures i < j <==> t.envelopes[i].streamSequence < t.envelopes[j].streamSequence
    {
      StreamOrder(t.envelopes, i, j);
    }
    forall stream: string, n: int
      ensures Holds(t.envelopes, stream, n) <==> 1 <= n <= Head(t, stream)
    {
      StreamHoldsExactly(sha, t, stream, n);
    }
  }

  lemma StreamHoldsExactly(sha: Hash, t: Tables, stream: string, n: int)
    requires Ordered(t.envelopes) && HeadsCount(t)
    ensures Holds(t.envelopes, stream, n) <==> 1 <= n <= Head(t, stream)
  {
    hide Ordered, Count, StreamOf, Find;
    assert Head(t, stream) == Count(t.envelopes, stream);
    if 1 <= n <= Head(t, stream) {
      var i := StreamDense(t.envelopes, stream, n);
    }
    if Holds(t.envelopes, stream, n) {
      var i :| 0 <= i < |t.envelopes| && StreamOf(t.envelopes[i]) == stream && t.envelopes[i].streamSequence == n;
      StreamOrder(t.envelopes, i, i);
    }
  }

  lemma ApplyGrows(sha: Hash, t: Tables, op: Op)
    ensures t.envelopes <= Apply(sha, t, op).0.envelopes
  {
    hide NewEnvelope, Find, GetStatus, Load, LifecycleChecksum, Seal, NextLifecycle, Newest, UpdateLifecycle,
      CreatePending, RecordAttempt, Confirm, Block, Retry, ProducerConflict;
  }

  /** Envelopes are never changed or removed. */
  lemma {:induction false} EnvelopesOnlyGrow(sha: Hash, ops: seq<Op>, i: nat)
    requires i <= |ops|
    ensures After(sha, ops[..i]).envelopes <= After(sha, ops).envelopes
  {
    hide Apply;
    if i == |ops| {
      assert ops[..i] == ops;
    } else {
      var n := |ops| - 1;
      EnvelopesOnlyGrow(sha, ops[..n], i);
      assert ops[..n][..i] == ops[..i];
      ApplyGrows(sha, After(sha, ops[..n]), ops[n]);
    }
  }

  function AnswerFor(e: Envelope): AcceptedEvent {
    AcceptedEvent(e.eventId, e.journalSequence, e.streamSequence, 1, e.checksum, LocalAccepted)
  }

  lemma AcceptedAnswer(sha: Hash, t: Tables, site: Site, q: AcceptRequest, now: int, io: Store)
    requires Accept(sha, t, site, q, now, io).1.Accepted?
    ensures var e := NewEnvelope(sha, t, q, now);
      && Accept(sha, t, site, q, now, io).1.event == AnswerFor(e)
      && Accept(sha, t, site, q, now, io).0.envelopes == t.envelopes + [e]
      && e.eventId == q.eventId && e.requestFingerprint == q.fingerprint
  {
    hide NewEnvelope, GetStatus, Find, ProducerConflict, LifecycleChecksum, Newest, RequestStream, RequestProducer;
    NewEnvelopeFields(sha, t, q, now);
  }

  /** An accepted event is in the tables of every later point of the run. */
  lemma {:induction false} AcceptedStays(sha: Hash, ops: seq<Op>, i: nat)
    requires i < |ops| && ops[i].OpAccept? && Answer(sha, ops, i).accept.Accepted?
    ensures var e := Find(After(sha, ops).envelopes, ops[i].request.eventId);
      && e.Some? && e.value.requestFingerprint == ops[i].request.fingerprint
      && Answer(sha, ops, i).accept.event == AnswerFor(e.value)
  {
    hide After, Accept, NewEnvelope, Ordered, Find, AllIntact, Keyed, HeadsCount, ProducersRise, LogsBounded;
    var t := After(sha, ops[..i]);
    var r := ops[i];
    AcceptedAnswer(sha, t, r.site, r.request, r.now, r.io);
    AfterStep(sha, ops, i);
    EnvelopesOnlyGrow(sha, ops, i + 1);
    RunsAreConsistent(sha, ops);
    var k := |t.envelopes|;
    assert After(sha, ops).envelopes[k] == After(sha, ops[..i + 1]).envelopes[k];
    FindStored(After(sha, ops).envelopes, k);
  }

  /** A retry of an accepted event, at any later point of any run, gets the original sequences
      and checksum back, with the stored lifecycle revision and, unless it is REPLICATED, the stored
      status; the same id with another fingerprint is refused. */
  lemma {:induction false} RetryIsIdempotent(sha: Hash, ops: seq<Op>, i: nat, site: Site, q: AcceptRequest, now: int, io: Store)
    requires i < |ops| && ops[i].OpAccept? && Answer(sha, ops, i).accept.Accepted?
    requires q.eventId == ops[i].request.eventId
    requires !site.shutdown && site.diskSafe && |q.payload| <= site.maxPayload
    requires q.eventId != "" && q.installationId != "" && !io.ReadFails?
    ensures var ev := Answer(sha, ops, i).accept.event;
      var again := Accept(sha, After(sha, ops), site, q, now, io).1;
      if q.fingerprint == ops[i].request.fingerprint then
        && again.ExistingDuplicate?
        && q.eventId in After(sha, ops).lifecycles
        && var l := After(sha, ops).lifecycles[q.eventId];
           again.event == ev.(lifecycleRevision := l.revision, status := if l.status == Replicated then Blocked else l.status)
      else again == FingerprintConflict
  {
    hide After, LifecycleChecksum, EnvelopeChecksum, Ordered, Find, Refuse, Answer, Keyed, ProducersRise, LogsBounded, HeadsCount,
      ProducerOf;
    AcceptedStays(sha, ops, i);
    RunsAreConsistent(sha, ops);
    var t := After(sha, ops);
    var e := Find(t.envelopes, q.eventId).value;
    assert Intact(sha, t, e);
    NoLifecycleIsRetrying(sha, ops, q.eventId);
  }

  /** No lifecycle is ever RETRYING: a retry does not write it, and callers cannot name that status. */
  lemma {:induction false} NoLifecycleIsRetrying(sha: Hash, ops: seq<Op>, id: string)
    ensures id in After(sha, ops).lifecycles ==> After(sha, ops).lifecycles[id].status != Retrying
  {
    hide Apply, LifeHit;
    if ops != [] {
      var n := |ops| - 1;
      NoLifecycleIsRetrying(sha, ops[..n], id);
      RunsAreConsistent(sha, ops[..n]);
      LifecycleStatusStep(sha, After(sha, ops[..n]), ops[n], id);
    }
  }

  /** The status a duplicate is told is the stored one exactly when the event is not REPLICATED. */
  lemma {:induction false} DuplicateStatusExactlyWhen(sha: Hash, ops: seq<Op>, site: Site, q: AcceptRequest, now: int, io: Store)
    requires Accept(sha, After(sha, ops), site, q, now, io).1.ExistingDuplicate?
    ensures q.eventId in After(sha, ops).lifecycles
    ensures var told, l := Accept(sha, After(sha, ops), site, q, now, io).1.event, After(sha, ops).lifecycles[q.eventId];
      && told.lifecycleRevision == l.revision
      && (told.status == l.status <==> l.status != Replicated)
      && (l.status == Replicated ==> told.status == Blocked)
  {
    hide After, Refuse, GetStatus, PayloadIntact, NewEnvelope, Insert, Find, ProducerConflict;
    NoLifecycleIsRetrying(sha, ops, q.eventId);
  }

  /** An event id is accepted at most once. */
  lemma {:induction false} AcceptedOnce(sha: Hash, ops: seq<Op>, i: nat, j: nat)
    requires i < j < |ops| && ops[i].OpAccept? && ops[j].OpAccept?
    requires Answer(sha, ops, i).accept.Accepted? && Answer(sha, ops, j).accept.Accepted?
    ensures ops[i].request.eventId != ops[j].request.eventId
  {
    hide After, Accept, Find;
    var before := ops[..j];
    assert before[..i] == ops[..i];
    AcceptedStays(sha, before, i);
    var r := ops[j];
    AcceptedInserts(sha, After(sha, before), r.site, r.request, r.now, r.io);
  }

  /** Accepted operation sequences strictly increase for each producer instance. */
  lemma {:induction false} OperationSequencesRise(sha: Hash, ops: seq<Op>)
    ensures ProducersRise(After(sha, ops).envelopes)
  {
    hide After;
    RunsAreConsistent(sha, ops);
  }

  // ---------------------------------------------------------------------------------------
  // Effects of the compare-and-set operations
  // ---------------------------------------------------------------------------------------

  lemma ConfirmEffect(sha: Hash, t: Tables, id: string, x: int, c: Confirmation, now: int, io: Store)
    requires Confirm(sha, t, id, x, c, now, io).1 == Updated
    ensures id in t.deliveries && id in t.lifecycles
    ensures var row := t.deliveries[id];
      && WellFormedRow(row) && row.status != Replicated && row.revision == x && SameRoute(row, c)
      && Confirm(sha, t, id, x, c, now, io).0 == t.(
           deliveries := t.deliveries[id := Seal(sha, id, ConfirmedRow(row, c, now))],
           lifecycles := t.lifecycles[id := NextLifecycle(sha, id, t.lifecycles[id], Replicated, now)])
  {
    hide DeliveryChecksum, LifecycleChecksum, EnvelopeChecksum, Find, WellFormedRow, Seal, SameConfirmation;
  }

  lemma BlockEffect(sha: Hash, t: Tables, id: string, x: int, reason: string, now: int, io: Store)
    requires Block(sha, t, id, x, reason, now, io).1 == Updated
    ensures id in t.deliveries && id in t.lifecycles
    ensures var row := t.deliveries[id];
      && WellFormedRow(row) && row.status != Replicated && row.revision == x
      && Block(sha, t, id, x, reason, now, io).0 == t.(
           deliveries := t.deliveries[id := Seal(sha, id, BlockedRow(row, reason, now))],
           lifecycles := t.lifecycles[id := NextLifecycle(sha, id, t.lifecycles[id], Blocked, now)])
  {
    hide DeliveryChecksum, LifecycleChecksum, EnvelopeChecksum, Find, WellFormedRow, Seal;
  }

  lemma RetryEffect(sha: Hash, t: Tables, id: string, x: int, at: int, now: int, io: Store)
    requires Retry(sha, t, id, x, at, now, io).1 == Updated
    ensures id in t.deliveries
    ensures var row := t.deliveries[id];
      && WellFormedRow(row) && row.status != Replicated && row.revision == x
      && Retry(sha, t, id, x, at, now, io).0 == t.(deliveries := t.deliveries[id := Seal(sha, id, RetryingRow(row, at, now))])
  {
    hide DeliveryChecksum, WellFormedRow, Seal;
  }

  lemma RecordEffect(sha: Hash, t: Tables, id: string, a: DeliveryAttempt, now: int, io: Store)
    requires RecordAttempt(sha, t, id, a, now, io).1 == Updated
    ensures id in t.deliveries
    ensures WellFormedRow(t.deliveries[id])
    ensures RecordAttempt(sha, t, id, a, now, io).0 == t.(
      deliveries := t.deliveries[id := Seal(sha, id, AttemptedRow(t.deliveries[id], a.errorCode, now))],
      deliveryAttempts := t.deliveryAttempts[id := Newest(LogOf(t.deliveryAttempts, id) + [a])])
  {
    hide DeliveryChecksum, WellFormedRow, Seal, Newest;
  }

  lemma LifecycleEffect(sha: Hash, t: Tables, id: string, x: int, s: LocalStatus, now: int, io: Store)
    requires UpdateLifecycle(sha, t, id, x, s, now, io).1 == Updated
    ensures id in t.lifecycles && t.lifecycles[id].revision == x
    ensures UpdateLifecycle(sha, t, id, x, s, now, io).0 ==
      t.(lifecycles := t.lifecycles[id := NextLifecycle(sha, id, t.lifecycles[id], s, now)])
  {
    hide LifecycleChecksum, EnvelopeChecksum, Find;
  }

  // ---------------------------------------------------------------------------------------
  // Reload closure
  // ---------------------------------------------------------------------------------------

  /** The checksum covers neither itself nor `updated_at_ms`, so a sealed row verifies. */
  lemma {:induction false} SealVerifies(sha: Hash, t: Tables, id: string, r: DeliveryRow)
    requires id in t.deliveries && t.deliveries[id] == Seal(sha, id, r)
    ensures Load(sha, t, id).Present? <==> WellFormedRow(r)
  {
    var s := Seal(sha, id, r);
    assert DeliveryTexts(id, s) == DeliveryTexts(id, r);
    assert WellFormedRow(s) == WellFormedRow(r);
  }

  /** After a successful operation the loader accepts the row it left exactly when its
      arguments were well formed; a retry is accepted exactly when it did not start from BLOCKED. */
  lemma {:induction false} ReloadCreate(sha: Hash, t: Tables, id: string, f: Checksum, p: string, v: int, topic: string, now: int, io: Store)
    requires CreatePending(sha, t, id, f, p, v, topic, now, io).1 == Updated
    ensures Load(sha, CreatePending(sha, t, id, f, p, v, topic, now, io).0, id).Present? <==> topic != "" && p != "" && v > 0
  {
    hide DeliveryChecksum, Find, Load;
    SealVerifies(sha, CreatePending(sha, t, id, f, p, v, topic, now, io).0, id, PendingRow(f, p, v, topic, now));
  }

  lemma {:induction false} ReloadRecord(sha: Hash, t: Tables, id: string, a: DeliveryAttempt, now: int, io: Store)
    requires RecordAttempt(sha, t, id, a, now, io).1 == Updated
    ensures Load(sha, RecordAttempt(sha, t, id, a, now, io).0, id).Present?
  {
    hide DeliveryChecksum, Load, RecordAttempt;
    RecordEffect(sha, t, id, a, now, io);
    SealVerifies(sha, RecordAttempt(sha, t, id, a, now, io).0, id, AttemptedRow(t.deliveries[id], a.errorCode, now));
  }

  /** A BLOCKED row need not carry routing fields, yet a confirmation of it does match them. */
  lemma {:induction false} ReloadConfirm(sha: Hash, t: Tables, id: string, x: int, c: Confirmation, now: int, io: Store)
    requires Confirm(sha, t, id, x, c, now, io).1 == Updated
    ensures Load(sha, Confirm(sha, t, id, x, c, now, io).0, id).Present?
       <==> c.partition >= 0 && c.offset >= 0 && c.topic != "" && c.profileId != "" && c.profileVersion > 0
  {
    hide DeliveryChecksum, Load, Confirm, NextLifecycle;
    ConfirmEffect(sha, t, id, x, c, now, io);
    SealVerifies(sha, Confirm(sha, t, id, x, c, now, io).0, id, ConfirmedRow(t.deliveries[id], c, now));
  }

  lemma {:induction false} ReloadBlock(sha: Hash, t: Tables, id: string, x: int, reason: string, now: int, io: Store)
    requires Block(sha, t, id, x, reason, now, io).1 == Updated
    ensures Load(sha, Block(sha, t, id, x, reason, now, io).0, id).Present? <==> reason != ""
  {
    hide DeliveryChecksum, Load, Block, NextLifecycle;
    BlockEffect(sha, t, id, x, reason, now, io);
    SealVerifies(sha, Block(sha, t, id, x, reason, now, io).0, id, BlockedRow(t.deliveries[id], reason, now));
  }

  lemma {:induction false} ReloadRetry(sha: Hash, t: Tables, id: string, x: int, at: int, now: int, io: Store)
    requires Retry(sha, t, id, x, at, now, io).1 == Updated
    ensures Load(sha, Retry(sha, t, id, x, at, now, io).0, id).Present? <==> t.deliveries[id].status != Blocked
  {
    hide DeliveryChecksum, Load, Retry;
    RetryEffect(sha, t, id, x, at, now, io);
    SealVerifies(sha, Retry(sha, t, id, x, at, now, io).0, id, RetryingRow(t.deliveries[id], at, now));
  }

  // ---------------------------------------------------------------------------------------
  // Compare-and-set atomicity
  // ---------------------------------------------------------------------------------------

  predicate Updates(op: Op, answer: Outcome, id: string) {
    !op.OpAccept? && op.id == id && answer == OfCas(Updated)
  }

  /** A successful confirm, block or retry of an event. */
  predicate Hit(op: Op, answer: Outcome, id: string) {
    (op.OpConfirm? || op.OpBlock? || op.OpRetry?) && Updates(op, answer, id)
  }

  /** A successful confirm, block or lifecycle update of an event. */
  predicate LifeHit(op: Op, answer: Outcome, id: string) {
    (op.OpConfirm? || op.OpBlock? || op.OpLifecycle?) && Updates(op, answer, id)
  }

  function Hits(sha: Hash, ops: seq<Op>, id: string): nat {
    if ops == [] then 0
    else
      var n := |ops| - 1;
      Hits(sha, ops[..n], id) + if Hit(ops[n], Apply(sha, After(sha, ops[..n]), ops[n]).1, id) then 1 else 0
  }

  function LifeHits(sha: Hash, ops: seq<Op>, id: string): nat {
    if ops == [] then 0
    else
      var n := |ops| - 1;
      LifeHits(sha, ops[..n], id) + if LifeHit(ops[n], Apply(sha, After(sha, ops[..n]), ops[n]).1, id) then 1 else 0
  }

  /** A refused update leaves every table as it was. */
  lemma {:induction false} RefusalChangesNothing(sha: Hash, t: Tables, op: Op)
    requires !op.OpAccept? && Apply(sha, t, op).1 != OfCas(Updated)
    ensures Apply(sha, t, op).0 == t
  {
    hide UpdateLifecycle, CreatePending, RecordAttempt, Confirm, Block, Retry;
  }

  /** An operation changes a row only by succeeding on its event; only `create` adds one. */
  lemma RowStep(sha: Hash, t: Tables, op: Op, id: string)
    ensures var u := Apply(sha, t, op);
      && (id in t.deliveries ==> id in u.0.deliveries)
      && (id in t.deliveries && u.0.deliveries[id] != t.deliveries[id] ==> Updates(op, u.1, id))
      && (id !in t.deliveries && id in u.0.deliveries ==> op.OpCreate? && op.id == id && u.1 == OfCas(Updated))
  {
    hide Accept, UpdateLifecycle, CreatePending, RecordAttempt, Confirm, Block, Retry, Find;
    if op.OpAccept? {
      AcceptKeepsRows(sha, t, op.site, op.request, op.now, op.io);
    }
  }

  lemma NewRow(sha: Hash, t: Tables, op: Op, id: string)
    requires id !in t.deliveries && id in Apply(sha, t, op).0.deliveries
    ensures op.OpCreate? && op.id == id && Find(t.envelopes, id).Some?
    ensures Apply(sha, t, op).0.deliveries[id] == Seal(sha, id, PendingRow(op.fingerprint, op.profileId, op.profileVersion, op.topic, op.now))
  {
    hide Accept, UpdateLifecycle, CreatePending, RecordAttempt, Confirm, Block, Retry, Find, Seal, PendingRow;
    RowStep(sha, t, op, id);
    CreateEffect(sha, t, id, op.fingerprint, op.profileId, op.profileVersion, op.topic, op.now, op.io);
  }

  lemma HitNeedsRow(sha: Hash, t: Tables, op: Op, id: string)
    requires Hit(op, Apply(sha, t, op).1, id)
    ensures id in t.deliveries
  {
    hide DeliveryChecksum, WellFormedRow, GetStatus, SameRoute, SameConfirmation, Seal;
  }

  lemma AcceptKeepsRows(sha: Hash, t: Tables, site: Site, q: AcceptRequest, now: int, io: Store)
    ensures Accept(sha, t, site, q, now, io).0.deliveries == t.deliveries
    ensures Accept(sha, t, site, q, now, io).0.deliveryAttempts == t.deliveryAttempts
  {
    hide NewEnvelope, Find, LifecycleChecksum, ProducerConflict, Newest, AcceptKnown;
  }

  lemma CreateEffect(sha: Hash, t: Tables, id: string, f: Checksum, p: string, v: int, topic: string, now: int, io: Store)
    ensures var u := CreatePending(sha, t, id, f, p, v, topic, now, io);
      u.1 == Updated ==>
        && id !in t.deliveries && Find(t.envelopes, id).Some?
        && u.0 == t.(deliveries := t.deliveries[id := Seal(sha, id, PendingRow(f, p, v, topic, now))])
  {
    hide Find, DeliveryChecksum;
  }

  /** An update of a row either is a plain attempt record or consumes the revision it named. */
  lemma RowChange(sha: Hash, t: Tables, op: Op, id: string)
    requires Updates(op, Apply(sha, t, op).1, id) && id in t.deliveries && !op.OpLifecycle?
    ensures var before, after := t.deliveries[id], Apply(sha, t, op).0.deliveries[id];
      && id in Apply(sha, t, op).0.deliveries && WellFormedRow(before)
      && (op.OpRecord? ==> after == Seal(sha, id, AttemptedRow(before, op.attempt.errorCode, op.now)))
      && (op.OpConfirm? ==> before.status != Replicated && before.revision == op.expected && SameRoute(before, op.confirmation)
                            && after == Seal(sha, id, ConfirmedRow(before, op.confirmation, op.now)))
      && (op.OpBlock? ==> before.status != Replicated && before.revision == op.expected && after == Seal(sha, id, BlockedRow(before, op.reason, op.now)))
      && (op.OpRetry? ==> before.status != Replicated && before.revision == op.expected && after == Seal(sha, id, RetryingRow(before, op.nextRetryAtMs, op.now)))
      && !op.OpCreate?
  {
    hide Accept, UpdateLifecycle, CreatePending, RecordAttempt, Confirm, Block, Retry, Seal, NextLifecycle, Newest, SameRoute,
      WellFormedRow, Find, PendingRow, AttemptedRow, ConfirmedRow, BlockedRow, RetryingRow;
    match op
    case OpCreate(i, f, p, v, topic, now, io) => CreateEffect(sha, t, i, f, p, v, topic, now, io);
    case OpRecord(i, a, now, io) => RecordEffect(sha, t, i, a, now, io);
    case OpConfirm(i, x, c, now, io) => ConfirmEffect(sha, t, i, x, c, now, io);
    case OpBlock(i, x, reason, now, io) => BlockEffect(sha, t, i, x, reason, now, io);
    case OpRetry(i, x, at, now, io) => RetryEffect(sha, t, i, x, at, now, io);
  }

  lemma RevisionStep(sha: Hash, t: Tables, op: Op, id: string)
    ensures var u := Apply(sha, t, op);
      && (id in t.deliveries ==>
            && id in u.0.deliveries
            && u.0.deliveries[id].revision == t.deliveries[id].revision + if Hit(op, u.1, id) then 1 else 0)
      && (id !in t.deliveries ==> !Hit(op, u.1, id) && (id in u.0.deliveries ==> u.0.deliveries[id].revision == 1))
      && (Hit(op, u.1, id) ==> t.deliveries[id].revision == op.expected)
  {
    hide Apply, SameRoute, DeliveryChecksum;
    RowStep(sha, t, op, id);
    if Hit(op, Apply(sha, t, op).1, id) {
      HitNeedsRow(sha, t, op, id);
    }
    if id in t.deliveries && Updates(op, Apply(sha, t, op).1, id) {
      if op.OpLifecycle? {
        LifecycleKeepsRows(sha, t, op);
      } else {
        RowChange(sha, t, op, id);
      }
    }
    if id !in t.deliveries && id in Apply(sha, t, op).0.deliveries {
      NewRow(sha, t, op, id);
    }
  }

  lemma LifecycleKeepsRows(sha: Hash, t: Tables, op: Op)
    requires op.OpLifecycle?
    ensures Apply(sha, t, op).0.deliveries == t.deliveries
  {
    hide UpdateLifecycle;
  }

  /** `delivery_revision` is one plus the successful confirms, blocks and retries. */
  lemma {:induction false} RevisionCountsUpdates(sha: Hash, ops: seq<Op>, id: string)
    ensures var t := After(sha, ops);
      if id in t.deliveries then t.deliveries[id].revision == 1 + Hits(sha, ops, id) else Hits(sha, ops, id) == 0
  {
    hide Apply, Hit;
    if ops != [] {
      var n := |ops| - 1;
      RevisionCountsUpdates(sha, ops[..n], id);
      RevisionStep(sha, After(sha, ops[..n]), ops[n], id);
    }
  }

  lemma {:induction false} RevisionNeverFalls(sha: Hash, ops: seq<Op>, i: nat, id: string)
    requires i <= |ops| && id in After(sha, ops[..i]).deliveries
    ensures id in After(sha, ops).deliveries
    ensures After(sha, ops[..i]).deliveries[id].revision <= After(sha, ops).deliveries[id].revision
  {
    hide Apply, Hit;
    if i == |ops| {
      assert ops[..i] == ops;
    } else {
      var n := |ops| - 1;
      assert ops[..n][..i] == ops[..i];
      RevisionNeverFalls(sha, ops[..n], i, id);
      RevisionStep(sha, After(sha, ops[..n]), ops[n], id);
    }
  }

  /** Of all confirms, blocks and retries of an event naming one revision, at most one succeeds;
      successful ones name ever higher revisions. */
  lemma {:induction false} OneUpdatePerRevision(sha: Hash, ops: seq<Op>, i: nat, j: nat, id: string)
    requires i < j < |ops| && Hit(ops[i], Answer(sha, ops, i), id) && Hit(ops[j], Answer(sha, ops, j), id)
    ensures ops[i].expected < ops[j].expected
  {
    hide Apply, After;
    RevisionStep(sha, After(sha, ops[..i]), ops[i], id);
    RevisionStep(sha, After(sha, ops[..j]), ops[j], id);
    AfterStep(sha, ops, i);
    assert ops[..j][..i + 1] == ops[..i + 1];
    RevisionNeverFalls(sha, ops[..j], i + 1, id);
  }

  lemma LifecycleStep(sha: Hash, t: Tables, op: Op, id: string)
    requires AllIntact(sha, t)
    ensures var u := Apply(sha, t, op);
      && (Find(t.envelopes, id).Some? ==>
            && id in t.lifecycles && id in u.0.lifecycles && Find(u.0.envelopes, id).Some?
            && u.0.lifecycles[id].revision == t.lifecycles[id].revision + if LifeHit(op, u.1, id) then 1 else 0)
      && (Find(t.envelopes, id).None? ==>
            && !LifeHit(op, u.1, id)
            && (Find(u.0.envelopes, id).Some? ==> id in u.0.lifecycles && u.0.lifecycles[id].revision == 1))
  {
    hide Accept, UpdateLifecycle, CreatePending, RecordAttempt, Confirm, Block, Retry, Seal, Newest, SameRoute,
      WellFormedRow, Find, LifecycleChecksum, EnvelopeChecksum, ProducerOf;
    if Find(t.envelopes, id).Some? {
      assert Intact(sha, t, Find(t.envelopes, id).value);
    }
    match op
    case OpAccept(site, q, now, io) => AcceptLifecycles(sha, t, site, q, now, io, id);
    case OpCreate(i, f, p, v, topic, now, io) =>
    case OpRecord(i, a, now, io) =>
    case OpRetry(i, x, at, now, io) =>
    case OpLifecycle(i, x, s, now, io) =>
      if Apply(sha, t, op).1 == OfCas(Updated) { LifecycleEffect(sha, t, i, x, s, now, io); UpdatedIsStored(sha, t, op); }
    case OpConfirm(i, x, c, now, io) =>
      if Apply(sha, t, op).1 == OfCas(Updated) { ConfirmEffect(sha, t, i, x, c, now, io); UpdatedIsStored(sha, t, op); }
    case OpBlock(i, x, reason, now, io) =>
      if Apply(sha, t, op).1 == OfCas(Updated) { BlockEffect(sha, t, i, x, reason, now, io); UpdatedIsStored(sha, t, op); }
  }

  lemma UpdatedIsStored(sha: Hash, t: Tables, op: Op)
    requires op.OpLifecycle? || op.OpConfirm? || op.OpBlock?
    requires Apply(sha, t, op).1 == OfCas(Updated)
    ensures Find(t.envelopes, op.id).Some?
  {
    hide Find, Load, LifecycleChecksum, EnvelopeChecksum, SameRoute, SameConfirmation, Seal;
  }

  lemma AcceptLifecycles(sha: Hash, t: Tables, site: Site, q: AcceptRequest, now: int, io: Store, id: string)
    requires AllIntact(sha, t)
    ensures var u := Accept(sha, t, site, q, now, io).0;
      && (Find(t.envelopes, id).Some? ==> Find(u.envelopes, id).Some? && id in t.lifecycles && id in u.lifecycles && u.lifecycles[id] == t.lifecycles[id])
      && (Find(t.envelopes, id).None? && Find(u.envelopes, id).Some? ==>
            && id in u.lifecycles && u.lifecycles[id].revision == 1 && u.lifecycles[id].status == LocalAccepted)
  {
    hide Accept, NewEnvelope, LifecycleChecksum, EnvelopeChecksum, ProducerConflict, Newest, Find, LogOf, ProducerOf,
      RequestStream, RequestProducer;
    var r := Accept(sha, t, site, q, now, io);
    if Find(t.envelopes, id).Some? {
      assert Intact(sha, t, Find(t.envelopes, id).value);
    }
    if r.1.Accepted? {
      AcceptedInserts(sha, t, site, q, now, io);
      NewEnvelopeFields(sha, t, q, now);
      FindAppend(t.envelopes, NewEnvelope(sha, t, q, now), id);
    }
  }

  /** The lifecycle revision is one plus the successful confirms, blocks and lifecycle updates. */
  lemma {:induction false} LifecycleRevisionCountsUpdates(sha: Hash, ops: seq<Op>, id: string)
    ensures var t := After(sha, ops);
      if Find(t.envelopes, id).Some? then id in t.lifecycles && t.lifecycles[id].revision == 1 + LifeHits(sha, ops, id)
      else LifeHits(sha, ops, id) == 0
  {
    hide Apply, LifeHit, Find;
    if ops != [] {
      var n := |ops| - 1;
      LifecycleRevisionCountsUpdates(sha, ops[..n], id);
      RunsAreConsistent(sha, ops[..n]);
      LifecycleStep(sha, After(sha, ops[..n]), ops[n], id);
    }
  }

  // ---------------------------------------------------------------------------------------
  // REPLICATED is terminal
  // ---------------------------------------------------------------------------------------

  /** `validate_transition`. */
  predicate Permitted(from: Status, to: Status) {
    || (from == Pending && (to == Retrying || to == Replicated || to == Blocked))
    || (from == Retrying && (to == Replicated || to == Blocked))
    || (from == Blocked && to == Retrying)
  }

  /** Still REPLICATED, with the same delivery coordinates. */
  predicate SameReplica(a: DeliveryRow, b: DeliveryRow) {
    && a.status == Replicated && b.status == Replicated
    && b.kafkaTopic == a.kafkaTopic && b.kafkaPartition == a.kafkaPartition && b.kafkaOffset == a.kafkaOffset
    && b.routingFingerprint == a.routingFingerprint && b.profileId == a.profileId && b.profileVersion == a.profileVersion
    && b.confirmedAtMs == a.confirmedAtMs && b.revision == a.revision
  }

  lemma ReplicatedStep(sha: Hash, t: Tables, op: Op, id: string)
    requires id in t.deliveries && t.deliveries[id].status == Replicated
    ensures id in Apply(sha, t, op).0.deliveries && SameReplica(t.deliveries[id], Apply(sha, t, op).0.deliveries[id])
  {
    hide Apply, SameRoute, DeliveryChecksum;
    RowStep(sha, t, op, id);
    if Updates(op, Apply(sha, t, op).1, id) {
      if op.OpLifecycle? {
        LifecycleKeepsRows(sha, t, op);
      } else {
        RowChange(sha, t, op, id);
      }
    }
  }

  /** Once REPLICATED, an event stays REPLICATED at the same place in every continuation of the run. */
  lemma {:induction false} ReplicatedIsTerminal(sha: Hash, ops: seq<Op>, i: nat, id: string)
    requires i <= |ops| && id in After(sha, ops[..i]).deliveries && After(sha, ops[..i]).deliveries[id].status == Replicated
    ensures id in After(sha, ops).deliveries
    ensures SameReplica(After(sha, ops[..i]).deliveries[id], After(sha, ops).deliveries[id])
  {
    hide Apply;
    if i == |ops| {
      assert ops[..i] == ops;
    } else {
      var n := |ops| - 1;
      assert ops[..n][..i] == ops[..i];
      ReplicatedIsTerminal(sha, ops[..n], i, id);
      ReplicatedStep(sha, After(sha, ops[..n]), ops[n], id);
    }
  }

  /** A status change by the journal is one `validate_transition` permits unless it is a
      confirmation of a BLOCKED row, which the journal itself does not refuse. */
  lemma {:induction false} JournalTransitions(sha: Hash, t: Tables, op: Op, id: string)
    requires id in t.deliveries
    ensures id in Apply(sha, t, op).0.deliveries
    ensures var from, to := t.deliveries[id].status, Apply(sha, t, op).0.deliveries[id].status;
      from != to ==> (Permitted(from, to) <==> !(op.OpConfirm? && from == Blocked))
  {
    hide Apply, SameRoute, DeliveryChecksum;
    RowStep(sha, t, op, id);
    if Updates(op, Apply(sha, t, op).1, id) {
      if op.OpLifecycle? {
        LifecycleKeepsRows(sha, t, op);
      } else {
        RowChange(sha, t, op, id);
      }
    }
  }

  /** The journal does confirm a BLOCKED row, a change `validate_transition` forbids. */
  lemma {:induction false} BlockedIsConfirmed(sha: Hash, t: Tables, id: string, c: Confirmation, now: int)
    requires AllIntact(sha, t) && Keyed(t) && Load(sha, t, id).Present?
    requires t.deliveries[id].status == Blocked && SameRoute(t.deliveries[id], c)
    ensures var u := Apply(sha, t, OpConfirm(id, t.deliveries[id].revision, c, now, Healthy));
      && u.1 == OfCas(Updated) && id in u.0.deliveries && u.0.deliveries[id].status == Replicated
      && !Permitted(Blocked, Replicated)
  {
    hide Load, GetStatus, Find, AllIntact, DeliveryChecksum, NextLifecycle;
    StatusIsFound(sha, t, id);
  }

  /** A retry of a BLOCKED row succeeds and leaves a row the loader rejects from then on. */
  lemma {:induction false} RetryFromBlockedDamages(sha: Hash, t: Tables, id: string, at: int, now: int)
    requires Load(sha, t, id).Present? && t.deliveries[id].status == Blocked
    ensures var u := Retry(sha, t, id, t.deliveries[id].revision, at, now, Healthy);
      u.1 == Updated && Load(sha, u.0, id) == Damaged
  {
    hide DeliveryChecksum, Seal, WellFormedRow;
    ReloadRetry(sha, t, id, t.deliveries[id].revision, at, now, Healthy);
  }

  // ---------------------------------------------------------------------------------------
  // Lifecycle and delivery table agree
  // ---------------------------------------------------------------------------------------

  predicate ConfirmedAt(t: Tables, id: string) {
    && id in t.deliveries && t.deliveries[id].status == Replicated
    && t.deliveries[id].kafkaPartition.Some? && t.deliveries[id].kafkaOffset.Some? && t.deliveries[id].confirmedAtMs.Some?
  }

  predicate LifecycleReplicated(t: Tables, id: string) {
    id in t.lifecycles && t.lifecycles[id].status == Replicated
  }

  /** A REPLICATED row always carries its confirmation, and a REPLICATED lifecycle has such a row. */
  ghost predicate LifecycleBacked(t: Tables) {
    && (forall id :: id in t.deliveries && t.deliveries[id].status == Replicated ==> ConfirmedAt(t, id))
    && (forall id :: LifecycleReplicated(t, id) ==> ConfirmedAt(t, id))
  }

  ghost predicate RowsShown(t: Tables) {
    forall id :: ConfirmedAt(t, id) ==> LifecycleReplicated(t, id)
  }

  /** A healthy `update_lifecycle` of an event that is already REPLICATED, at its current revision. */
  predicate Overwrites(t: Tables, op: Op) {
    && op.OpLifecycle? && op.io.Healthy? && ConfirmedAt(t, op.id)
    && op.id in t.lifecycles && op.expected == t.lifecycles[op.id].revision
  }

  /** Exactly those lifecycle updates of a REPLICATED event succeed. */
  lemma {:induction false} OverwriteSucceedsExactlyWhen(sha: Hash, t: Tables, op: Op)
    requires AllIntact(sha, t) && Keyed(t) && op.OpLifecycle? && ConfirmedAt(t, op.id)
    ensures Apply(sha, t, op).1 == OfCas(Updated) <==> Overwrites(t, op)
  {
    hide GetStatus, LifecycleChecksum, Find, AllIntact;
    StatusIsFound(sha, t, op.id);
  }

  /** The lifecycle status an operation leaves. */
  lemma LifecycleStatusStep(sha: Hash, t: Tables, op: Op, id: string)
    requires AllIntact(sha, t) && Keyed(t)
    ensures var u := Apply(sha, t, op);
      if LifeHit(op, u.1, id) then
        && id in u.0.lifecycles
        && u.0.lifecycles[id].status == (if op.OpLifecycle? then op.local else if op.OpConfirm? then Replicated else Blocked)
      else if id in u.0.lifecycles && !(id in t.lifecycles && u.0.lifecycles[id] == t.lifecycles[id]) then
        u.0.lifecycles[id].status == LocalAccepted && id !in t.deliveries
      else id in t.lifecycles ==> id in u.0.lifecycles
  {
    hide Accept, UpdateLifecycle, CreatePending, RecordAttempt, Confirm, Block, Retry, Seal, Newest, SameRoute,
      WellFormedRow, Find, LifecycleChecksum, AllIntact, Keyed;
    match op
    case OpAccept(site, q, now, io) => AcceptLifecycleOf(sha, t, site, q, now, io, id);
    case OpCreate(i, f, p, v, topic, now, io) =>
    case OpRecord(i, a, now, io) =>
    case OpRetry(i, x, at, now, io) =>
    case OpLifecycle(i, x, s, now, io) => if Apply(sha, t, op).1 == OfCas(Updated) { LifecycleEffect(sha, t, i, x, s, now, io); }
    case OpConfirm(i, x, c, now, io) => if Apply(sha, t, op).1 == OfCas(Updated) { ConfirmEffect(sha, t, i, x, c, now, io); }
    case OpBlock(i, x, reason, now, io) => if Apply(sha, t, op).1 == OfCas(Updated) { BlockEffect(sha, t, i, x, reason, now, io); }
  }

  lemma AcceptLifecycleOf(sha: Hash, t: Tables, site: Site, q: AcceptRequest, now: int, io: Store, id: string)
    requires AllIntact(sha, t) && Keyed(t)
    ensures var u := Accept(sha, t, site, q, now, io).0;
      && (id in t.lifecycles ==> id in u.lifecycles)
      && (id in u.lifecycles && !(id in t.lifecycles && u.lifecycles[id] == t.lifecycles[id]) ==>
            u.lifecycles[id].status == LocalAccepted && id !in t.deliveries)
  {
    hide Accept, NewEnvelope, LifecycleChecksum, EnvelopeChecksum, ProducerConflict, Newest, Find, LogOf, ProducerOf,
      RequestStream, RequestProducer;
    var r := Accept(sha, t, site, q, now, io);
    if r.1.Accepted? {
      AcceptedInserts(sha, t, site, q, now, io);
    }
  }

  /** The delivery row an operation leaves, as far as confirmation is concerned. */
  lemma ConfirmedStep(sha: Hash, t: Tables, op: Op, id: string)
    requires id in t.deliveries && t.deliveries[id].status == Replicated ==> ConfirmedAt(t, id)
    ensures var u := Apply(sha, t, op);
      && (id in u.0.deliveries && u.0.deliveries[id].status == Replicated ==> ConfirmedAt(u.0, id))
      && (ConfirmedAt(u.0, id) <==> ConfirmedAt(t, id) || (op.OpConfirm? && Updates(op, u.1, id)))
      && (op.OpConfirm? && Updates(op, u.1, id) ==> !ConfirmedAt(t, id))
      && (op.OpBlock? && Updates(op, u.1, id) ==> !ConfirmedAt(t, id))
  {
    hide Apply, SameRoute, DeliveryChecksum;
    RowStep(sha, t, op, id);
    if Hit(op, Apply(sha, t, op).1, id) {
      HitNeedsRow(sha, t, op, id);
    }
    if id in t.deliveries && Updates(op, Apply(sha, t, op).1, id) {
      if op.OpLifecycle? {
        LifecycleKeepsRows(sha, t, op);
      } else {
        RowChange(sha, t, op, id);
      }
    }
    if id !in t.deliveries && id in Apply(sha, t, op).0.deliveries {
      NewRow(sha, t, op, id);
    }
  }

  /** An operation shows or hides a confirmed row in the lifecycle table only by overwriting it. */
  lemma ShownStep(sha: Hash, t: Tables, op: Op, id: string)
    requires LifecycleBacked(t) && AllIntact(sha, t) && Keyed(t)
    ensures var u := Apply(sha, t, op).0;
      && (LifecycleReplicated(u, id) ==> ConfirmedAt(u, id))
      && (ConfirmedAt(t, id) ==>
            && ConfirmedAt(u, id)
            && (LifecycleReplicated(u, id) <==> LifecycleReplicated(t, id) && !(Overwrites(t, op) && op.id == id)))
      && (!ConfirmedAt(t, id) && ConfirmedAt(u, id) ==> LifecycleReplicated(u, id))
  {
    hide Apply, ConfirmedAt, AllIntact, Keyed, Overwrites;
    ConfirmedStep(sha, t, op, id);
    LifecycleStatusStep(sha, t, op, id);
    ConfirmedHasRow(t, id);
    if op.OpLifecycle? && op.id == id && ConfirmedAt(t, id) {
      OverwriteSucceedsExactlyWhen(sha, t, op);
    }
    OverwriteIsUpdate(t, op);
  }

  lemma OverwriteIsUpdate(t: Tables, op: Op)
    ensures Overwrites(t, op) ==> op.OpLifecycle? && ConfirmedAt(t, op.id)
  {
  }

  lemma BackedStep(sha: Hash, t: Tables, op: Op)
    requires LifecycleBacked(t) && AllIntact(sha, t) && Keyed(t)
    ensures LifecycleBacked(Apply(sha, t, op).0)
    ensures RowsShown(Apply(sha, t, op).0) <==> RowsShown(t) && !Overwrites(t, op)
  {
    hide Apply, ConfirmedAt, LifecycleReplicated, AllIntact, Keyed, Overwrites;
    var u := Apply(sha, t, op).0;
    OverwriteIsUpdate(t, op);
    forall id
      ensures id in u.deliveries && u.deliveries[id].status == Replicated ==> ConfirmedAt(u, id)
      ensures LifecycleReplicated(u, id) ==> ConfirmedAt(u, id)
      ensures ConfirmedAt(t, id) ==>
        && ConfirmedAt(u, id)
        && (LifecycleReplicated(u, id) <==> LifecycleReplicated(t, id) && !(Overwrites(t, op) && op.id == id))
      ensures !ConfirmedAt(t, id) && ConfirmedAt(u, id) ==> LifecycleReplicated(u, id)
    {
      ConfirmedStep(sha, t, op, id);
      ShownStep(sha, t, op, id);
    }
    if Overwrites(t, op) {
      assert ConfirmedAt(u, op.id) && !LifecycleReplicated(u, op.id);
    }
  }

  lemma ConfirmedHasRow(t: Tables, id: string)
    ensures ConfirmedAt(t, id) ==> id in t.deliveries
  {
  }

  ghost predicate NeverOverwrites(sha: Hash, ops: seq<Op>) {
    forall i :: 0 <= i < |ops| ==> !Overwrites(After(sha, ops[..i]), ops[i])
  }

  lemma OverwritesSplit(sha: Hash, ops: seq<Op>)
    requires ops != []
    ensures var n := |ops| - 1;
      NeverOverwrites(sha, ops) <==> NeverOverwrites(sha, ops[..n]) && !Overwrites(After(sha, ops[..n]), ops[n])
  {
    hide After, Overwrites;
    var n := |ops| - 1;
    assert forall i :: 0 <= i < n ==> ops[..n][..i] == ops[..i];
  }

  /** In every run a REPLICATED lifecycle implies a confirmed REPLICATED row. The converse holds
      after a run exactly when no operation of it overwrote the lifecycle of a REPLICATED event. */
  lemma {:induction false} TablesAgree(sha: Hash, ops: seq<Op>)
    ensures LifecycleBacked(After(sha, ops))
    ensures RowsShown(After(sha, ops)) <==> NeverOverwrites(sha, ops)
  {
    hide Apply, Overwrites, RowsShown, LifecycleBacked, NeverOverwrites;
    if ops == [] {
      EmptyAgrees();
      NothingOverwrites(sha);
    } else {
      var n := |ops| - 1;
      TablesAgree(sha, ops[..n]);
      RunsAreConsistent(sha, ops[..n]);
      BackedStep(sha, After(sha, ops[..n]), ops[n]);
      OverwritesSplit(sha, ops);
    }
  }

  lemma NothingOverwrites(sha: Hash)
    ensures NeverOverwrites(sha, [])
  {
  }

  lemma EmptyAgrees()
    ensures LifecycleBacked(EMPTY) && RowsShown(EMPTY)
  {
  }

  /** The verified status read succeeds on every accepted event. */
  lemma StatusIsFound(sha: Hash, t: Tables, id: string)
    requires AllIntact(sha, t) && Find(t.envelopes, id).Some?
    ensures id in t.lifecycles && GetStatus(sha, t, id) == Found(Find(t.envelopes, id).value, t.lifecycles[id])
  {
    hide LifecycleChecksum, EnvelopeChecksum, Find, ProducerOf;
    assert Intact(sha, t, Find(t.envelopes, id).value);
  }

  /** The converse does fail: a lifecycle update may overwrite a REPLICATED lifecycle. */
  lemma {:induction false} OverwriteHidesReplica(sha: Hash, t: Tables, id: string, local: LocalStatus, now: int)
    requires AllIntact(sha, t) && Keyed(t) && ConfirmedAt(t, id)
    ensures id in t.lifecycles
    ensures var u := UpdateLifecycle(sha, t, id, t.lifecycles[id].revision, local, now, Healthy);
      u.1 == Updated && ConfirmedAt(u.0, id) && !LifecycleReplicated(u.0, id)
  {
    hide GetStatus, LifecycleChecksum, Find, AllIntact;
    StatusIsFound(sha, t, id);
  }
}
