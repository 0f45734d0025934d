/** When the journal's operations succeed, and what the tables show of a run's history. */
module HistoryTheorems {
  import opened Common
  import opened Records
  import opened Journal
  import opened JournalRuns
  import opened JournalTheorems
  import opened ReloadTheorems

  // ---------------------------------------------------------------------------------------
  // Success
  // ---------------------------------------------------------------------------------------

  /** The row verifies, is not REPLICATED and has the revision named. */
  predicate Current(sha: Hash, t: Tables, id: string, expected: int) {
    Load(sha, t, id).Present? && t.deliveries[id].status != Replicated && t.deliveries[id].revision == expected
  }

  /** What a caller can check before an update. */
  predicate Applicable(sha: Hash, t: Tables, op: Op) {
    match op
    case OpAccept(_, _, _, _) => false
    case OpLifecycle(id, x, _, _, io) => io.Healthy? && id in t.lifecycles && t.lifecycles[id].revision == x
    case OpCreate(id, _, _, _, _, _, io) => io.Healthy? && Find(t.envelopes, id).Some? && id !in t.deliveries
    case OpRecord(id, _, _, io) => io.Healthy? && Load(sha, t, id).Present?
    case OpConfirm(id, x, c, _, io) => io.Healthy? && Current(sha, t, id, x) && SameRoute(t.deliveries[id], c)
    case OpBlock(id, x, _, _, io) => io.Healthy? && Current(sha, t, id, x)
    case OpRetry(id, x, _, _, io) => io.Healthy? && Current(sha, t, id, x)
  }

  /** Lifecycles belong to accepted events. */
  ghost predicate LifecyclesStored(t: Tables) {
    forall id :: id in t.lifecycles ==> Find(t.envelopes, id).Some?
  }

  lemma ConfirmSucceedsExactlyWhen(sha: Hash, t: Tables, id: string, x: int, c: Confirmation, now: int, io: Store)
    requires AllIntact(sha, t) && Keyed(t)
    ensures Confirm(sha, t, id, x, c, now, io).1 == Updated <==> io.Healthy? && Current(sha, t, id, x) && SameRoute(t.deliveries[id], c)
  {
    hide Load, GetStatus, Find, AllIntact, SameRoute, Seal, NextLifecycle, SameConfirmation;
    if id in t.deliveries {
      StatusIsFound(sha, t, id);
    }
  }

  lemma BlockSucceedsExactlyWhen(sha: Hash, t: Tables, id: string, x: int, reason: string, now: int, io: Store)
    requires AllIntact(sha, t) && Keyed(t)
    ensures Block(sha, t, id, x, reason, now, io).1 == Updated <==> io.Healthy? && Current(sha, t, id, x)
  {
    hide Load, GetStatus, Find, AllIntact, Seal, NextLifecycle;
    if id in t.deliveries {
      StatusIsFound(sha, t, id);
    }
  }

  lemma RetrySucceedsExactlyWhen(sha: Hash, t: Tables, id: string, x: int, at: int, now: int, io: Store)
    ensures Retry(sha, t, id, x, at, now, io).1 == Updated <==> io.Healthy? && Current(sha, t, id, x)
  {
    hide Load, Seal;
  }

  lemma LifecycleSucceedsExactlyWhen(sha: Hash, t: Tables, id: string, x: int, s: LocalStatus, now: int, io: Store)
    requires AllIntact(sha, t) && LifecyclesStored(t)
    ensures UpdateLifecycle(sha, t, id, x, s, now, io).1 == Updated <==> io.Healthy? && id in t.lifecycles && t.lifecycles[id].revision == x
  {
    hide GetStatus, Find, AllIntact, NextLifecycle;
    if id in t.lifecycles {
      StatusIsFound(sha, t, id);
    }
  }

  /** An update succeeds exactly when it is applicable. */
  lemma {:induction false} SucceedsExactlyWhen(sha: Hash, t: Tables, op: Op)
    requires AllIntact(sha, t) && Keyed(t) && LifecyclesStored(t)
    ensures Succeeds(sha, t, op) <==> Applicable(sha, t, op)
  {
    hide Current, Find, AllIntact, Keyed, SameRoute, Seal, Newest, Accept, UpdateLifecycle, Confirm, Block, Retry, Load;
    match op
    case OpLifecycle(id, x, s, now, io) => LifecycleSucceedsExactlyWhen(sha, t, id, x, s, now, io);
    case OpConfirm(id, x, c, now, io) => ConfirmSucceedsExactlyWhen(sha, t, id, x, c, now, io);
    case OpBlock(id, x, reason, now, io) => BlockSucceedsExactlyWhen(sha, t, id, x, reason, now, io);
    case OpRetry(id, x, at, now, io) => RetrySucceedsExactlyWhen(sha, t, id, x, at, now, io);
    case _ =>
  }

  /** A confirmation is answered as already made exactly when the row is REPLICATED at those
      coordinates and the lifecycle shows it. */
  lemma {:induction false} AlreadyConfirmedExactlyWhen(sha: Hash, t: Tables, id: string, x: int, c: Confirmation, now: int, io: Store)
    requires AllIntact(sha, t) && Keyed(t)
    ensures Confirm(sha, t, id, x, c, now, io).1 == AlreadyConfirmed <==>
      (&& !io.ReadFails? && Load(sha, t, id).Present? && t.deliveries[id].status == Replicated
       && id in t.lifecycles && t.lifecycles[id].status == Replicated
       && SameRoute(t.deliveries[id], c) && t.deliveries[id].kafkaPartition == Some(c.partition)
       && t.deliveries[id].kafkaOffset == Some(c.offset))
  {
    hide Load, GetStatus, Find, AllIntact, SameRoute, Seal, NextLifecycle;
    if id in t.deliveries {
      StatusIsFound(sha, t, id);
    }
  }

  lemma LifecyclesStoredStep(sha: Hash, t: Tables, op: Op)
    requires Consistent(sha, t) && LifecyclesStored(t)
    ensures LifecyclesStored(Apply(sha, t, op).0)
  {
    hide Apply, Consistent, Find, AllIntact, Keyed, LifeHit;
    var u := Apply(sha, t, op).0;
    forall id | id in u.lifecycles ensures Find(u.envelopes, id).Some? {
      StoredStep(sha, t, op, id);
    }
  }

  lemma StoredStep(sha: Hash, t: Tables, op: Op, id: string)
    requires Consistent(sha, t) && (id in t.lifecycles ==> Find(t.envelopes, id).Some?)
    ensures id in Apply(sha, t, op).0.lifecycles ==> Find(Apply(sha, t, op).0.envelopes, id).Some?
  {
    hide Accept, UpdateLifecycle, CreatePending, RecordAttempt, Confirm, Block, Retry, Consistent, Find, NextLifecycle, Seal, SameRoute,
      WellFormedRow;
    match op
    case OpAccept(site, q, now, io) => AcceptStoresLifecycle(sha, t, site, q, now, io, id);
    case OpLifecycle(i, x, s, now, io) => if Succeeds(sha, t, op) { LifecycleEffect(sha, t, i, x, s, now, io); }
    case OpConfirm(i, x, c, now, io) => if Succeeds(sha, t, op) { ConfirmEffect(sha, t, i, x, c, now, io); }
    case OpBlock(i, x, reason, now, io) => if Succeeds(sha, t, op) { BlockEffect(sha, t, i, x, reason, now, io); }
    case _ =>
  }

  lemma AcceptStoresLifecycle(sha: Hash, t: Tables, site: Site, q: AcceptRequest, now: int, io: Store, id: string)
    requires id in t.lifecycles ==> Find(t.envelopes, id).Some?
    ensures var u := Accept(sha, t, site, q, now, io).0; id in u.lifecycles ==> Find(u.envelopes, id).Some?
  {
    hide Accept, NewEnvelope, LifecycleChecksum, Find, RequestStream, RequestProducer, Newest, LogOf;
    if Accept(sha, t, site, q, now, io).1.Accepted? {
      AcceptedInserts(sha, t, site, q, now, io);
      NewEnvelopeFields(sha, t, q, now);
      FindAppend(t.envelopes, NewEnvelope(sha, t, q, now), id);
    }
  }

  lemma {:induction false} RunsStoreLifecycles(sha: Hash, ops: seq<Op>)
    ensures LifecyclesStored(After(sha, ops))
  {
    hide Apply, Consistent;
    if ops != [] {
      var n := |ops| - 1;
      RunsStoreLifecycles(sha, ops[..n]);
      RunsAreConsistent(sha, ops[..n]);
      LifecyclesStoredStep(sha, After(sha, ops[..n]), ops[n]);
    }
  }

  /** At any point of any run, an update succeeds exactly when it is applicable. */
  lemma {:induction false} RunSucceedsExactlyWhen(sha: Hash, ops: seq<Op>, op: Op)
    ensures Succeeds(sha, After(sha, ops), op) <==> Applicable(sha, After(sha, ops), op)
  {
    hide After, Applicable, Apply, AllIntact, Keyed, LifecyclesStored, Ordered, HeadsCount, ProducersRise, LogsBounded;
    RunsAreConsistent(sha, ops);
    RunsStoreLifecycles(sha, ops);
    SucceedsExactlyWhen(sha, After(sha, ops), op);
  }

  // ---------------------------------------------------------------------------------------
  // Acceptance
  // ---------------------------------------------------------------------------------------

  /** The producer's latest operation is that of a stored event. */
  ghost predicate HeadsStored(t: Tables) {
    forall k :: k in t.producers ==> HeadStored(t, k)
  }

  ghost predicate HeadStored(t: Tables, k: string)
    requires k in t.producers
  {
    exists e :: e in t.envelopes && ProducerOf(e) == k && e.producerOpSeq == t.producers[k].highest
  }

  lemma HeadsStoredStep(sha: Hash, t: Tables, op: Op)
    requires HeadsStored(t)
    ensures HeadsStored(Apply(sha, t, op).0)
  {
    hide Accept, UpdateLifecycle, CreatePending, RecordAttempt, Confirm, Block, Retry, ProducerOf;
    ApplyGrows(sha, t, op);
    var u := Apply(sha, t, op).0;
    if op.OpAccept? && Accept(sha, t, op.site, op.request, op.now, op.io).1.Accepted? {
      InsertStoresHead(sha, t, op.site, op.request, op.now, op.io);
    } else {
      forall k | k in u.producers ensures HeadStored(u, k) {
        assert HeadStored(t, k);
      }
    }
  }

  lemma InsertStoresHead(sha: Hash, t: Tables, site: Site, q: AcceptRequest, now: int, io: Store)
    requires HeadsStored(t) && Accept(sha, t, site, q, now, io).1.Accepted?
    ensures HeadsStored(Accept(sha, t, site, q, now, io).0)
  {
    hide Accept, NewEnvelope, LifecycleChecksum, Find, RequestStream, RequestProducer, Newest, LogOf, ProducerOf;
    AcceptedInserts(sha, t, site, q, now, io);
    NewEnvelopeFields(sha, t, q, now);
    var u := Insert(sha, t, q, now);
    var e := NewEnvelope(sha, t, q, now);
    assert u.envelopes == t.envelopes + [e];
    forall k | k in u.producers ensures HeadStored(u, k) {
      if k == RequestProducer(q) {
        assert e in u.envelopes;
      } else {
        assert HeadStored(t, k);
        var x :| x in t.envelopes && ProducerOf(x) == k && x.producerOpSeq == t.producers[k].highest;
        assert x in u.envelopes;
      }
    }
  }

  lemma {:induction false} RunsStoreHeads(sha: Hash, ops: seq<Op>)
    ensures HeadsStored(After(sha, ops))
  {
    hide Apply, HeadStored;
    if ops != [] {
      RunsStoreHeads(sha, ops[..|ops| - 1]);
      HeadsStoredStep(sha, After(sha, ops[..|ops| - 1]), ops[|ops| - 1]);
    }
  }

  /** An accepted operation of the same producer is as late as the request's. */
  ghost predicate ProducerIsPast(envelopes: seq<Envelope>, q: AcceptRequest) {
    exists e :: e in envelopes && ProducerOf(e) == RequestProducer(q) && e.producerOpSeq >= q.producerOpSeq
  }

  /** The request reaches the tables. */
  predicate Admitted(site: Site, q: AcceptRequest, io: Store) {
    !site.shutdown && site.diskSafe && |q.payload| <= site.maxPayload && q.eventId != "" && q.installationId != "" && !io.ReadFails?
  }

  lemma ProducerIsSeen(sha: Hash, t: Tables, e: Envelope)
    requires AllIntact(sha, t) && e in t.envelopes
    ensures ProducerOf(e) in t.producers && e.producerOpSeq <= t.producers[ProducerOf(e)].highest
  {
    hide EnvelopeChecksum, LifecycleChecksum, ProducerOf;
    assert Intact(sha, t, e);
  }

  lemma NewIdIsUnknown(t: Tables, q: AcceptRequest)
    requires Keyed(t) && Find(t.envelopes, q.eventId).None?
    ensures q.eventId !in t.dedup && forall k :: k in t.producers ==> t.producers[k].lastEventId != q.eventId
  {
    hide Find;
  }

  lemma HeadEvent(t: Tables, k: string) returns (e: Envelope)
    requires HeadsStored(t) && k in t.producers
    ensures e in t.envelopes && ProducerOf(e) == k && e.producerOpSeq == t.producers[k].highest
  {
    hide ProducerOf;
    assert HeadStored(t, k);
    e :| e in t.envelopes && ProducerOf(e) == k && e.producerOpSeq == t.producers[k].highest;
  }

  lemma ConflictExactlyWhen(sha: Hash, t: Tables, q: AcceptRequest)
    requires AllIntact(sha, t) && Keyed(t) && HeadsStored(t) && Find(t.envelopes, q.eventId).None?
    ensures q.eventId !in t.dedup && (ProducerConflict(t, q) <==> ProducerIsPast(t.envelopes, q))
  {
    hide Find, ProducerOf, RequestProducer, AllIntact, Keyed, HeadsStored;
    var key := RequestProducer(q);
    NewIdIsUnknown(t, q);
    if ProducerIsPast(t.envelopes, q) {
      var e :| e in t.envelopes && ProducerOf(e) == key && e.producerOpSeq >= q.producerOpSeq;
      ProducerIsSeen(sha, t, e);
    }
    if ProducerConflict(t, q) {
      var e := HeadEvent(t, key);
    }
  }

  lemma KnownAnswers(sha: Hash, t: Tables, q: AcceptRequest, now: int, io: Store)
    requires AllIntact(sha, t) && Keyed(t) && q.eventId in t.dedup
    ensures AcceptKnown(sha, t, q, now, io).1.ExistingDuplicate? <==> t.dedup[q.eventId] == q.fingerprint
    ensures AcceptKnown(sha, t, q, now, io).1.FingerprintConflict? <==> t.dedup[q.eventId] != q.fingerprint
    ensures !AcceptKnown(sha, t, q, now, io).1.SequenceConflict?
  {
    hide Find, GetStatus, Refuse, AllIntact, PayloadIntact;
    StatusIsFound(sha, t, q.eventId);
    PayloadIsIntact(sha, t, Find(t.envelopes, q.eventId).value);
  }

  lemma PayloadIsIntact(sha: Hash, t: Tables, e: Envelope)
    requires AllIntact(sha, t) && e in t.envelopes
    ensures PayloadIntact(sha, t, e.eventId)
  {
    hide EnvelopeChecksum, LifecycleChecksum, ProducerOf;
    assert Intact(sha, t, e);
  }

  lemma NewAnswers(sha: Hash, t: Tables, q: AcceptRequest, now: int, io: Store)
    requires Find(t.envelopes, q.eventId).None?
    ensures var r := AcceptNew(sha, t, q, now, io).1;
      && (r.Accepted? <==> !io.WriteFails? && !ProducerConflict(t, q)) && (r.SequenceConflict? <==> ProducerConflict(t, q))
      && !r.ExistingDuplicate? && !r.FingerprintConflict?
  {
    hide Find, ProducerConflict, NewEnvelope, Insert, Refuse;
  }

  lemma AnswersFromTables(sha: Hash, t: Tables, site: Site, q: AcceptRequest, now: int, io: Store)
    requires AllIntact(sha, t) && Keyed(t)
    ensures var r := Accept(sha, t, site, q, now, io).1;
      && (Find(t.envelopes, q.eventId).Some? <==> q.eventId in t.dedup)
      && (r.Accepted? <==> Admitted(site, q, io) && io.Healthy? && Find(t.envelopes, q.eventId).None? && !ProducerConflict(t, q))
      && (r.SequenceConflict? <==> Admitted(site, q, io) && Find(t.envelopes, q.eventId).None? && ProducerConflict(t, q))
      && (r.ExistingDuplicate? <==>
            Admitted(site, q, io) && q.eventId in t.dedup && t.dedup[q.eventId] == q.fingerprint)
      && (r.FingerprintConflict? <==>
            Admitted(site, q, io) && q.eventId in t.dedup && t.dedup[q.eventId] != q.fingerprint)
  {
    hide Find, ProducerConflict, AcceptKnown, AcceptNew, AllIntact, Keyed;
    var known := Find(t.envelopes, q.eventId);
    if known.Some? {
      FingerprintIsStored(sha, t, known.value);
      KnownAnswers(sha, t, q, now, io);
    } else {
      NewIdIsUnknown(t, q);
      NewAnswers(sha, t, q, now, io);
    }
  }

  /** At any point of any run the answer to a request is decided by the accepted events: a new id is
      accepted exactly when the store is healthy and its producer is not past it, and a known one is a
      duplicate or a conflict by its fingerprint. */
  lemma {:induction false} AcceptedExactlyWhen(sha: Hash, ops: seq<Op>, site: Site, q: AcceptRequest, now: int, io: Store)
    ensures var stored := After(sha, ops).envelopes;
      var known := Find(stored, q.eventId);
      var r := Accept(sha, After(sha, ops), site, q, now, io).1;
      && (r.Accepted? <==> Admitted(site, q, io) && io.Healthy? && known.None? && !ProducerIsPast(stored, q))
      && (r.SequenceConflict? <==> Admitted(site, q, io) && known.None? && ProducerIsPast(stored, q))
      && (r.ExistingDuplicate? <==> Admitted(site, q, io) && known.Some? && known.value.requestFingerprint == q.fingerprint)
      && (r.FingerprintConflict? <==> Admitted(site, q, io) && known.Some? && known.value.requestFingerprint != q.fingerprint)
  {
    hide After, Accept, Find, AllIntact, Keyed, HeadsStored, ProducerConflict, ProducerIsPast, Admitted, Ordered, HeadsCount, ProducersRise,
      LogsBounded;
    var t := After(sha, ops);
    RunsAreConsistent(sha, ops);
    RunsStoreHeads(sha, ops);
    AnswersFromTables(sha, t, site, q, now, io);
    if Find(t.envelopes, q.eventId).None? {
      ConflictExactlyWhen(sha, t, q);
    } else {
      FingerprintIsStored(sha, t, Find(t.envelopes, q.eventId).value);
    }
  }

  lemma FingerprintIsStored(sha: Hash, t: Tables, e: Envelope)
    requires AllIntact(sha, t) && e in t.envelopes
    ensures e.eventId in t.dedup && t.dedup[e.eventId] == e.requestFingerprint
  {
    hide EnvelopeChecksum, LifecycleChecksum, ProducerOf;
    assert Intact(sha, t, e);
  }

  /** Every column of the envelope that comes from the request. */
  predicate Carries(e: Envelope, q: AcceptRequest, now: int) {
    && e.eventId == q.eventId && e.installationId == q.installationId
    && e.producerId == q.producerId && e.producerInstanceId == q.producerInstanceId && e.producerOpSeq == q.producerOpSeq
    && e.ns == q.ns && e.streamType == q.streamType && e.streamKey == q.streamKey && e.eventType == q.eventType
    && e.schemaVersion == q.schemaVersion && e.routingVersion == q.routingVersion
    && e.requestFingerprint == q.fingerprint && e.payloadLength == |q.payload|
    && e.payloadRefId == q.installationId + "/" + q.eventId && e.receivedAtMs == now
  }

  lemma NewEnvelopeCarries(sha: Hash, t: Tables, q: AcceptRequest, now: int)
    ensures Carries(NewEnvelope(sha, t, q, now), q, now)
  {
    hide EnvelopeChecksum, MaxSequence, RequestStream;
  }

  lemma PayloadStep(sha: Hash, t: Tables, op: Op, id: string)
    requires Find(t.envelopes, id).Some? && id in t.payloads
    ensures id in Apply(sha, t, op).0.payloads && Apply(sha, t, op).0.payloads[id] == t.payloads[id]
  {
    hide Accept, UpdateLifecycle, CreatePending, RecordAttempt, Confirm, Block, Retry, Find, NewEnvelope, LifecycleChecksum, RequestStream,
      RequestProducer, Newest, LogOf;
    if op.OpAccept? && Accept(sha, t, op.site, op.request, op.now, op.io).1.Accepted? {
      AcceptedInserts(sha, t, op.site, op.request, op.now, op.io);
    }
  }

  lemma {:induction false} PayloadStays(sha: Hash, ops: seq<Op>, i: nat, id: string)
    requires i <= |ops| && Find(After(sha, ops[..i]).envelopes, id).Some? && id in After(sha, ops[..i]).payloads
    ensures id in After(sha, ops).payloads && After(sha, ops).payloads[id] == After(sha, ops[..i]).payloads[id]
    ensures Find(After(sha, ops).envelopes, id).Some?
  {
    hide Apply, Find;
    if i == |ops| {
      assert ops[..i] == ops;
    } else {
      var n := |ops| - 1;
      assert ops[..n][..i] == ops[..i];
      PayloadStays(sha, ops[..n], i, id);
      PayloadStep(sha, After(sha, ops[..n]), ops[n], id);
      ApplyGrows(sha, After(sha, ops[..n]), ops[n]);
    }
  }

  /** From acceptance on, at every later point of the run, the stored envelope carries every field of
      the request and its payload reads back. */
  lemma {:induction false} RequestStays(sha: Hash, ops: seq<Op>, i: nat)
    requires i < |ops| && ops[i].OpAccept? && Answer(sha, ops, i).accept.Accepted?
    ensures var q, e := ops[i].request, Find(After(sha, ops).envelopes, ops[i].request.eventId);
      && e.Some? && Carries(e.value, q, ops[i].now) && e.value.payloadDigest == sha(q.payload)
      && ReadPayload(sha, After(sha, ops), q.eventId) == Some(q.payload)
  {
    hide After, Accept, NewEnvelope, Carries, Ordered, Find, AllIntact, Keyed, HeadsCount, ProducersRise, LogsBounded;
    var t := After(sha, ops[..i]);
    var r := ops[i];
    var q := r.request;
    AcceptedAnswer(sha, t, r.site, q, r.now, r.io);
    AcceptedInserts(sha, t, r.site, q, r.now, r.io);
    NewEnvelopeCarries(sha, t, q, r.now);
    NewEnvelopeFields(sha, t, q, r.now);
    AfterStep(sha, ops, i);
    EnvelopesOnlyGrow(sha, ops, i + 1);
    RunsAreConsistent(sha, ops);
    var k := |t.envelopes|;
    assert After(sha, ops).envelopes[k] == After(sha, ops[..i + 1]).envelopes[k];
    FindStored(After(sha, ops).envelopes, k);
    InsertedPayload(sha, t, q, r.now);
    PayloadStays(sha, ops, i + 1, q.eventId);
  }

  lemma InsertedPayload(sha: Hash, t: Tables, q: AcceptRequest, now: int)
    ensures var u := Insert(sha, t, q, now);
      && q.eventId in u.payloads && u.payloads[q.eventId] == Payload(q.payload, sha(q.payload))
      && Find(u.envelopes, q.eventId).Some?
  {
    hide LifecycleChecksum, RequestStream, RequestProducer, Newest, LogOf, NewEnvelope, Find;
    NewEnvelopeFields(sha, t, q, now);
    FindAppend(t.envelopes, NewEnvelope(sha, t, q, now), q.eventId);
  }

  // ---------------------------------------------------------------------------------------
  // What a delivery row shows
  // ---------------------------------------------------------------------------------------

  /** A success that writes the event's delivery row. */
  predicate WritesRow(sha: Hash, t: Tables, op: Op, id: string) {
    !op.OpAccept? && !op.OpLifecycle? && op.id == id && Succeeds(sha, t, op)
  }

  function LastWrite(sha: Hash, ops: seq<Op>, id: string): Option<Op> {
    if ops == [] then None
    else
      var n := |ops| - 1;
      if WritesRow(sha, After(sha, ops[..n]), ops[n], id) then Some(ops[n]) else LastWrite(sha, ops[..n], id)
  }

  /** The success that created the row. */
  function Creation(sha: Hash, ops: seq<Op>, id: string): Option<Op> {
    if ops == [] then None
    else
      var n := |ops| - 1;
      if ops[n].OpCreate? && WritesRow(sha, After(sha, ops[..n]), ops[n], id) then Some(ops[n]) else Creation(sha, ops[..n], id)
  }

  /** The error of the last attempt recorded since the row was created or confirmed. */
  function ErrorShown(sha: Hash, ops: seq<Op>, id: string): Option<string> {
    if ops == [] then None
    else
      var n := |ops| - 1;
      var before := ErrorShown(sha, ops[..n], id);
      if !WritesRow(sha, After(sha, ops[..n]), ops[n], id) then before
      else if ops[n].OpRecord? then ops[n].attempt.errorCode
      else if ops[n].OpConfirm? then None
      else before
  }

  /** The row shows the operation that wrote it last. */
  predicate ShowsWrite(row: DeliveryRow, op: Op) {
    match op
    case OpCreate(_, _, _, _, _, now, _) => row.status == Pending && row.attemptCount == 0 && row.revision == 1 && row.updatedAtMs == now
    case OpRecord(_, a, now, _) => row.lastError == a.errorCode && row.updatedAtMs == now
    case OpConfirm(_, _, c, now, _) =>
      && row.status == Replicated && row.kafkaPartition == Some(c.partition) && row.kafkaOffset == Some(c.offset)
      && row.kafkaTopic == Some(c.topic) && row.confirmedAtMs == Some(now) && row.updatedAtMs == now
    case OpBlock(_, _, reason, now, _) => row.status == Blocked && row.blockedReason == Some(reason) && row.updatedAtMs == now
    case OpRetry(_, _, at, now, _) => row.status == Retrying && row.nextRetryAtMs == Some(at) && row.updatedAtMs == now
    case _ => false
  }

  /** The row has the route and the age it was created with. */
  predicate ShowsCreation(row: DeliveryRow, op: Op) {
    && op.OpCreate? && row.kafkaTopic == Some(op.topic) && row.routingFingerprint == Some(op.fingerprint)
    && row.profileId == Some(op.profileId) && row.profileVersion == Some(op.profileVersion) && row.createdAtMs == op.now
  }

  lemma WrittenRow(sha: Hash, t: Tables, op: Op, id: string)
    requires WritesRow(sha, t, op, id)
    ensures var u := Apply(sha, t, op).0;
      && id in u.deliveries && ShowsWrite(u.deliveries[id], op)
      && (if op.OpCreate? then id !in t.deliveries && ShowsCreation(u.deliveries[id], op) && u.deliveries[id].lastError == None
          else
            && id in t.deliveries
            && (forall o :: ShowsCreation(t.deliveries[id], o) ==> ShowsCreation(u.deliveries[id], o))
            && u.deliveries[id].lastError ==
               if op.OpRecord? then op.attempt.errorCode else if op.OpConfirm? then None else t.deliveries[id].lastError)
  {
    hide CreatePending, RecordAttempt, Confirm, Block, Retry, DeliveryChecksum, Find, Newest, NextLifecycle, WellFormedRow;
    match op
    case OpCreate(i, f, p, v, topic, now, io) => CreateEffect(sha, t, i, f, p, v, topic, now, io);
    case OpRecord(i, a, now, io) => RecordEffect(sha, t, i, a, now, io);
    case OpConfirm(i, x, c, now, io) => ConfirmEffect(sha, t, i, x, c, now, io);
    case OpBlock(i, x, reason, now, io) => BlockEffect(sha, t, i, x, reason, now, io);
    case OpRetry(i, x, at, now, io) => RetryEffect(sha, t, i, x, at, now, io);
  }

  lemma UnwrittenRow(sha: Hash, t: Tables, op: Op, id: string)
    requires !WritesRow(sha, t, op, id)
    ensures var u := Apply(sha, t, op).0;
      (id in t.deliveries <==> id in u.deliveries) && (id in t.deliveries ==> u.deliveries[id] == t.deliveries[id])
  {
    hide Apply;
    RowStep(sha, t, op, id);
    if op.OpLifecycle? {
      LifecycleKeepsRows(sha, t, op);
    }
  }

  /** After any run an event has a delivery row exactly when one was created, and the row shows its
      creation, its last write and the last error recorded. */
  lemma {:induction false} RowShowsHistory(sha: Hash, ops: seq<Op>, id: string)
    ensures var t, last, creation := After(sha, ops), LastWrite(sha, ops, id), Creation(sha, ops, id);
      && (id in t.deliveries <==> last.Some?) && (last.Some? <==> creation.Some?)
      && (last.Some? ==>
            && ShowsWrite(t.deliveries[id], last.value) && ShowsCreation(t.deliveries[id], creation.value)
            && t.deliveries[id].lastError == ErrorShown(sha, ops, id))
      && (last.None? ==> ErrorShown(sha, ops, id) == None)
  {
    hide Apply, ShowsWrite, ShowsCreation;
    if ops != [] {
      var n := |ops| - 1;
      RowShowsHistory(sha, ops[..n], id);
      if WritesRow(sha, After(sha, ops[..n]), ops[n], id) {
        WrittenRow(sha, After(sha, ops[..n]), ops[n], id);
      } else {
        UnwrittenRow(sha, After(sha, ops[..n]), ops[n], id);
      }
    }
  }

  // ---------------------------------------------------------------------------------------
  // What the lifecycle and the write log show
  // ---------------------------------------------------------------------------------------

  function LastLife(sha: Hash, ops: seq<Op>, id: string): Option<Op> {
    if ops == [] then None
    else
      var n := |ops| - 1;
      if LifeHit(ops[n], Apply(sha, After(sha, ops[..n]), ops[n]).1, id) then Some(ops[n]) else LastLife(sha, ops[..n], id)
  }

  /** After any run the lifecycle of an accepted event has the status its last update gave it, and
      LOCAL_ACCEPTED before the first. */
  lemma {:induction false} LifecycleShowsHistory(sha: Hash, ops: seq<Op>, id: string)
    ensures var t, last := After(sha, ops), LastLife(sha, ops, id);
      && (last.Some? ==> id in t.lifecycles && (last.value.OpLifecycle? || last.value.OpConfirm? || last.value.OpBlock?))
      && (id in t.lifecycles ==>
            t.lifecycles[id].status == (if last.None? then LocalAccepted
                                        else if last.value.OpLifecycle? then last.value.local
                                        else if last.value.OpConfirm? then Replicated else Blocked))
  {
    hide Apply;
    if ops != [] {
      var n := |ops| - 1;
      LifecycleShowsHistory(sha, ops[..n], id);
      RunsAreConsistent(sha, ops[..n]);
      RunsStoreLifecycles(sha, ops[..n]);
      LifecycleStatusStep(sha, After(sha, ops[..n]), ops[n], id);
      KnownKeepsLifecycle(sha, After(sha, ops[..n]), ops[n], id);
    }
  }

  /** Only updates touch the lifecycle of an accepted event. */
  lemma KnownKeepsLifecycle(sha: Hash, t: Tables, op: Op, id: string)
    requires Consistent(sha, t) && LifecyclesStored(t)
    ensures id in t.lifecycles && !LifeHit(op, Apply(sha, t, op).1, id) ==>
      id in Apply(sha, t, op).0.lifecycles && Apply(sha, t, op).0.lifecycles[id] == t.lifecycles[id]
  {
    hide Accept, UpdateLifecycle, CreatePending, RecordAttempt, Confirm, Block, Retry, Consistent, Find, NextLifecycle, Seal, SameRoute,
      WellFormedRow;
    match op
    case OpAccept(site, q, now, io) =>
      if id in t.lifecycles {
        IntactOf(sha, t);
        AcceptLifecycles(sha, t, site, q, now, io, id);
      }
    case OpLifecycle(i, x, s, now, io) => if Succeeds(sha, t, op) { LifecycleEffect(sha, t, i, x, s, now, io); }
    case OpConfirm(i, x, c, now, io) => if Succeeds(sha, t, op) { ConfirmEffect(sha, t, i, x, c, now, io); }
    case OpBlock(i, x, reason, now, io) => if Succeeds(sha, t, op) { BlockEffect(sha, t, i, x, reason, now, io); }
    case _ =>
  }

  lemma IntactOf(sha: Hash, t: Tables)
    requires Consistent(sha, t)
    ensures AllIntact(sha, t)
  {
    hide AllIntact;
  }

  /** What an answered request leaves in the write log. */
  function NoteOf(r: AcceptResult, io: Store): Option<WriteOutcome> {
    if r.Accepted? then Some(NewlyAccepted)
    else if io.WriteFails? then None
    else if r.ExistingDuplicate? then Some(DuplicateSeen)
    else if r.FingerprintConflict? then Some(FingerprintRefused)
    else if r.SequenceConflict? then Some(SequenceRefused)
    else None
  }

  function Noted(sha: Hash, ops: seq<Op>, id: string): seq<WriteAttempt> {
    if ops == [] then []
    else
      var n := |ops| - 1;
      var before := Noted(sha, ops[..n], id);
      if !ops[n].OpAccept? || ops[n].request.eventId != id then before
      else
        var note := NoteOf(Apply(sha, After(sha, ops[..n]), ops[n]).1.accept, ops[n].io);
        if note.None? then before else before + [WriteAttempt(note.value, ops[n].now)]
  }

  /** The log of an event after one answered request. */
  predicate NotedBy(t: Tables, r: (Tables, AcceptResult), q: AcceptRequest, now: int, io: Store, id: string) {
    var note := NoteOf(r.1, io);
    LogOf(r.0.writeAttempts, id) ==
      if q.eventId == id && note.Some? then Newest(LogOf(t.writeAttempts, id) + [WriteAttempt(note.value, now)])
      else LogOf(t.writeAttempts, id)
  }

  lemma NotesOne(t: Tables, u: Tables, r: AcceptResult, q: AcceptRequest, outcome: WriteOutcome, now: int, io: Store, id: string)
    requires NoteOf(r, io) == Some(outcome) && u.writeAttempts == t.writeAttempts
    ensures NotedBy(t, (Note(u, q.eventId, outcome, now), r), q, now, io, id)
  {
    hide NoteOf, Newest;
  }

  lemma NotesNone(t: Tables, r: AcceptResult, q: AcceptRequest, now: int, io: Store, id: string)
    requires NoteOf(r, io) == None
    ensures NotedBy(t, (t, r), q, now, io, id)
  {
    hide NoteOf, Newest;
  }

  lemma KnownNotes(sha: Hash, t: Tables, q: AcceptRequest, now: int, io: Store, id: string)
    requires q.eventId in t.dedup
    ensures NotedBy(t, AcceptKnown(sha, t, q, now, io), q, now, io, id)
  {
    hide GetStatus, PayloadIntact, Note, NotedBy;
    var r := AcceptKnown(sha, t, q, now, io);
    if NoteOf(r.1, io).None? {
      NotesNone(t, r.1, q, now, io, id);
    } else {
      NotesOne(t, t, r.1, q, NoteOf(r.1, io).value, now, io, id);
    }
  }

  lemma NewNotes(sha: Hash, t: Tables, q: AcceptRequest, now: int, io: Store, id: string)
    ensures NotedBy(t, AcceptNew(sha, t, q, now, io), q, now, io, id)
  {
    hide NewEnvelope, LifecycleChecksum, Find, ProducerConflict, RequestStream, RequestProducer, Note, NotedBy;
    var r := AcceptNew(sha, t, q, now, io);
    if r.1.Accepted? {
      InsertNotes(sha, t, q, now, r.1, io, id);
    } else if NoteOf(r.1, io).None? {
      NotesNone(t, r.1, q, now, io, id);
    } else {
      NotesOne(t, t, r.1, q, NoteOf(r.1, io).value, now, io, id);
    }
  }

  lemma InsertNotes(sha: Hash, t: Tables, q: AcceptRequest, now: int, r: AcceptResult, io: Store, id: string)
    requires r.Accepted?
    ensures NotedBy(t, (Insert(sha, t, q, now), r), q, now, io, id)
  {
    hide NewEnvelope, LifecycleChecksum, RequestStream, RequestProducer, Newest;
  }

  lemma NoteStep(sha: Hash, t: Tables, site: Site, q: AcceptRequest, now: int, io: Store, id: string)
    ensures NotedBy(t, Accept(sha, t, site, q, now, io), q, now, io, id)
  {
    hide AcceptKnown, AcceptNew, NotedBy;
    var r := Accept(sha, t, site, q, now, io);
    if q.eventId in t.dedup {
      KnownNotes(sha, t, q, now, io, id);
    } else {
      NewNotes(sha, t, q, now, io, id);
    }
    if NoteOf(r.1, io).None? {
      NotesNone(t, r.1, q, now, io, id);
    }
  }

  lemma UpdatesNoteNothing(sha: Hash, t: Tables, op: Op)
    requires !op.OpAccept?
    ensures Apply(sha, t, op).0.writeAttempts == t.writeAttempts
  {
    hide UpdateLifecycle, CreatePending, RecordAttempt, Confirm, Block, Retry;
  }

  lemma NewestOfNotes(log: seq<WriteAttempt>, a: WriteAttempt)
    ensures Newest(Newest(log) + [a]) == Newest(log + [a])
  {
  }

  /** After any run the write log of an event is exactly the newest 16 of its answered requests. */
  lemma {:induction false} WriteLogShowsHistory(sha: Hash, ops: seq<Op>, id: string)
    ensures LogOf(After(sha, ops).writeAttempts, id) == Newest(Noted(sha, ops, id))
  {
    hide Accept, UpdateLifecycle, CreatePending, RecordAttempt, Confirm, Block, Retry, NoteOf, Newest;
    if ops == [] {
      NoNotes(id);
    } else {
      var n := |ops| - 1;
      var t, op := After(sha, ops[..n]), ops[n];
      WriteLogShowsHistory(sha, ops[..n], id);
      if op.OpAccept? {
        NoteStep(sha, t, op.site, op.request, op.now, op.io, id);
        var note := NoteOf(Accept(sha, t, op.site, op.request, op.now, op.io).1, op.io);
        if note.Some? {
          NewestOfNotes(Noted(sha, ops[..n], id), WriteAttempt(note.value, op.now));
        }
      } else {
        UpdatesNoteNothing(sha, t, op);
      }
    }
  }

  lemma NoNotes(id: string)
    ensures LogOf(EMPTY.writeAttempts, id) == Newest<WriteAttempt>([])
  {
  }
}
