/** Runs of the journal: any list of public operations with any arguments, clocks and store
    failures, applied to an empty database. */
module JournalRuns {
  import opened Common
  import opened NulText
  import opened Records
  import opened Journal

  datatype Op =
    | OpAccept(site: Site, request: AcceptRequest, now: int, io: Store)
    | OpLifecycle(id: string, expected: int, local: LocalStatus, now: int, io: Store)
    | OpCreate(id: string, fingerprint: Checksum, profileId: string, profileVersion: int, topic: string, now: int, io: Store)
    | OpRecord(id: string, attempt: DeliveryAttempt, now: int, io: Store)
    | OpConfirm(id: string, expected: int, confirmation: Confirmation, now: int, io: Store)
    | OpBlock(id: string, expected: int, reason: string, now: int, io: Store)
    | OpRetry(id: string, expected: int, nextRetryAtMs: int, now: int, io: Store)

  datatype Outcome = OfAccept(accept: AcceptResult) | OfCas(cas: CasResult)

  function Apply(sha: Hash, t: Tables, op: Op): (Tables, Outcome) {
    match op
    case OpAccept(site, q, now, io) => var r := Accept(sha, t, site, q, now, io); (r.0, OfAccept(r.1))
    case OpLifecycle(id, x, s, now, io) => var r := UpdateLifecycle(sha, t, id, x, s, now, io); (r.0, OfCas(r.1))
    case OpCreate(id, f, p, v, topic, now, io) => var r := CreatePending(sha, t, id, f, p, v, topic, now, io); (r.0, OfCas(r.1))
    case OpRecord(id, a, now, io) => var r := RecordAttempt(sha, t, id, a, now, io); (r.0, OfCas(r.1))
    case OpConfirm(id, x, c, now, io) => var r := Confirm(sha, t, id, x, c, now, io); (r.0, OfCas(r.1))
    case OpBlock(id, x, reason, now, io) => var r := Block(sha, t, id, x, reason, now, io); (r.0, OfCas(r.1))
    case OpRetry(id, x, at, now, io) => var r := Retry(sha, t, id, x, at, now, io); (r.0, OfCas(r.1))
  }

  /** The tables after a run. */
  function After(sha: Hash, ops: seq<Op>): Tables {
    if ops == [] then EMPTY else Apply(sha, After(sha, ops[..|ops| - 1]), ops[|ops| - 1]).0
  }

  /** What operation `i` of a run answered. */
  function Answer(sha: Hash, ops: seq<Op>, i: nat): Outcome
    requires i < |ops|
  {
    Apply(sha, After(sha, ops[..i]), ops[i]).1
  }

  lemma AfterStep(sha: Hash, ops: seq<Op>, i: nat)
    requires i < |ops|
    ensures After(sha, ops[..i + 1]) == Apply(sha, After(sha, ops[..i]), ops[i]).0
  {
    assert ops[..i + 1][..i] == ops[..i];
  }

  // ---------------------------------------------------------------------------------------
  // Acceptance order
  // ---------------------------------------------------------------------------------------

  /** How many envelopes a stream has. */
  function Count(envelopes: seq<Envelope>, stream: string): nat {
    if envelopes == [] then 0
    else Count(envelopes[..|envelopes| - 1], stream) + if StreamOf(envelopes[|envelopes| - 1]) == stream then 1 else 0
  }

  /** Each envelope continues its journal and its stream, and has an event id of its own. */
  ghost predicate Ordered(envelopes: seq<Envelope>) {
    envelopes != [] ==>
      var n := |envelopes| - 1;
      && Ordered(envelopes[..n])
      && envelopes[n].journalSequence == n + 1
      && envelopes[n].streamSequence == Count(envelopes[..n], StreamOf(envelopes[n])) + 1
      && Find(envelopes[..n], envelopes[n].eventId).None?
  }

  lemma {:induction false} OrderedAt(envelopes: seq<Envelope>, i: nat)
    requires Ordered(envelopes) && i < |envelopes|
    ensures Ordered(envelopes[..i + 1])
    ensures envelopes[i].journalSequence == i + 1
    ensures envelopes[i].streamSequence == Count(envelopes[..i], StreamOf(envelopes[i])) + 1
    ensures Find(envelopes[..i], envelopes[i].eventId).None?
  {
    var n := |envelopes| - 1;
    if i < n {
      OrderedAt(envelopes[..n], i);
      assert envelopes[..n][..i] == envelopes[..i] && envelopes[..n][..i + 1] == envelopes[..i + 1];
    } else {
      assert envelopes[..i + 1] == envelopes;
    }
  }

  lemma {:induction false} CountGrows(envelopes: seq<Envelope>, stream: string, i: nat)
    requires i <= |envelopes|
    ensures Count(envelopes[..i], stream) <= Count(envelopes, stream)
    ensures i < |envelopes| && StreamOf(envelopes[i]) == stream ==> Count(envelopes[..i], stream) < Count(envelopes, stream)
  {
    var n := |envelopes| - 1;
    if i == |envelopes| {
      assert envelopes[..i] == envelopes;
    } else {
      CountGrows(envelopes[..n], stream, i);
      assert envelopes[..n][..i] == envelopes[..i];
    }
  }

  /** Within a stream the journal order and the stream order agree, and no number exceeds the count. */
  lemma {:induction false} StreamOrder(envelopes: seq<Envelope>, i: nat, j: nat)
    requires Ordered(envelopes) && i < |envelopes| && j < |envelopes|
    requires StreamOf(envelopes[i]) == StreamOf(envelopes[j])
    ensures i < j <==> envelopes[i].streamSequence < envelopes[j].streamSequence
    ensures 1 <= envelopes[i].streamSequence <= Count(envelopes, StreamOf(envelopes[i]))
  {
    hide Ordered, Count, StreamOf, Find;
    OrderedAt(envelopes, i);
    OrderedAt(envelopes, j);
    CountGrows(envelopes, StreamOf(envelopes[i]), i);
    if i < j {
      CountGrows(envelopes[..j], StreamOf(envelopes[i]), i);
      assert envelopes[..j][..i] == envelopes[..i];
    } else if j < i {
      CountGrows(envelopes[..i], StreamOf(envelopes[i]), j);
      assert envelopes[..i][..j] == envelopes[..j];
    }
  }

  /** Every number up to the count is held by an envelope of the stream. */
  lemma {:induction false} StreamDense(envelopes: seq<Envelope>, stream: string, n: int) returns (i: nat)
    requires Ordered(envelopes) && 1 <= n <= Count(envelopes, stream)
    ensures i < |envelopes| && StreamOf(envelopes[i]) == stream && envelopes[i].streamSequence == n
  {
    var last := |envelopes| - 1;
    if n <= Count(envelopes[..last], stream) {
      i := StreamDense(envelopes[..last], stream, n);
    } else {
      i := last;
    }
  }

  /** Event ids are unique, so a stored envelope is the one its id finds. */
  lemma {:induction false} FindStored(envelopes: seq<Envelope>, i: nat)
    requires Ordered(envelopes) && i < |envelopes|
    ensures Find(envelopes, envelopes[i].eventId) == Some(envelopes[i])
  {
    var n := |envelopes| - 1;
    if i < n {
      FindStored(envelopes[..n], i);
    }
  }

  lemma {:induction false} MaxIsLength(envelopes: seq<Envelope>)
    requires Ordered(envelopes)
    ensures MaxSequence(envelopes) == |envelopes|
  {
    if envelopes != [] {
      MaxIsLength(envelopes[..|envelopes| - 1]);
    }
  }

  // ---------------------------------------------------------------------------------------
  // Consistency of the tables around each envelope
  // ---------------------------------------------------------------------------------------

  /** Everything acceptance wrote for an envelope is still there and verifies. */
  ghost predicate Intact(sha: Hash, t: Tables, e: Envelope) {
    var id := e.eventId;
    && e.checksum == EnvelopeChecksum(sha, e)
    && id in t.dedup && t.dedup[id] == e.requestFingerprint
    && id in t.payloads && t.payloads[id].digest == e.payloadDigest && sha(t.payloads[id].bytes) == e.payloadDigest
    && id in t.lifecycles
    && t.lifecycles[id].checksum == LifecycleChecksum(sha, id, t.lifecycles[id].revision, t.lifecycles[id].status)
    && ProducerOf(e) in t.producers && e.producerOpSeq <= t.producers[ProducerOf(e)].highest
  }

  ghost predicate Keyed(t: Tables) {
    && (forall id :: id in t.dedup ==> Find(t.envelopes, id).Some?)
    && (forall id :: id in t.deliveries ==> Find(t.envelopes, id).Some?)
    && (forall k :: k in t.producers ==> t.producers[k].lastEventId in t.dedup)
  }

  ghost predicate HeadsCount(t: Tables) {
    forall k: string :: Head(t, k) == Count(t.envelopes, k)
  }

  ghost predicate ProducersRise(envelopes: seq<Envelope>) {
    forall i, j :: 0 <= i < j < |envelopes| && ProducerOf(envelopes[i]) == ProducerOf(envelopes[j]) ==>
      envelopes[i].producerOpSeq < envelopes[j].producerOpSeq
  }

  ghost predicate AllIntact(sha: Hash, t: Tables) {
    forall e :: e in t.envelopes ==> Intact(sha, t, e)
  }

  ghost predicate LogsBounded(t: Tables) {
    && (forall id :: id in t.writeAttempts ==> |t.writeAttempts[id]| <= MAX_ATTEMPTS)
    && (forall id :: id in t.deliveryAttempts ==> |t.deliveryAttempts[id]| <= MAX_ATTEMPTS)
  }

  ghost predicate Consistent(sha: Hash, t: Tables) {
    && Ordered(t.envelopes) && HeadsCount(t) && Keyed(t)
    && AllIntact(sha, t) && ProducersRise(t.envelopes) && LogsBounded(t)
  }

  lemma FindAppend(envelopes: seq<Envelope>, e: Envelope, id: string)
    ensures Find(envelopes + [e], id) == if e.eventId == id then Some(e) else Find(envelopes, id)
  {
    assert (envelopes + [e])[..|envelopes|] == envelopes;
  }

  lemma NewEnvelopeFields(sha: Hash, t: Tables, q: AcceptRequest, now: int)
    ensures var e := NewEnvelope(sha, t, q, now);
      && e.eventId == q.eventId && e.journalSequence == MaxSequence(t.envelopes) + 1
      && StreamOf(e) == RequestStream(q) && e.streamSequence == Head(t, RequestStream(q)) + 1
      && ProducerOf(e) == RequestProducer(q) && e.producerOpSeq == q.producerOpSeq
      && e.requestFingerprint == q.fingerprint && e.payloadDigest == sha(q.payload)
      && e.checksum == EnvelopeChecksum(sha, e)
  {
    hide Render;
  }

  /** What an accepted request adds, field by field. */
  lemma AcceptedInserts(sha: Hash, t: Tables, site: Site, q: AcceptRequest, now: int, io: Store)
    requires Accept(sha, t, site, q, now, io).1.Accepted?
    ensures Accept(sha, t, site, q, now, io).0 == Insert(sha, t, q, now)
    ensures q.eventId !in t.dedup && !ProducerConflict(t, q) && Find(t.envelopes, q.eventId).None?
  {
    hide NewEnvelope, Insert, GetStatus;
  }

  lemma InsertKeepsOrder(sha: Hash, t: Tables, q: AcceptRequest, now: int)
    requires Ordered(t.envelopes) && HeadsCount(t) && Find(t.envelopes, q.eventId).None?
    ensures Ordered(Insert(sha, t, q, now).envelopes) && HeadsCount(Insert(sha, t, q, now))
  {
    hide EnvelopeBytes, LifecycleChecksum, ComposedKey;
    var e := NewEnvelope(sha, t, q, now);
    var u := Insert(sha, t, q, now);
    NewEnvelopeFields(sha, t, q, now);
    MaxIsLength(t.envelopes);
    assert u.envelopes[..|t.envelopes|] == t.envelopes;
    assert Head(t, RequestStream(q)) == Count(t.envelopes, RequestStream(q));
    forall k: string
      ensures Head(u, k) == Count(u.envelopes, k)
    {
      assert Head(t, k) == Count(t.envelopes, k);
    }
  }

  lemma InsertKeepsKeyed(sha: Hash, t: Tables, q: AcceptRequest, now: int)
    requires Keyed(t)
    ensures Keyed(Insert(sha, t, q, now))
  {
    hide EnvelopeBytes, LifecycleChecksum, ComposedKey, Find;
    var e := NewEnvelope(sha, t, q, now);
    var u := Insert(sha, t, q, now);
    forall id
      ensures Find(u.envelopes, id) == if q.eventId == id then Some(e) else Find(t.envelopes, id)
    {
      FindAppend(t.envelopes, e, id);
    }
  }

  lemma IntactCarries(sha: Hash, t: Tables, u: Tables, q: AcceptRequest, x: Envelope)
    requires Intact(sha, t, x) && Keyed(t) && q.eventId !in t.dedup && !ProducerConflict(t, q)
    requires q.eventId in u.payloads && u.payloads == t.payloads[q.eventId := u.payloads[q.eventId]]
    requires q.eventId in u.lifecycles && u.lifecycles == t.lifecycles[q.eventId := u.lifecycles[q.eventId]]
    requires u.dedup == t.dedup[q.eventId := q.fingerprint]
    requires u.producers == t.producers[RequestProducer(q) := ProducerHead(q.producerOpSeq, q.eventId)]
    ensures Intact(sha, u, x)
    ensures ProducerOf(x) == RequestProducer(q) ==> x.producerOpSeq < q.producerOpSeq
  {
    hide EnvelopeChecksum, LifecycleChecksum, ProducerOf, RequestProducer, Find;
  }

  lemma NewIsIntact(sha: Hash, t: Tables, q: AcceptRequest, now: int)
    ensures Intact(sha, Insert(sha, t, q, now), NewEnvelope(sha, t, q, now))
  {
    hide EnvelopeChecksum, LifecycleChecksum, ProducerOf, RequestProducer, RequestStream, NewEnvelope, Newest, LogOf;
    NewEnvelopeFields(sha, t, q, now);
  }

  lemma InsertKeepsIntact(sha: Hash, t: Tables, q: AcceptRequest, now: int)
    requires AllIntact(sha, t) && Keyed(t) && q.eventId !in t.dedup && !ProducerConflict(t, q)
    ensures AllIntact(sha, Insert(sha, t, q, now))
    ensures forall x :: x in t.envelopes && ProducerOf(x) == RequestProducer(q) ==> x.producerOpSeq < q.producerOpSeq
  {
    hide LifecycleChecksum, ProducerOf, RequestProducer, RequestStream, NewEnvelope, Find, Newest, LogOf,
      ProducerConflict, Intact, Keyed;
    var e := NewEnvelope(sha, t, q, now);
    var u := Insert(sha, t, q, now);
    NewIsIntact(sha, t, q, now);
    forall x | x in t.envelopes
      ensures Intact(sha, u, x)
      ensures ProducerOf(x) == RequestProducer(q) ==> x.producerOpSeq < q.producerOpSeq
    {
      IntactCarries(sha, t, u, q, x);
    }
    assert u.envelopes == t.envelopes + [e];
  }

  lemma InsertKeepsRise(sha: Hash, t: Tables, q: AcceptRequest, now: int)
    requires ProducersRise(t.envelopes)
    requires forall x :: x in t.envelopes && ProducerOf(x) == RequestProducer(q) ==> x.producerOpSeq < q.producerOpSeq
    ensures ProducersRise(Insert(sha, t, q, now).envelopes)
  {
    hide EnvelopeChecksum, LifecycleChecksum, ProducerOf, RequestProducer, RequestStream, NewEnvelope;
    NewEnvelopeFields(sha, t, q, now);
  }

  lemma AcceptKeepsConsistent(sha: Hash, t: Tables, site: Site, q: AcceptRequest, now: int, io: Store)
    requires Consistent(sha, t)
    ensures Consistent(sha, Accept(sha, t, site, q, now, io).0)
  {
    hide Ordered, AllIntact, Find, HeadsCount, ProducersRise, Keyed, Insert, AcceptKnown, AcceptNew;
    var r := Accept(sha, t, site, q, now, io);
    AcceptKeepsLogs(sha, t, site, q, now, io);
    if r.1.Accepted? {
      AcceptedInserts(sha, t, site, q, now, io);
      InsertKeepsOrder(sha, t, q, now);
      InsertKeepsKeyed(sha, t, q, now);
      InsertKeepsIntact(sha, t, q, now);
      InsertKeepsRise(sha, t, q, now);
    } else {
      FrameHeads(t, r.0);
      FrameKeyed(t, r.0);
      FrameIntact(sha, t, r.0);
    }
  }

  lemma AcceptKeepsLogs(sha: Hash, t: Tables, site: Site, q: AcceptRequest, now: int, io: Store)
    requires LogsBounded(t)
    ensures LogsBounded(Accept(sha, t, site, q, now, io).0)
  {
    hide AcceptKnown, AcceptNew;
    if q.eventId in t.dedup {
      KnownKeepsLogs(sha, t, q, now, io);
    } else {
      NewKeepsLogs(sha, t, q, now, io);
    }
  }

  /** One more note in a table whose logs are bounded. */
  lemma NoteKeepsLogs(t: Tables, u: Tables, id: string, outcome: WriteOutcome, now: int)
    requires LogsBounded(t) && u.writeAttempts == t.writeAttempts && u.deliveryAttempts == t.deliveryAttempts
    ensures LogsBounded(Note(u, id, outcome, now))
  {
    hide Newest, LogOf;
  }

  lemma KnownKeepsLogs(sha: Hash, t: Tables, q: AcceptRequest, now: int, io: Store)
    requires LogsBounded(t) && q.eventId in t.dedup
    ensures LogsBounded(AcceptKnown(sha, t, q, now, io).0)
  {
    hide GetStatus, PayloadIntact, Note, LogsBounded;
    NoteKeepsLogs(t, t, q.eventId, FingerprintRefused, now);
    NoteKeepsLogs(t, t, q.eventId, DuplicateSeen, now);
  }

  lemma NewKeepsLogs(sha: Hash, t: Tables, q: AcceptRequest, now: int, io: Store)
    requires LogsBounded(t)
    ensures LogsBounded(AcceptNew(sha, t, q, now, io).0)
  {
    hide NewEnvelope, LifecycleChecksum, Find, ProducerConflict, RequestStream, RequestProducer, Note, LogsBounded;
    NoteKeepsLogs(t, t, q.eventId, SequenceRefused, now);
    InsertKeepsLogs(sha, t, q, now);
  }

  lemma InsertKeepsLogs(sha: Hash, t: Tables, q: AcceptRequest, now: int)
    requires LogsBounded(t)
    ensures LogsBounded(Insert(sha, t, q, now))
  {
    hide NewEnvelope, LifecycleChecksum, RequestStream, RequestProducer, Newest, LogOf;
  }

  // ---------------------------------------------------------------------------------------
  // Frames: what the other operations leave alone
  // ---------------------------------------------------------------------------------------

  lemma FrameHeads(t: Tables, u: Tables)
    requires HeadsCount(t) && u.envelopes == t.envelopes && u.streamHeads == t.streamHeads
    ensures HeadsCount(u)
  {
    hide Count;
    forall k: string
      ensures Head(u, k) == Count(u.envelopes, k)
    {
      assert Head(t, k) == Count(t.envelopes, k);
    }
  }

  lemma FrameKeyed(t: Tables, u: Tables)
    requires Keyed(t) && u.envelopes == t.envelopes && u.dedup == t.dedup && u.producers == t.producers
    requires forall x :: x in u.deliveries ==> x in t.deliveries || Find(t.envelopes, x).Some?
    ensures Keyed(u)
  {
    hide Find;
  }

  /** Every lifecycle that changed was sealed with a fresh checksum. */
  ghost predicate Resealed(sha: Hash, t: Tables, u: Tables) {
    && (forall x :: x in t.lifecycles ==> x in u.lifecycles)
    && forall x :: x in u.lifecycles && (x !in t.lifecycles || u.lifecycles[x] != t.lifecycles[x]) ==>
        u.lifecycles[x].checksum == LifecycleChecksum(sha, x, u.lifecycles[x].revision, u.lifecycles[x].status)
  }

  lemma FrameIntact(sha: Hash, t: Tables, u: Tables)
    requires AllIntact(sha, t) && Resealed(sha, t, u)
    requires u.envelopes == t.envelopes && u.dedup == t.dedup && u.payloads == t.payloads && u.producers == t.producers
    ensures AllIntact(sha, u)
  {
    hide LifecycleChecksum, EnvelopeChecksum, ProducerOf;
    forall e | e in u.envelopes
      ensures Intact(sha, u, e)
    {
      assert Intact(sha, t, e);
    }
  }

  /** The fields a compare-and-set update may touch. */
  lemma UpdateFrame(sha: Hash, t: Tables, op: Op)
    requires !op.OpAccept?
    ensures var u := Apply(sha, t, op).0;
      && u == t.(lifecycles := u.lifecycles, deliveries := u.deliveries, deliveryAttempts := u.deliveryAttempts)
      && (forall x :: x in u.deliveries ==> x in t.deliveries || Find(t.envelopes, x).Some?)
      && (forall x :: x in t.deliveries ==> x in u.deliveries)
  {
    hide Accept, UpdateLifecycle, CreatePending, RecordAttempt, Confirm, Block, Retry, Find;
  }

  lemma UpdateReseals(sha: Hash, t: Tables, op: Op)
    requires !op.OpAccept?
    ensures Resealed(sha, t, Apply(sha, t, op).0)
  {
    hide Accept, UpdateLifecycle, CreatePending, RecordAttempt, Confirm, Block, Retry, Resealed;
    var u := Apply(sha, t, op).0;
    match op
    case OpLifecycle(id, x, s, now, io) => LifecycleReseals(sha, t, id, x, s, now, io);
    case OpConfirm(id, x, c, now, io) => ConfirmReseals(sha, t, id, x, c, now, io);
    case OpBlock(id, x, reason, now, io) => BlockReseals(sha, t, id, x, reason, now, io);
    case _ => SameLifecycles(sha, t, u);
  }

  lemma SameLifecycles(sha: Hash, t: Tables, u: Tables)
    requires u.lifecycles == t.lifecycles
    ensures Resealed(sha, t, u)
  {
  }

  lemma NextIsSealed(sha: Hash, t: Tables, u: Tables, id: string, l: Lifecycle, status: Status, now: int)
    requires u.lifecycles == t.lifecycles[id := NextLifecycle(sha, id, l, status, now)]
    ensures Resealed(sha, t, u)
  {
    hide LifecycleChecksum;
  }

  lemma LifecycleReseals(sha: Hash, t: Tables, id: string, x: int, s: LocalStatus, now: int, io: Store)
    ensures Resealed(sha, t, UpdateLifecycle(sha, t, id, x, s, now, io).0)
  {
    hide GetStatus, NextLifecycle, Resealed;
    var u := UpdateLifecycle(sha, t, id, x, s, now, io);
    if u.1 == Updated {
      NextIsSealed(sha, t, u.0, id, GetStatus(sha, t, id).lifecycle, s, now);
    } else {
      SameLifecycles(sha, t, u.0);
    }
  }

  lemma ConfirmReseals(sha: Hash, t: Tables, id: string, x: int, c: Confirmation, now: int, io: Store)
    ensures Resealed(sha, t, Confirm(sha, t, id, x, c, now, io).0)
  {
    hide GetStatus, NextLifecycle, Resealed, Load, SameRoute, SameConfirmation, Seal;
    var u := Confirm(sha, t, id, x, c, now, io);
    if u.1 == Updated {
      NextIsSealed(sha, t, u.0, id, GetStatus(sha, t, id).lifecycle, Replicated, now);
    } else {
      SameLifecycles(sha, t, u.0);
    }
  }

  lemma BlockReseals(sha: Hash, t: Tables, id: string, x: int, reason: string, now: int, io: Store)
    ensures Resealed(sha, t, Block(sha, t, id, x, reason, now, io).0)
  {
    hide GetStatus, NextLifecycle, Resealed, Load, Seal;
    var u := Block(sha, t, id, x, reason, now, io);
    if u.1 == Updated {
      NextIsSealed(sha, t, u.0, id, GetStatus(sha, t, id).lifecycle, Blocked, now);
    } else {
      SameLifecycles(sha, t, u.0);
    }
  }

  lemma UpdateKeepsLogs(sha: Hash, t: Tables, op: Op)
    requires !op.OpAccept? && LogsBounded(t)
    ensures LogsBounded(Apply(sha, t, op).0)
  {
    hide GetStatus, Load, Find, Seal, NextLifecycle, SameRoute, SameConfirmation;
  }

  lemma ApplyKeepsConsistent(sha: Hash, t: Tables, op: Op)
    requires Consistent(sha, t)
    ensures Consistent(sha, Apply(sha, t, op).0)
  {
    hide Ordered, AllIntact, Find, HeadsCount, ProducersRise, Keyed, Resealed, LogsBounded,
      Accept, UpdateLifecycle, CreatePending, RecordAttempt, Confirm, Block, Retry;
    if op.OpAccept? {
      AcceptKeepsConsistent(sha, t, op.site, op.request, op.now, op.io);
    } else {
      var u := Apply(sha, t, op).0;
      UpdateFrame(sha, t, op);
      UpdateReseals(sha, t, op);
      UpdateKeepsLogs(sha, t, op);
      FrameHeads(t, u);
      FrameKeyed(t, u);
      FrameIntact(sha, t, u);
    }
  }

  /** Every run of the journal leaves consistent tables. */
  lemma {:induction false} RunsAreConsistent(sha: Hash, ops: seq<Op>)
    ensures Consistent(sha, After(sha, ops))
  {
    if ops != [] {
      RunsAreConsistent(sha, ops[..|ops| - 1]);
      ApplyKeepsConsistent(sha, After(sha, ops[..|ops| - 1]), ops[|ops| - 1]);
    }
  }
}
