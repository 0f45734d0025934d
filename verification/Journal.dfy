/** The journal's tables as values, and each public operation of `LocalJournal` as a function
    from the tables before to the tables after and the result. A transaction is one atomic
    update: a failing statement rolls all of it back. */
module Journal {
  import opened Common
  import opened Records

  const MAX_ATTEMPTS := 16

  datatype WriteOutcome = NewlyAccepted | DuplicateSeen | FingerprintRefused | SequenceRefused

  datatype WriteAttempt = WriteAttempt(outcome: WriteOutcome, atMs: int)

  datatype DeliveryAttempt = DeliveryAttempt(
    number: int,
    outcome: string,
    errorCode: Option<string>,
    kafkaTopic: Option<string>,
    profileId: Option<string>,
    profileVersion: Option<int>,
    attemptedAtMs: int)

  datatype Payload = Payload(bytes: string, digest: Checksum)

  datatype ProducerHead = ProducerHead(highest: int, lastEventId: string)

  /** All tables. Envelopes are listed in the order of their primary key, the attempt tables
      are grouped by event in the order of their row ids. */
  datatype Tables = Tables(
    envelopes: seq<Envelope>,
    payloads: map<string, Payload>,
    lifecycles: map<string, Lifecycle>,
    dedup: map<string, Checksum>,
    producers: map<string, ProducerHead>,
    streamHeads: map<string, int>,
    writeAttempts: map<string, seq<WriteAttempt>>,
    deliveries: map<string, DeliveryRow>,
    deliveryAttempts: map<string, seq<DeliveryAttempt>>)

  const EMPTY := Tables([], map[], map[], map[], map[], map[], map[], map[], map[])

  /** What the database does during one operation. */
  datatype Store = Healthy | ReadFails | WriteFails

  datatype CasResult =
    Updated | AlreadyConfirmed | StaleRevision | NotFound | InvalidTransition | Corrupted | Error

  // ---------------------------------------------------------------------------------------
  // Queries
  // ---------------------------------------------------------------------------------------

  /** `SELECT ... FROM stored_envelope WHERE event_id = ?`. */
  function Find(envelopes: seq<Envelope>, id: string): (r: Option<Envelope>)
    ensures r.Some? ==> r.value in envelopes && r.value.eventId == id
    ensures r.None? ==> forall e :: e in envelopes ==> e.eventId != id
  {
    if envelopes == [] then None
    else
      var last := envelopes[|envelopes| - 1];
      if last.eventId == id then Some(last) else Find(envelopes[..|envelopes| - 1], id)
  }

  /** `SELECT COALESCE(MAX(journal_sequence), 0)`, read as at least 0. */
  function MaxSequence(envelopes: seq<Envelope>): int {
    if envelopes == [] then 0
    else
      var last := envelopes[|envelopes| - 1].journalSequence;
      var rest := MaxSequence(envelopes[..|envelopes| - 1]);
      if last > rest then last else rest
  }

  function Head(t: Tables, stream: string): int {
    if stream in t.streamHeads then t.streamHeads[stream] else 0
  }

  /** The newest 16 entries of an attempt log. */
  function Newest<T>(log: seq<T>): (kept: seq<T>)
    ensures |kept| <= MAX_ATTEMPTS
  {
    if |log| <= MAX_ATTEMPTS then log else log[|log| - MAX_ATTEMPTS..]
  }

  function LogOf<T>(logs: map<string, seq<T>>, id: string): seq<T> {
    if id in logs then logs[id] else []
  }

  function Note(t: Tables, id: string, outcome: WriteOutcome, now: int): Tables {
    t.(writeAttempts := t.writeAttempts[id := Newest(LogOf(t.writeAttempts, id) + [WriteAttempt(outcome, now)])])
  }

  datatype Loaded = Present(row: DeliveryRow) | Absent | Damaged

  predicate Filled(o: Option<string>) { o.Some? && o.value != "" }

  predicate AtLeast(o: Option<int>, low: int) { o.Some? && o.value >= low }

  predicate RoutingFields(r: DeliveryRow) {
    Filled(r.kafkaTopic) && r.routingFingerprint.Some? && Filled(r.profileId) && AtLeast(r.profileVersion, 1)
  }

  predicate Unconfirmed(r: DeliveryRow) {
    r.kafkaPartition.None? && r.kafkaOffset.None? && r.confirmedAtMs.None?
  }

  /** `validate_delivery_state_invariants`, with the status check that precedes it. */
  predicate WellFormedRow(r: DeliveryRow) {
    match r.status
    case Replicated =>
      && RoutingFields(r) && AtLeast(r.kafkaPartition, 0) && AtLeast(r.kafkaOffset, 0)
      && r.confirmedAtMs.Some? && r.blockedReason.None? && r.nextRetryAtMs.None?
    case Pending =>
      RoutingFields(r) && r.nextRetryAtMs.None? && r.blockedReason.None? && Unconfirmed(r)
    case Retrying =>
      RoutingFields(r) && r.nextRetryAtMs.Some? && r.blockedReason.None? && Unconfirmed(r)
    case Blocked =>
      Filled(r.blockedReason) && r.nextRetryAtMs.None? && Unconfirmed(r)
    case LocalAccepted => false
  }

  /** `load_delivery_state`: a row counts only with a matching checksum and a sound shape. */
  function Load(sha: Hash, t: Tables, id: string): (r: Loaded)
    ensures r.Present? ==> id in t.deliveries && r.row == t.deliveries[id]
  {
    if id !in t.deliveries then Absent
    else
      var row := t.deliveries[id];
      if row.checksum == DeliveryChecksum(sha, id, row) && WellFormedRow(row) then Present(row) else Damaged
  }

  datatype StatusResult = Found(envelope: Envelope, lifecycle: Lifecycle) | Unknown | BadStatus

  /** `get_status_impl`: both checksums are recomputed on every read. */
  function GetStatus(sha: Hash, t: Tables, id: string): (r: StatusResult)
    ensures r.Found? ==> id in t.lifecycles && r.lifecycle == t.lifecycles[id] && Find(t.envelopes, id) == Some(r.envelope)
  {
    var e := Find(t.envelopes, id);
    if e.None? || id !in t.lifecycles then Unknown
    else
      var l := t.lifecycles[id];
      if l.checksum == LifecycleChecksum(sha, id, l.revision, l.status)
         && e.value.checksum == EnvelopeChecksum(sha, e.value)
      then Found(e.value, l) else BadStatus
  }

  datatype Candidate = Candidate(envelope: Envelope, row: DeliveryRow)

  datatype CandidateResult = Ready(candidate: Candidate) | NoCandidate | BadCandidate

  function GetCandidate(sha: Hash, t: Tables, id: string): CandidateResult {
    match Load(sha, t, id)
    case Absent => NoCandidate
    case Damaged => BadCandidate
    case Present(row) =>
      var e := Find(t.envelopes, id);
      if e.Some? && e.value.checksum == EnvelopeChecksum(sha, e.value)
      then Ready(Candidate(e.value, row)) else BadCandidate
  }

  /** `read_verified_payload`. */
  function ReadPayload(sha: Hash, t: Tables, id: string): Option<string> {
    var e := Find(t.envelopes, id);
    if e.Some? && id in t.payloads
       && t.payloads[id].digest == e.value.payloadDigest
       && sha(t.payloads[id].bytes) == e.value.payloadDigest
    then Some(t.payloads[id].bytes) else None
  }

  // ---------------------------------------------------------------------------------------
  // Acceptance
  // ---------------------------------------------------------------------------------------

  datatype AcceptRequest = AcceptRequest(
    installationId: string,
    eventId: string,
    producerId: string,
    producerInstanceId: string,
    producerOpSeq: int,
    ns: string,
    streamType: string,
    streamKey: string,
    eventType: string,
    schemaVersion: int,
    payload: string,
    fingerprint: Checksum,
    routingVersion: int)

  datatype AcceptedEvent = AcceptedEvent(
    eventId: string,
    journalSequence: int,
    streamSequence: int,
    lifecycleRevision: int,
    checksum: Checksum,
    status: Status)

  datatype AcceptResult =
    | Accepted(event: AcceptedEvent)
    | ExistingDuplicate(event: AcceptedEvent)
    | FingerprintConflict
    | SequenceConflict
    | DiskUnsafe
    | ShuttingDown
    | AcceptCorrupted
    | AcceptError

  /** What `accept` reads besides the tables. */
  datatype Site = Site(shutdown: bool, diskSafe: bool, maxPayload: nat)

  function RequestStream(q: AcceptRequest): string {
    ComposedKey(q.installationId, q.ns, q.streamType, q.streamKey)
  }

  function RequestProducer(q: AcceptRequest): string {
    ProducerKey(q.installationId, q.producerId, q.producerInstanceId)
  }

  function NewEnvelope(sha: Hash, t: Tables, q: AcceptRequest, now: int): Envelope {
    var e := Envelope(
      MaxSequence(t.envelopes) + 1, q.eventId, q.installationId, q.producerId, q.producerInstanceId,
      q.producerOpSeq, q.ns, q.streamType, q.streamKey, q.eventType, q.schemaVersion,
      Head(t, RequestStream(q)) + 1, sha(q.payload), q.fingerprint, ZeroChecksum(),
      q.installationId + "/" + q.eventId, |q.payload|, q.routingVersion, now);
    e.(checksum := EnvelopeChecksum(sha, e))
  }

  predicate ProducerConflict(t: Tables, q: AcceptRequest) {
    var key := RequestProducer(q);
    key in t.producers && q.producerOpSeq <= t.producers[key].highest && t.producers[key].lastEventId != q.eventId
  }

  /** The status a duplicate is told: everything but LOCAL_ACCEPTED and PENDING is reported as
      BLOCKED. */
  function DuplicateStatus(s: Status): Status {
    match s
    case LocalAccepted => LocalAccepted
    case Pending => Pending
    case _ => Blocked
  }

  function PayloadIntact(sha: Hash, t: Tables, id: string): bool {
    id in t.payloads && sha(t.payloads[id].bytes) == t.payloads[id].digest
  }

  function Insert(sha: Hash, t: Tables, q: AcceptRequest, now: int): Tables {
    var e := NewEnvelope(sha, t, q, now);
    var life := Lifecycle(1, LifecycleChecksum(sha, q.eventId, 1, LocalAccepted), LocalAccepted, now);
    Note(t.(
      envelopes := t.envelopes + [e],
      payloads := t.payloads[q.eventId := Payload(q.payload, e.payloadDigest)],
      lifecycles := t.lifecycles[q.eventId := life],
      dedup := t.dedup[q.eventId := q.fingerprint],
      producers := t.producers[RequestProducer(q) := ProducerHead(q.producerOpSeq, q.eventId)],
      streamHeads := t.streamHeads[RequestStream(q) := e.streamSequence]),
      q.eventId, NewlyAccepted, now)
  }

  /** The refusals record a write attempt when the store lets them. */
  function Refuse(t: Tables, id: string, outcome: WriteOutcome, now: int, io: Store): Tables {
    if io.WriteFails? then t else Note(t, id, outcome, now)
  }

  /** A known event id: the same fingerprint is a duplicate, another one a conflict. */
  function AcceptKnown(sha: Hash, t: Tables, q: AcceptRequest, now: int, io: Store): (r: (Tables, AcceptResult))
    requires q.eventId in t.dedup
    ensures r.0 == t.(writeAttempts := r.0.writeAttempts) && !r.1.Accepted?
  {
    if t.dedup[q.eventId] != q.fingerprint then
      (Refuse(t, q.eventId, FingerprintRefused, now, io), FingerprintConflict)
    else
      match GetStatus(sha, t, q.eventId)
      case Unknown => (t, AcceptError)
      case BadStatus => (t, AcceptCorrupted)
      case Found(e, l) =>
        if !PayloadIntact(sha, t, q.eventId) then (t, AcceptCorrupted)
        else (Refuse(t, q.eventId, DuplicateSeen, now, io),
              ExistingDuplicate(AcceptedEvent(e.eventId, e.journalSequence, e.streamSequence,
                                              l.revision, e.checksum, DuplicateStatus(l.status))))
  }

  function AcceptNew(sha: Hash, t: Tables, q: AcceptRequest, now: int, io: Store): (r: (Tables, AcceptResult))
    ensures !r.1.Accepted? ==> r.0 == t.(writeAttempts := r.0.writeAttempts)
  {
    if ProducerConflict(t, q) then
      (Refuse(t, q.eventId, SequenceRefused, now, io), SequenceConflict)
    else if io.WriteFails? || Find(t.envelopes, q.eventId).Some? then (t, AcceptError)
    else
      var e := NewEnvelope(sha, t, q, now);
      (Insert(sha, t, q, now),
       Accepted(AcceptedEvent(e.eventId, e.journalSequence, e.streamSequence, 1, e.checksum, LocalAccepted)))
  }

  function Accept(sha: Hash, t: Tables, site: Site, q: AcceptRequest, now: int, io: Store): (r: (Tables, AcceptResult))
    ensures !r.1.Accepted? ==> r.0 == t.(writeAttempts := r.0.writeAttempts)
  {
    if site.shutdown then (t, ShuttingDown)
    else if !site.diskSafe then (t, DiskUnsafe)
    else if |q.payload| > site.maxPayload || q.eventId == "" || q.installationId == "" then (t, AcceptError)
    else if io.ReadFails? then (t, AcceptCorrupted)
    else if q.eventId in t.dedup then AcceptKnown(sha, t, q, now, io)
    else AcceptNew(sha, t, q, now, io)
  }

  // ---------------------------------------------------------------------------------------
  // Compare-and-set updates
  // ---------------------------------------------------------------------------------------

  type LocalStatus = s: Status | s.LocalAccepted? || s.Pending? || s.Blocked? witness LocalAccepted

  function NextLifecycle(sha: Hash, id: string, l: Lifecycle, status: Status, now: int): Lifecycle {
    Lifecycle(l.revision + 1, LifecycleChecksum(sha, id, l.revision + 1, status), status, now)
  }

  function UpdateLifecycle(sha: Hash, t: Tables, id: string, expected: int, status: LocalStatus, now: int, io: Store)
    : (r: (Tables, CasResult))
    ensures r.1 != Updated ==> r.0 == t
    ensures r.0 == t.(lifecycles := r.0.lifecycles)
  {
    if io.ReadFails? then (t, Corrupted)
    else
      match GetStatus(sha, t, id)
      case Unknown => (t, NotFound)
      case BadStatus => (t, Corrupted)
      case Found(_, l) =>
        if l.revision != expected then (t, StaleRevision)
        else if io.WriteFails? then (t, Error)
        else (t.(lifecycles := t.lifecycles[id := NextLifecycle(sha, id, l, status, now)]), Updated)
  }

  /** At most the row of event `id` differs. */
  predicate OnlyRow(t: Tables, u: Tables, id: string) {
    u.deliveries == t.deliveries || (id in u.deliveries && u.deliveries == t.deliveries[id := u.deliveries[id]])
  }

  /** The row an operation leaves: the in-memory record sealed with its own checksum. */
  function Seal(sha: Hash, id: string, r: DeliveryRow): (sealed: DeliveryRow)
    ensures sealed == r.(checksum := sealed.checksum)
  {
    r.(checksum := DeliveryChecksum(sha, id, r))
  }

  function PendingRow(fingerprint: Checksum, profileId: string, profileVersion: int, topic: string, now: int): DeliveryRow {
    DeliveryRow(Pending, 0, None, None, None, Some(topic), None, None, Some(fingerprint),
                Some(profileId), Some(profileVersion), 1, ZeroChecksum(), None, now, now)
  }

  function CreatePending(sha: Hash, t: Tables, id: string, fingerprint: Checksum, profileId: string,
                         profileVersion: int, topic: string, now: int, io: Store): (r: (Tables, CasResult))
    ensures r.1 != Updated ==> r.0 == t
    ensures OnlyRow(t, r.0, id)
    ensures r.1 == Updated ==> Find(t.envelopes, id).Some? && r.0.deliveries.Keys == t.deliveries.Keys + {id}
    ensures r.0 == t.(deliveries := r.0.deliveries)
  {
    if io.ReadFails? then (t, Error)
    else if Find(t.envelopes, id).None? then (t, NotFound)
    else if io.WriteFails? || id in t.deliveries then (t, Error)
    else (t.(deliveries := t.deliveries[id := Seal(sha, id, PendingRow(fingerprint, profileId, profileVersion, topic, now))]),
          Updated)
  }

  function AttemptedRow(r: DeliveryRow, error: Option<string>, now: int): DeliveryRow {
    r.(attemptCount := r.attemptCount + 1, lastError := error, updatedAtMs := now)
  }

  function RecordAttempt(sha: Hash, t: Tables, id: string, a: DeliveryAttempt, now: int, io: Store): (r: (Tables, CasResult))
    ensures r.1 != Updated ==> r.0 == t
    ensures OnlyRow(t, r.0, id)
    ensures r.0.deliveries.Keys == t.deliveries.Keys
    ensures r.0 == t.(deliveries := r.0.deliveries, deliveryAttempts := r.0.deliveryAttempts)
  {
    if io.ReadFails? then (t, Error)
    else
      match Load(sha, t, id)
      case Absent => (t, NotFound)
      case Damaged => (t, Corrupted)
      case Present(row) =>
        if io.WriteFails? then (t, Error)
        else (t.(deliveries := t.deliveries[id := Seal(sha, id, AttemptedRow(row, a.errorCode, now))],
                 deliveryAttempts := t.deliveryAttempts[id := Newest(LogOf(t.deliveryAttempts, id) + [a])]),
              Updated)
  }

  datatype Confirmation = Confirmation(
    fingerprint: Checksum, profileId: string, profileVersion: int, topic: string, partition: int, offset: int)

  predicate SameRoute(r: DeliveryRow, c: Confirmation) {
    && r.routingFingerprint == Some(c.fingerprint)
    && r.profileId == Some(c.profileId) && r.profileVersion == Some(c.profileVersion)
    && r.kafkaTopic == Some(c.topic)
  }

  predicate SameConfirmation(r: DeliveryRow, c: Confirmation) {
    SameRoute(r, c) && r.kafkaPartition == Some(c.partition) && r.kafkaOffset == Some(c.offset)
  }

  function ConfirmedRow(r: DeliveryRow, c: Confirmation, now: int): DeliveryRow {
    r.(status := Replicated, nextRetryAtMs := None, lastError := None, blockedReason := None,
       kafkaTopic := Some(c.topic), kafkaPartition := Some(c.partition), kafkaOffset := Some(c.offset),
       revision := r.revision + 1, confirmedAtMs := Some(now), updatedAtMs := now)
  }

  function Confirm(sha: Hash, t: Tables, id: string, expected: int, c: Confirmation, now: int, io: Store): (r: (Tables, CasResult))
    ensures r.1 != Updated ==> r.0 == t
    ensures OnlyRow(t, r.0, id)
    ensures r.0.deliveries.Keys == t.deliveries.Keys
    ensures r.0 == t.(deliveries := r.0.deliveries, lifecycles := r.0.lifecycles)
  {
    if io.ReadFails? then (t, Error)
    else
      match Load(sha, t, id)
      case Absent => (t, NotFound)
      case Damaged => (t, Corrupted)
      case Present(row) =>
        var s := GetStatus(sha, t, id);
        if !s.Found? then (t, Corrupted)
        else if row.status == Replicated then
          (t, if s.lifecycle.status == Replicated && SameConfirmation(row, c) then AlreadyConfirmed else Corrupted)
        else if row.revision != expected then (t, StaleRevision)
        else if !SameRoute(row, c) then (t, Corrupted)
        else if io.WriteFails? then (t, Error)
        else (t.(deliveries := t.deliveries[id := Seal(sha, id, ConfirmedRow(row, c, now))],
                 lifecycles := t.lifecycles[id := NextLifecycle(sha, id, s.lifecycle, Replicated, now)]),
              Updated)
  }

  function BlockedRow(r: DeliveryRow, reason: string, now: int): DeliveryRow {
    r.(status := Blocked, nextRetryAtMs := None, blockedReason := Some(reason),
       revision := r.revision + 1, updatedAtMs := now)
  }

  function Block(sha: Hash, t: Tables, id: string, expected: int, reason: string, now: int, io: Store): (r: (Tables, CasResult))
    ensures r.1 != Updated ==> r.0 == t
    ensures OnlyRow(t, r.0, id)
    ensures r.0.deliveries.Keys == t.deliveries.Keys
    ensures r.0 == t.(deliveries := r.0.deliveries, lifecycles := r.0.lifecycles)
  {
    if io.ReadFails? then (t, Error)
    else
      match Load(sha, t, id)
      case Absent => (t, NotFound)
      case Damaged => (t, Corrupted)
      case Present(row) =>
        var s := GetStatus(sha, t, id);
        if !s.Found? then (t, Corrupted)
        else if row.revision != expected then (t, StaleRevision)
        else if row.status == Replicated then (t, InvalidTransition)
        else if io.WriteFails? then (t, Error)
        else (t.(deliveries := t.deliveries[id := Seal(sha, id, BlockedRow(row, reason, now))],
                 lifecycles := t.lifecycles[id := NextLifecycle(sha, id, s.lifecycle, Blocked, now)]),
              Updated)
  }

  /** A retry from BLOCKED keeps the blocked reason. */
  function RetryingRow(r: DeliveryRow, nextRetryAtMs: int, now: int): DeliveryRow {
    r.(status := Retrying, nextRetryAtMs := Some(nextRetryAtMs), revision := r.revision + 1, updatedAtMs := now)
  }

  function Retry(sha: Hash, t: Tables, id: string, expected: int, nextRetryAtMs: int, now: int, io: Store): (r: (Tables, CasResult))
    ensures r.1 != Updated ==> r.0 == t
    ensures OnlyRow(t, r.0, id)
    ensures r.0.deliveries.Keys == t.deliveries.Keys
    ensures r.0 == t.(deliveries := r.0.deliveries)
  {
    if io.ReadFails? then (t, Error)
    else
      match Load(sha, t, id)
      case Absent => (t, NotFound)
      case Damaged => (t, Corrupted)
      case Present(row) =>
        if row.revision != expected then (t, StaleRevision)
        else if row.status == Replicated then (t, InvalidTransition)
        else if io.WriteFails? then (t, Error)
        else (t.(deliveries := t.deliveries[id := Seal(sha, id, RetryingRow(row, nextRetryAtMs, now))]), Updated)
  }

  // ---------------------------------------------------------------------------------------
  // Gate scan
  // ---------------------------------------------------------------------------------------

  /** `scan_delivery_gate_states` without its limit: the envelopes that have a delivery row, in
      journal order, or nothing when any scanned row fails verification. */
  function ScanRows(t: Tables, envelopes: seq<Envelope>): (rows: seq<Envelope>)
    ensures forall e :: e in rows ==> e in envelopes && e.eventId in t.deliveries
  {
    if envelopes == [] then []
    else
      var rest := ScanRows(t, envelopes[..|envelopes| - 1]);
      var last := envelopes[|envelopes| - 1];
      if last.eventId in t.deliveries then rest + [last] else rest
  }

  function Cut<T>(rows: seq<T>, limit: nat): seq<T> {
    if |rows| <= limit then rows else rows[..limit]
  }

  predicate Verified(sha: Hash, t: Tables, e: Envelope) {
    Load(sha, t, e.eventId).Present? && e.checksum == EnvelopeChecksum(sha, e)
  }

  predicate AllVerified(sha: Hash, t: Tables, rows: seq<Envelope>) {
    forall i :: 0 <= i < |rows| ==> Verified(sha, t, rows[i])
  }

  function Scan(sha: Hash, t: Tables, limit: nat, io: Store): (r: Option<seq<Envelope>>) {
    var rows := Cut(ScanRows(t, t.envelopes), limit);
    if io.ReadFails? || !AllVerified(sha, t, rows) then None else Some(rows)
  }
}
