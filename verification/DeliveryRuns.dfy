/** The delivery service as a transition system. One step is one journal call of the service
    together with the gate updates that follow it, so other users of the shared journal may act
    between any two of them and the process may stop after any of them. */
module DeliveryRuns {
  import opened Common
  import opened Records
  import opened Journal
  import opened JournalRuns
  import opened Gate
  import opened Delivery

  /** The production profile; `fault` is the rendered reason it is unsafe for delivery, if any. */
  datatype Profile = Profile(id: string, version: int, fault: Option<string>)

  /** Where `attempt_delivery` stands. */
  datatype Phase =
    | Idle
    | Refusing(c: Candidate, reason: string)                  // about to call block_delivery, nothing sent
    | Admitted(c: Candidate, route: Route)                    // about to read the payload
    | InFlight(c: Candidate, route: Route)                    // sent, the broker has not answered
    | Settling(c: Candidate, error: SendError, failedAt: int) // failed attempt recorded, retry or block comes next

  /** A request handed to the broker, with the tables as they were at that moment. */
  datatype Send = Send(stream: string, sequence: int, envelope: Envelope, at: Tables, topic: string, payload: string)

  datatype World = World(tables: Tables, gate: Streams, phase: Phase, sends: seq<Send>)

  datatype Action =
    | Begin(id: string, io: Store)
    | PersistBlock(now: int, io: Store)
    | SendPayload(io: Store)
    | BrokerAccepts(topic: string, partition: int, offset: int, now: int, io: Store)
    | BrokerFails(error: SendError, now: int, io: Store)
    | Settle(now: int, io: Store)
    | Restart
    | Recover(limit: nat, io: Store)
    | Other(op: Op)

  const START := World(EMPTY, map[], Idle, [])

  // ---------------------------------------------------------------------------------------
  // Steps of the service
  // ---------------------------------------------------------------------------------------

  /** Reasons to block a delivery before it is sent, in the order they are tried. */
  function Refusal(sha: Hash, p: Profile, c: Candidate): (r: Option<string>)
    ensures r.None? ==> ResolveRouting(sha, c.envelope).Routed?
  {
    match ResolveRouting(sha, c.envelope)
    case UnsupportedRoutingVersion => Some("routing error: UnsupportedRoutingVersion")
    case EmptyField => Some("routing error: EmptyField")
    case Routed(route) =>
      if c.row.routingFingerprint != Some(route.checksum) then Some("routing fingerprint mismatch")
      else if c.row.profileId != Some(p.id) then Some("profile ID mismatch")
      else if c.row.profileVersion != Some(p.version) then Some("profile version mismatch")
      else if c.row.kafkaTopic != Some(route.topic) then Some("routing topic mismatch")
      else if p.fault.Some? then Some("unsafe Kafka production profile: " + p.fault.value)
      else None
  }

  function BeginStep(sha: Hash, p: Profile, w: World, id: string, io: Store): World
    requires w.phase.Idle?
  {
    var found := GetCandidate(sha, w.tables, id);
    if io.ReadFails? || !found.Ready? then w
    else
      var c := found.candidate;
      var key, n := c.envelope.streamKey, c.envelope.streamSequence;
      if Check(w.gate, key, n) != Allowed then w
      else if c.row.status == Replicated then
        if c.row.kafkaPartition.Some? && c.row.kafkaOffset.Some? then w.(gate := MarkCompleted(w.gate, key, n)) else w
      else if c.row.status == Blocked then w.(gate := MarkBlocking(w.gate, key, n))
      else
        var refusal := Refusal(sha, p, c);
        if refusal.Some? then w.(phase := Refusing(c, refusal.value))
        else w.(phase := Admitted(c, ResolveRouting(sha, c.envelope).route))
  }

  function PersistBlockStep(sha: Hash, w: World, now: int, io: Store): World
    requires w.phase.Refusing?
  {
    var c := w.phase.c;
    var r := Block(sha, w.tables, c.envelope.eventId, c.row.revision, w.phase.reason, now, io);
    if r.1 == Updated
    then w.(tables := r.0, gate := MarkBlocking(w.gate, c.envelope.streamKey, c.envelope.streamSequence), phase := Idle)
    else w.(tables := r.0, phase := Idle)
  }

  function SendStep(sha: Hash, w: World, io: Store): World
    requires w.phase.Admitted?
  {
    var e := w.phase.c.envelope;
    var payload := ReadPayload(sha, w.tables, e.eventId);
    if io.ReadFails? || payload.None?
    then w.(gate := MarkBlocking(w.gate, e.streamKey, e.streamSequence), phase := Idle)
    else w.(gate := MarkInFlight(w.gate, e.streamKey, e.streamSequence),
            phase := InFlight(w.phase.c, w.phase.route),
            sends := w.sends + [Send(w.phase.route.partitionKey, e.streamSequence, e, w.tables, w.phase.route.topic, payload.value)])
  }

  function AcceptedStep(sha: Hash, p: Profile, w: World, topic: string, partition: int, offset: int, now: int, io: Store): World
    requires w.phase.InFlight?
  {
    var e := w.phase.c.envelope;
    var conf := Confirmation(w.phase.route.checksum, p.id, p.version, topic, partition, offset);
    var r := Confirm(sha, w.tables, e.eventId, w.phase.c.row.revision, conf, now, io);
    var gate := if r.1 == Updated || r.1 == AlreadyConfirmed
                then MarkCompleted(w.gate, e.streamKey, e.streamSequence)
                else MarkBlocking(w.gate, e.streamKey, e.streamSequence);
    w.(tables := r.0, gate := gate, phase := Idle)
  }

  function FailedAttempt(p: Profile, c: Candidate, route: Route, error: SendError, now: int): DeliveryAttempt {
    DeliveryAttempt(c.row.attemptCount + 1,
                    if Permanent(error) then "PERMANENT_FAILURE" else "TRANSIENT_FAILURE",
                    Some(ErrorText(error)), Some(route.topic), Some(p.id), Some(p.version), now)
  }

  /** When the attempt cannot be recorded the sequence stays in flight until a restart. */
  function FailedStep(sha: Hash, p: Profile, w: World, error: SendError, now: int, io: Store): World
    requires w.phase.InFlight?
  {
    var c := w.phase.c;
    var r := RecordAttempt(sha, w.tables, c.envelope.eventId, FailedAttempt(p, c, w.phase.route, error, now), now, io);
    w.(tables := r.0, phase := if r.1 == Updated then Settling(c, error, now) else Idle)
  }

  /** The journal call after a recorded failure. */
  function SettleCall(sha: Hash, t: Tables, c: Candidate, error: SendError, failedAt: int, now: int, io: Store): (Tables, CasResult) {
    var id, count := c.envelope.eventId, c.row.attemptCount + 1;
    var schedule := ComputeNextRetry(count, failedAt);
    if ShouldRetry(error, count) then
      if schedule.RetryAt? then Retry(sha, t, id, c.row.revision, schedule.nextRetryAtMs, now, io)
      else Block(sha, t, id, c.row.revision, "retry exhausted", now, io)
    else Block(sha, t, id, c.row.revision, "permanent failure: " + ErrorText(error), now, io)
  }

  function SettleStep(sha: Hash, w: World, now: int, io: Store): World
    requires w.phase.Settling?
  {
    var c := w.phase.c;
    var r := SettleCall(sha, w.tables, c, w.phase.error, w.phase.failedAt, now, io);
    if r.1 == Updated
    then w.(tables := r.0, gate := MarkBlocking(w.gate, c.envelope.streamKey, c.envelope.streamSequence), phase := Idle)
    else w.(tables := r.0, phase := Idle)
  }

  function ToRecovered(t: Tables, e: Envelope): Recovered {
    var done := e.eventId in t.deliveries && t.deliveries[e.eventId].status == Replicated;
    Recovered(e.streamKey, e.streamSequence, done, !done, false)
  }

  function ToRecoveredAll(t: Tables, rows: seq<Envelope>): (states: seq<Recovered>)
    ensures |states| == |rows|
    ensures forall i :: 0 <= i < |rows| ==> states[i] == ToRecovered(t, rows[i])
  {
    seq(|rows|, i requires 0 <= i < |rows| => ToRecovered(t, rows[i]))
  }

  /** A failed scan leaves the gate as it was. */
  function RecoverStep(sha: Hash, w: World, limit: nat, io: Store): World {
    var rows := Scan(sha, w.tables, limit, io);
    if rows.None? then w else w.(gate := RecoverFrom(ToRecoveredAll(w.tables, rows.value)))
  }

  /** An action that does not fit the phase changes nothing. */
  function Step(sha: Hash, p: Profile, w: World, a: Action): World {
    match a
    case Begin(id, io) => if w.phase.Idle? then BeginStep(sha, p, w, id, io) else w
    case PersistBlock(now, io) => if w.phase.Refusing? then PersistBlockStep(sha, w, now, io) else w
    case SendPayload(io) => if w.phase.Admitted? then SendStep(sha, w, io) else w
    case BrokerAccepts(topic, partition, offset, now, io) =>
      if w.phase.InFlight? then AcceptedStep(sha, p, w, topic, partition, offset, now, io) else w
    case BrokerFails(error, now, io) => if w.phase.InFlight? then FailedStep(sha, p, w, error, now, io) else w
    case Settle(now, io) => if w.phase.Settling? then SettleStep(sha, w, now, io) else w
    case Restart => w.(gate := map[], phase := Idle)
    case Recover(limit, io) => if w.phase.Idle? then RecoverStep(sha, w, limit, io) else w
    case Other(op) => w.(tables := Apply(sha, w.tables, op).0)
  }

  function Run(sha: Hash, p: Profile, actions: seq<Action>): World {
    if actions == [] then START else Step(sha, p, Run(sha, p, actions[..|actions| - 1]), actions[|actions| - 1])
  }

  // ---------------------------------------------------------------------------------------
  // What the rest of the system may do
  // ---------------------------------------------------------------------------------------

  /** The raw stream key and the composed key name the same streams. The second direction fails only
      with NULs inside names. */
  ghost predicate KeyFits(t: Tables, q: AcceptRequest) {
    forall e :: e in t.envelopes ==> (e.streamKey == q.streamKey <==> StreamOf(e) == RequestStream(q))
  }

  /** Delivery rows are created in stream order. */
  ghost predicate CreatedInOrder(t: Tables, id: string) {
    forall x, e ::
      Find(t.envelopes, id) == Some(x) && e in t.envelopes && StreamOf(e) == StreamOf(x) && e.streamSequence < x.streamSequence ==>
        e.eventId in t.deliveries
  }

  /** Other users may accept, create rows in order, block, retry, record attempts and update
      lifecycles at will; only the service confirms. */
  ghost predicate Admissible(t: Tables, a: Action) {
    a.Other? ==>
      && !a.op.OpConfirm?
      && (a.op.OpAccept? ==> KeyFits(t, a.op.request))
      && (a.op.OpCreate? ==> CreatedInOrder(t, a.op.id))
  }

  ghost predicate AdmissibleRun(sha: Hash, p: Profile, actions: seq<Action>) {
    forall i :: 0 <= i < |actions| ==> Admissible(Run(sha, p, actions[..i]).tables, actions[i])
  }

  // ---------------------------------------------------------------------------------------
  // The ordering guarantee
  // ---------------------------------------------------------------------------------------

  /** The last sequence sent on a stream, 0 before the first. */
  function LastSent(sends: seq<Send>, stream: string): int {
    if sends == [] then 0
    else if sends[|sends| - 1].stream == stream then sends[|sends| - 1].sequence
    else LastSent(sends[..|sends| - 1], stream)
  }

  /** Each send repeats the last sequence of its stream or is the next one; the first is 1. */
  ghost predicate Staircase(sends: seq<Send>) {
    sends != [] ==>
      var n := |sends| - 1;
      var last := LastSent(sends[..n], sends[n].stream);
      && Staircase(sends[..n])
      && sends[n].sequence >= 1
      && (sends[n].sequence == last || sends[n].sequence == last + 1)
  }

  predicate Done(t: Tables, e: Envelope) {
    e.eventId in t.deliveries && t.deliveries[e.eventId].status == Replicated
  }

  /** At the moment of each send, every earlier event of the stream was persisted REPLICATED. */
  ghost predicate SentAfterPredecessors(sends: seq<Send>) {
    forall i :: 0 <= i < |sends| ==>
      forall e :: e in sends[i].at.envelopes && StreamOf(e) == sends[i].stream && e.streamSequence < sends[i].sequence ==>
        Done(sends[i].at, e)
  }
}
