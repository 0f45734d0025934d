/** `LocalJournal` in its own form: an object whose methods run SQL statements on mutable
    tables. Every method is proved to compute the corresponding function of module Journal, so
    that the column-wise UPDATE statements leave exactly the in-memory record whose checksum
    was computed. */
module JournalObject {
  import opened Common
  import opened NulText
  import opened Records
  import opened Journal

  class LocalJournal {
    const sha: Hash
    const maxPayload: nat
    var envelopes: seq<Envelope>
    var payloads: map<string, Payload>
    var lifecycles: map<string, Lifecycle>
    var dedup: map<string, Checksum>
    var producers: map<string, ProducerHead>
    var streamHeads: map<string, int>
    var writeAttempts: map<string, seq<WriteAttempt>>
    var deliveries: map<string, DeliveryRow>
    var deliveryAttempts: map<string, seq<DeliveryAttempt>>
    var shutdown: bool

    function Contents(): Tables
      reads this
    {
      Tables(envelopes, payloads, lifecycles, dedup, producers, streamHeads, writeAttempts, deliveries, deliveryAttempts)
    }

    constructor (sha: Hash, maxPayload: nat)
      ensures Contents() == EMPTY && !shutdown
      ensures this.sha == sha && this.maxPayload == maxPayload
    {
      this.sha := sha;
      this.maxPayload := maxPayload;
      envelopes, payloads, lifecycles, dedup := [], map[], map[], map[];
      producers, streamHeads, writeAttempts := map[], map[], map[];
      deliveries, deliveryAttempts, shutdown := map[], map[], false;
    }

    method Shutdown()
      modifies this`shutdown
      ensures shutdown
    {
      shutdown := true;
    }

    /** `SELECT COALESCE(MAX(journal_sequence), 0) + 1 FROM stored_envelope`. */
    method AllocateJournalSequence() returns (next: int)
      ensures next == MaxSequence(envelopes) + 1
    {
      var max := 0;
      for i := 0 to |envelopes|
        invariant max == MaxSequence(envelopes[..i])
      {
        assert envelopes[..i + 1][..i] == envelopes[..i];
        if envelopes[i].journalSequence > max {
          max := envelopes[i].journalSequence;
        }
      }
      assert envelopes[..|envelopes|] == envelopes;
      next := max + 1;
    }

    /** `record_attempt`: its statements may fail without failing the transaction. */
    method RecordWriteAttempt(id: string, outcome: WriteOutcome, now: int, io: Store)
      modifies this`writeAttempts
      ensures Contents() == Refuse(old(Contents()), id, outcome, now, io)
    {
      if !io.WriteFails? {
        var log := LogOf(writeAttempts, id) + [WriteAttempt(outcome, now)];
        if |log| > MAX_ATTEMPTS {
          log := log[|log| - MAX_ATTEMPTS..];
        }
        writeAttempts := writeAttempts[id := log];
      }
    }

    method AcceptEvent(q: AcceptRequest, diskSafe: bool, now: int, io: Store) returns (r: AcceptResult)
      modifies this`envelopes, this`payloads, this`lifecycles, this`dedup, this`producers, this`streamHeads, this`writeAttempts
      ensures (Contents(), r) == Accept(sha, old(Contents()), Site(shutdown, diskSafe, maxPayload), q, now, io)
    {
      hide AcceptKnown, AcceptNew;
      if shutdown {
        return ShuttingDown;
      }
      if !diskSafe {
        return DiskUnsafe;
      }
      if |q.payload| > maxPayload {
        return AcceptError;
      }
      if q.eventId == "" || q.installationId == "" {
        return AcceptError;
      }
      if io.ReadFails? {
        return AcceptCorrupted;
      }
      if q.eventId in dedup {
        r := AnswerKnown(q, now, io);
      } else {
        r := AdmitNew(q, now, io);
      }
    }

    method AnswerKnown(q: AcceptRequest, now: int, io: Store) returns (r: AcceptResult)
      requires q.eventId in dedup
      modifies this`writeAttempts
      ensures (Contents(), r) == AcceptKnown(sha, old(Contents()), q, now, io)
    {
      hide GetStatus, PayloadIntact, Refuse;
      if dedup[q.eventId] == q.fingerprint {
        var status := GetStatus(sha, Contents(), q.eventId);
        if status.Unknown? {
          return AcceptError;
        }
        if status.BadStatus? || !PayloadIntact(sha, Contents(), q.eventId) {
          return AcceptCorrupted;
        }
        var seen := match status.lifecycle.status
          case LocalAccepted => LocalAccepted
          case Pending => Pending
          case _ => Blocked;
        RecordWriteAttempt(q.eventId, DuplicateSeen, now, io);
        return ExistingDuplicate(AcceptedEvent(
          status.envelope.eventId, status.envelope.journalSequence, status.envelope.streamSequence,
          status.lifecycle.revision, status.envelope.checksum, seen));
      }
      RecordWriteAttempt(q.eventId, FingerprintRefused, now, io);
      r := FingerprintConflict;
    }

    method AdmitNew(q: AcceptRequest, now: int, io: Store) returns (r: AcceptResult)
      modifies this`envelopes, this`payloads, this`lifecycles, this`dedup, this`producers, this`streamHeads, this`writeAttempts
      ensures (Contents(), r) == AcceptNew(sha, old(Contents()), q, now, io)
    {
      hide MaxSequence, Find, EnvelopeBytes, ComposedKey, ProducerKey, Insert;
      var producerKey := RequestProducer(q);
      if producerKey in producers {
        var head := producers[producerKey];
        if q.producerOpSeq <= head.highest && head.lastEventId != q.eventId {
          RecordWriteAttempt(q.eventId, SequenceRefused, now, io);
          return SequenceConflict;
        }
      }
      var payloadDigest := sha(q.payload);
      var journalSequence := AllocateJournalSequence();
      var streamKey := RequestStream(q);
      var streamSequence := 1;
      if streamKey in streamHeads {
        streamSequence := streamHeads[streamKey] + 1;
      }
      if io.WriteFails? || Find(envelopes, q.eventId).Some? {
        return AcceptError;
      }
      var row := Envelope(
        journalSequence, q.eventId, q.installationId, q.producerId, q.producerInstanceId, q.producerOpSeq,
        q.ns, q.streamType, q.streamKey, q.eventType, q.schemaVersion, streamSequence, payloadDigest,
        q.fingerprint, ZeroChecksum(), q.installationId + "/" + q.eventId, |q.payload|, q.routingVersion, now);
      var envelopeChecksum := EnvelopeChecksum(sha, row);
      row := row.(checksum := envelopeChecksum);
      InsertRows(q, row, now, io);
      r := Accepted(AcceptedEvent(q.eventId, journalSequence, streamSequence, 1, envelopeChecksum, LocalAccepted));
    }

    /** The INSERT statements of an acceptance, committed together. */
    method InsertRows(q: AcceptRequest, row: Envelope, now: int, io: Store)
      requires !io.WriteFails? && row == NewEnvelope(sha, Contents(), q, now)
      modifies this`envelopes, this`payloads, this`lifecycles, this`dedup, this`producers, this`streamHeads, this`writeAttempts
      ensures Contents() == Insert(sha, old(Contents()), q, now)
    {
      hide NewEnvelope, LifecycleChecksum, ComposedKey, ProducerKey;
      streamHeads := streamHeads[RequestStream(q) := row.streamSequence];
      envelopes := envelopes + [row];
      payloads := payloads[q.eventId := Payload(q.payload, row.payloadDigest)];
      lifecycles := lifecycles[q.eventId := Lifecycle(1, LifecycleChecksum(sha, q.eventId, 1, LocalAccepted), LocalAccepted, now)];
      dedup := dedup[q.eventId := q.fingerprint];
      producers := producers[RequestProducer(q) := ProducerHead(q.producerOpSeq, q.eventId)];
      RecordWriteAttempt(q.eventId, NewlyAccepted, now, io);
    }

    method UpdateLifecycleStatus(id: string, expected: int, status: LocalStatus, now: int, io: Store) returns (r: CasResult)
      modifies this`lifecycles
      ensures (Contents(), r) == UpdateLifecycle(sha, old(Contents()), id, expected, status, now, io)
    {
      hide Render, EnvelopeFields, Words, DeliveryTexts, MaxSequence;
      if io.ReadFails? {
        return Corrupted;
      }
      var current := GetStatus(sha, Contents(), id);
      if current.Unknown? {
        return NotFound;
      }
      if current.BadStatus? {
        return Corrupted;
      }
      if current.lifecycle.revision != expected {
        return StaleRevision;
      }
      if io.WriteFails? {
        return Error;
      }
      var next := expected + 1;
      var sum := LifecycleChecksum(sha, id, next, status);
      lifecycles := lifecycles[id := lifecycles[id].(revision := next, checksum := sum, status := status, updatedAtMs := now)];
      r := Updated;
    }

    method CreateDeliveryPending(id: string, fingerprint: Checksum, profileId: string, profileVersion: int,
                                 topic: string, now: int, io: Store) returns (r: CasResult)
      modifies this`deliveries
      ensures (Contents(), r) == CreatePending(sha, old(Contents()), id, fingerprint, profileId, profileVersion, topic, now, io)
    {
      hide Render, EnvelopeFields, Words, DeliveryTexts, MaxSequence;
      if io.ReadFails? {
        return Error;
      }
      if Find(envelopes, id).None? {
        return NotFound;
      }
      var pending := DeliveryRow(Pending, 0, None, None, None, Some(topic), None, None, Some(fingerprint),
                                 Some(profileId), Some(profileVersion), 1, ZeroChecksum(), None, now, now);
      var sum := DeliveryChecksum(sha, id, pending);
      if io.WriteFails? || id in deliveries {
        return Error;
      }
      // INSERT with the columns the statement names; the others are NULL
      deliveries := deliveries[id := DeliveryRow(Pending, 0, None, None, None, Some(topic), None, None,
                                                 Some(fingerprint), Some(profileId), Some(profileVersion), 1, sum, None, now, now)];
      r := Updated;
    }

    method RecordDeliveryAttempt(id: string, attempt: DeliveryAttempt, now: int, io: Store) returns (r: CasResult)
      modifies this`deliveries, this`deliveryAttempts
      ensures (Contents(), r) == RecordAttempt(sha, old(Contents()), id, attempt, now, io)
    {
      hide Load, GetStatus, DeliveryChecksum, LifecycleChecksum, MaxSequence;
      if io.ReadFails? {
        return Error;
      }
      var loaded := Load(sha, Contents(), id);
      if loaded.Absent? {
        return NotFound;
      }
      if loaded.Damaged? {
        return Corrupted;
      }
      if io.WriteFails? {
        return Error;
      }
      var log := LogOf(deliveryAttempts, id) + [attempt];
      if |log| > MAX_ATTEMPTS {
        log := log[|log| - MAX_ATTEMPTS..];
      }
      deliveryAttempts := deliveryAttempts[id := log];
      var state := loaded.row;
      state := state.(attemptCount := state.attemptCount + 1);
      state := state.(lastError := attempt.errorCode);
      state := state.(updatedAtMs := now);
      var sum := DeliveryChecksum(sha, id, state);
      // UPDATE delivery_state SET attempt_count = attempt_count + 1, last_error, delivery_checksum, updated_at_ms
      var stored := deliveries[id];
      deliveries := deliveries[id := stored.(attemptCount := stored.attemptCount + 1, lastError := attempt.errorCode,
                                              checksum := sum, updatedAtMs := now)];
      r := Updated;
    }

    /** `update_lifecycle_delivery_status`, guarded by the revision that was read. */
    method SetLifecycleStatus(id: string, current: Lifecycle, status: Status, now: int)
      requires id in lifecycles && lifecycles[id] == current
      modifies this`lifecycles
      ensures lifecycles == old(lifecycles)[id := NextLifecycle(sha, id, current, status, now)]
    {
      var revision := current.revision + 1;
      var sum := LifecycleChecksum(sha, id, revision, status);
      lifecycles := lifecycles[id := lifecycles[id].(revision := revision, checksum := sum, status := status, updatedAtMs := now)];
    }

    method ConfirmReplicatedDelivery(id: string, expected: int, c: Confirmation, now: int, io: Store) returns (r: CasResult)
      modifies this`deliveries, this`lifecycles
      ensures (Contents(), r) == Confirm(sha, old(Contents()), id, expected, c, now, io)
    {
      hide Load, GetStatus, DeliveryChecksum, LifecycleChecksum, MaxSequence;
      if io.ReadFails? {
        return Error;
      }
      var loaded := Load(sha, Contents(), id);
      if loaded.Absent? {
        return NotFound;
      }
      if loaded.Damaged? {
        return Corrupted;
      }
      var current := loaded.row;
      var status := GetStatus(sha, Contents(), id);
      if !status.Found? {
        return Corrupted;
      }
      if current.status == Replicated {
        if status.lifecycle.status != Replicated {
          return Corrupted;
        }
        var same := SameConfirmation(current, c);
        return if same then AlreadyConfirmed else Corrupted;
      }
      if current.revision != expected {
        return StaleRevision;
      }
      if current.routingFingerprint != Some(c.fingerprint) {
        return Corrupted;
      }
      if current.profileId != Some(c.profileId) || current.profileVersion != Some(c.profileVersion) {
        return Corrupted;
      }
      if current.kafkaTopic != Some(c.topic) {
        return Corrupted;
      }
      var revision := expected + 1;
      var next := current.(status := Replicated, nextRetryAtMs := None, lastError := None, blockedReason := None);
      next := next.(kafkaTopic := Some(c.topic), kafkaPartition := Some(c.partition), kafkaOffset := Some(c.offset));
      next := next.(revision := revision, confirmedAtMs := Some(now), updatedAtMs := now);
      var sum := DeliveryChecksum(sha, id, next);
      if io.WriteFails? {
        return Error;
      }
      deliveries := deliveries[id := deliveries[id].(
        status := Replicated, kafkaTopic := Some(c.topic), kafkaPartition := Some(c.partition),
        kafkaOffset := Some(c.offset), revision := revision, checksum := sum, confirmedAtMs := Some(now),
        updatedAtMs := now, nextRetryAtMs := None, lastError := None, blockedReason := None)];
      SetLifecycleStatus(id, status.lifecycle, Replicated, now);
      r := Updated;
    }

    method BlockDelivery(id: string, expected: int, reason: string, now: int, io: Store) returns (r: CasResult)
      modifies this`deliveries, this`lifecycles
      ensures (Contents(), r) == Block(sha, old(Contents()), id, expected, reason, now, io)
    {
      hide Load, GetStatus, DeliveryChecksum, LifecycleChecksum, MaxSequence;
      if io.ReadFails? {
        return Error;
      }
      var loaded := Load(sha, Contents(), id);
      if loaded.Absent? {
        return NotFound;
      }
      if loaded.Damaged? {
        return Corrupted;
      }
      var current := loaded.row;
      var status := GetStatus(sha, Contents(), id);
      if !status.Found? {
        return Corrupted;
      }
      if current.revision != expected {
        return StaleRevision;
      }
      if current.status == Replicated {
        return InvalidTransition;
      }
      var revision := expected + 1;
      var next := current.(status := Blocked, nextRetryAtMs := None, blockedReason := Some(reason));
      next := next.(revision := revision, updatedAtMs := now);
      var sum := DeliveryChecksum(sha, id, next);
      if io.WriteFails? {
        return Error;
      }
      deliveries := deliveries[id := deliveries[id].(
        status := Blocked, blockedReason := Some(reason), revision := revision, checksum := sum,
        updatedAtMs := now, nextRetryAtMs := None)];
      SetLifecycleStatus(id, status.lifecycle, Blocked, now);
      r := Updated;
    }

    method UpdateDeliveryRetry(id: string, expected: int, nextRetryAtMs: int, now: int, io: Store) returns (r: CasResult)
      modifies this`deliveries
      ensures (Contents(), r) == Retry(sha, old(Contents()), id, expected, nextRetryAtMs, now, io)
    {
      hide Load, GetStatus, DeliveryChecksum, LifecycleChecksum, MaxSequence;
      if io.ReadFails? {
        return Error;
      }
      var loaded := Load(sha, Contents(), id);
      if loaded.Absent? {
        return NotFound;
      }
      if loaded.Damaged? {
        return Corrupted;
      }
      var current := loaded.row;
      if current.revision != expected {
        return StaleRevision;
      }
      if current.status == Replicated {
        return InvalidTransition;
      }
      var revision := expected + 1;
      var next := current.(status := Retrying, nextRetryAtMs := Some(nextRetryAtMs));
      next := next.(revision := revision, updatedAtMs := now);
      var sum := DeliveryChecksum(sha, id, next);
      if io.WriteFails? {
        return Error;
      }
      deliveries := deliveries[id := deliveries[id].(
        status := Retrying, nextRetryAtMs := Some(nextRetryAtMs), revision := revision, checksum := sum, updatedAtMs := now)];
      r := Updated;
    }

    /** `scan_delivery_gate_states` with `collect_delivery_scan`: verify each row, stop at the first bad one. */
    method ScanDeliveryGateStates(limit: nat, io: Store) returns (r: Option<seq<Envelope>>)
      ensures r == Scan(sha, Contents(), limit, io)
    {
      hide Verified, ScanRows, Cut;
      if io.ReadFails? {
        return None;
      }
      var t := Contents();
      var rows := Cut(ScanRows(t, envelopes), limit);
      var collected := [];
      for i := 0 to |rows|
        invariant collected == rows[..i]
        invariant forall k :: 0 <= k < i ==> Verified(sha, t, rows[k])
      {
        if !Verified(sha, t, rows[i]) {
          return None;
        }
        collected := collected + [rows[i]];
      }
      assert collected == rows;
      r := Some(collected);
    }
  }
}
