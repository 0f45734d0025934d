/** `DeliveryService` in its own form: an object that drives one event through the journal, the
    gate and the broker. Its methods are proved to be runs of the transition system. */
module ServiceObject {
  import opened Common
  import opened Records
  import opened Journal
  import opened JournalTheorems
  import opened JournalObject
  import opened Gate
  import opened Delivery
  import opened DeliveryRuns

  datatype DeliveryOutcome =
    | Delivered(partition: int, offset: int)
    | WillRetry(nextRetryAtMs: int)
    | Stopped(reason: string)
    | GateHeld(waitingFor: int)
    | Failed

  datatype BrokerAnswer = Success(topic: string, partition: int, offset: int) | Failure(error: SendError)

  /** Everything one attempt meets outside the service: the broker's answer, the clock, and the
      database's behaviour at each of its calls. */
  datatype Surroundings = Surroundings(
    answer: BrokerAnswer, now: int, onLoad: Store, onPayload: Store, onBlock: Store, onAnswer: Store, onSettle: Store)

  /** The steps of one attempt; those that do not fit the phase reached are idle. */
  function AttemptActions(id: string, s: Surroundings): (actions: seq<Action>)
    ensures |actions| == 5
  {
    [ Begin(id, s.onLoad),
      PersistBlock(s.now, s.onBlock),
      SendPayload(s.onPayload),
      match s.answer
        case Success(topic, partition, offset) => BrokerAccepts(topic, partition, offset, s.now, s.onAnswer)
        case Failure(error) => BrokerFails(error, s.now, s.onAnswer),
      Settle(s.now, s.onSettle) ]
  }

  /** Continue a run from a given world. */
  function Perform(sha: Hash, p: Profile, w: World, actions: seq<Action>): World
    decreases |actions|
  {
    if actions == [] then w
    else Step(sha, p, Perform(sha, p, w, actions[..|actions| - 1]), actions[|actions| - 1])
  }

  lemma {:induction false} RunContinues(sha: Hash, p: Profile, before: seq<Action>, actions: seq<Action>)
    ensures Run(sha, p, before + actions) == Perform(sha, p, Run(sha, p, before), actions)
  {
    hide Step;
    if actions == [] {
      assert before + actions == before;
    } else {
      var n := |actions| - 1;
      RunContinues(sha, p, before, actions[..n]);
      assert (before + actions)[..|before| + n] == before + actions[..n];
    }
  }

  /** One attempt, step by step. */
  function Attempt(sha: Hash, p: Profile, w: World, id: string, s: Surroundings): World {
    var a := AttemptActions(id, s);
    Step(sha, p, Step(sha, p, Step(sha, p, Step(sha, p, Step(sha, p, w, a[0]), a[1]), a[2]), a[3]), a[4])
  }

  lemma {:induction false} AttemptIsRun(sha: Hash, p: Profile, w: World, id: string, s: Surroundings)
    ensures Perform(sha, p, w, AttemptActions(id, s)) == Attempt(sha, p, w, id, s)
  {
    hide Step, AttemptActions;
    var a := AttemptActions(id, s);
    assert a[..0] == [];
    PerformStep(sha, p, w, a, 0);
    PerformStep(sha, p, w, a, 1);
    PerformStep(sha, p, w, a, 2);
    PerformStep(sha, p, w, a, 3);
    PerformStep(sha, p, w, a, 4);
    assert a[..5] == a;
  }

  lemma PerformStep(sha: Hash, p: Profile, w: World, actions: seq<Action>, i: nat)
    requires i < |actions|
    ensures Perform(sha, p, w, actions[..i + 1]) == Step(sha, p, Perform(sha, p, w, actions[..i]), actions[i])
  {
    hide Step;
    assert actions[..i + 1][..i] == actions[..i];
  }

  /** What an admitted candidate comes to. */
  function Dispatched(sha: Hash, p: Profile, w: World, s: Surroundings): World
    requires w.phase.Admitted?
  {
    var sent := SendStep(sha, w, s.onPayload);
    if !sent.phase.InFlight? then sent
    else match s.answer
      case Success(topic, partition, offset) => AcceptedStep(sha, p, sent, topic, partition, offset, s.now, s.onAnswer)
      case Failure(error) =>
        var failed := FailedStep(sha, p, sent, error, s.now, s.onAnswer);
        if failed.phase.Settling? then SettleStep(sha, failed, s.now, s.onSettle) else failed
  }

  /** An attempt ends where its first step does, or takes one of two ways on from there. */
  lemma {:induction false} AttemptSplits(sha: Hash, p: Profile, w: World, id: string, s: Surroundings)
    requires w.phase.Idle?
    ensures var b := BeginStep(sha, p, w, id, s.onLoad);
      Attempt(sha, p, w, id, s) ==
        if b.phase.Refusing? then PersistBlockStep(sha, b, s.now, s.onBlock)
        else if b.phase.Admitted? then Dispatched(sha, p, b, s) else b
  {
    hide GetCandidate, Check, Refusal, ResolveRouting, MarkBlocking, MarkCompleted, MarkInFlight, ReadPayload, RecordAttempt, Confirm, Block,
      Retry, ComputeNextRetry, ShouldRetry, ErrorText, FailedAttempt;
    BeginPhases(sha, p, w, id, s.onLoad);
  }

  lemma BeginPhases(sha: Hash, p: Profile, w: World, id: string, io: Store)
    requires w.phase.Idle?
    ensures var b := BeginStep(sha, p, w, id, io); b.phase.Idle? || b.phase.Refusing? || b.phase.Admitted?
  {
    hide GetCandidate, Check, Refusal, ResolveRouting, MarkBlocking, MarkCompleted;
  }

  /** The event's row has the status and revision it had. */
  predicate SameProgress(before: Tables, after: Tables, id: string) {
    && (id in before.deliveries <==> id in after.deliveries)
    && (id in before.deliveries ==>
          && after.deliveries[id].status == before.deliveries[id].status
          && after.deliveries[id].revision == before.deliveries[id].revision)
  }

  /** What an outcome says about the event's row: delivered is REPLICATED at those coordinates, a
      retry is RETRYING at that time, stopped is BLOCKED for that reason, and otherwise the row has
      not moved. So a row that moved is reported as what it became. */
  predicate Reported(before: Tables, after: Tables, id: string, outcome: DeliveryOutcome) {
    match outcome
    case Delivered(partition, offset) =>
      && id in after.deliveries && after.deliveries[id].status == Replicated
      && after.deliveries[id].kafkaPartition == Some(partition) && after.deliveries[id].kafkaOffset == Some(offset)
    case WillRetry(at) =>
      && id in before.deliveries && id in after.deliveries && after.deliveries[id].status == Retrying
      && after.deliveries[id].nextRetryAtMs == Some(at) && after.deliveries[id].revision == before.deliveries[id].revision + 1
    case Stopped(reason) =>
      id in after.deliveries && after.deliveries[id].status == Blocked && after.deliveries[id].blockedReason == Some(reason)
    case GateHeld(_) => after == before
    case Failed => SameProgress(before, after, id)
  }

  /** A row that moved is never reported as failed or held, and its new status fixes the outcome. */
  lemma {:induction false} MovedIsReported(before: Tables, after: Tables, id: string, outcome: DeliveryOutcome)
    requires Reported(before, after, id, outcome) && id in before.deliveries && id in after.deliveries
    requires after.deliveries[id].revision != before.deliveries[id].revision
    ensures outcome.Delivered? <==> after.deliveries[id].status == Replicated
    ensures outcome.WillRetry? <==> after.deliveries[id].status == Retrying
    ensures outcome.Stopped? <==> after.deliveries[id].status == Blocked
  {
  }

  lemma ConfirmReports(sha: Hash, t: Tables, id: string, x: int, c: Confirmation, now: int, io: Store)
    ensures var r := Confirm(sha, t, id, x, c, now, io);
      Reported(t, r.0, id, if r.1 == Updated || r.1 == AlreadyConfirmed then Delivered(c.partition, c.offset) else Failed)
  {
    hide Load, GetStatus, DeliveryChecksum, NextLifecycle;
  }

  /** The journal call after a failure whose record left the row's progress alone. */
  lemma SettleReports(sha: Hash, before: Tables, t: Tables, id: string, x: int, reason: string, at: int, now: int, io: Store)
    requires SameProgress(before, t, id)
    ensures var r := Retry(sha, t, id, x, at, now, io); Reported(before, r.0, id, if r.1 == Updated then WillRetry(at) else Failed)
    ensures var r := Block(sha, t, id, x, reason, now, io); Reported(before, r.0, id, if r.1 == Updated then Stopped(reason) else Failed)
  {
    hide Retry, Block, DeliveryChecksum, NextLifecycle, WellFormedRow;
    if Retry(sha, t, id, x, at, now, io).1 == Updated {
      RetryEffect(sha, t, id, x, at, now, io);
    }
    if Block(sha, t, id, x, reason, now, io).1 == Updated {
      BlockEffect(sha, t, id, x, reason, now, io);
    }
  }

  lemma UnmovedIsFailed(before: Tables, after: Tables, id: string)
    requires SameProgress(before, after, id) || before == after
    ensures Reported(before, after, id, Failed)
  {
  }

  /** A candidate is the stored row, and a BLOCKED one carries its reason. */
  lemma LoadedRow(sha: Hash, t: Tables, id: string)
    ensures var found := GetCandidate(sha, t, id);
      found.Ready? ==>
        && found.candidate.envelope.eventId == id && id in t.deliveries && found.candidate.row == t.deliveries[id]
        && (found.candidate.row.status == Blocked ==> found.candidate.row.blockedReason.Some?)
  {
    hide EnvelopeChecksum, DeliveryChecksum, Find;
  }

  /** What the gate says to the stored candidate; nothing is held that cannot be loaded. */
  function GateAnswer(sha: Hash, t: Tables, g: Streams, id: string): Decision {
    var found := GetCandidate(sha, t, id);
    if found.Ready? then Check(g, found.candidate.envelope.streamKey, found.candidate.envelope.streamSequence) else Allowed
  }

  lemma RecordKeepsProgress(sha: Hash, t: Tables, id: string, a: DeliveryAttempt, now: int, io: Store)
    ensures SameProgress(t, RecordAttempt(sha, t, id, a, now, io).0, id)
  {
    hide RecordAttempt, DeliveryChecksum, Newest, WellFormedRow;
    if RecordAttempt(sha, t, id, a, now, io).1 == Updated {
      RecordEffect(sha, t, id, a, now, io);
    }
  }

  class DeliveryService {
    const journal: LocalJournal
    const gate: OrderingGate
    const profile: Profile
    var shutdown: bool
    /** Everything handed to the broker so far. */
    ghost var sends: seq<Send>

    ghost function At(phase: Phase): World
      reads this, journal, gate
    {
      World(journal.Contents(), gate.streams, phase, sends)
    }

    constructor (journal: LocalJournal, profile: Profile)
      ensures this.journal == journal && this.profile == profile && !shutdown && sends == []
      ensures fresh(gate) && gate.streams == map[]
    {
      this.journal := journal;
      this.gate := new OrderingGate();
      this.profile := profile;
      this.shutdown := false;
      this.sends := [];
    }

    /** Rebuild the gate from at most 10000 journal rows; a failed scan leaves it unchanged. */
    method RecoverGate(io: Store) returns (ok: bool)
      modifies gate
      ensures At(Idle) == RecoverStep(journal.sha, old(At(Idle)), 10_000, io)
      ensures ok <==> Scan(journal.sha, journal.Contents(), 10_000, io).Some?
    {
      hide Scan, RecoverFrom;
      var rows := journal.ScanDeliveryGateStates(10_000, io);
      if rows.None? {
        return false;
      }
      var states: seq<Recovered> := [];
      for i := 0 to |rows.value|
        invariant states == ToRecoveredAll(journal.Contents(), rows.value[..i])
      {
        var e := rows.value[i];
        var replicated := e.eventId in journal.deliveries && journal.deliveries[e.eventId].status == Replicated;
        states := states + [Recovered(e.streamKey, e.streamSequence, replicated, !replicated, false)];
      }
      assert rows.value[..|rows.value|] == rows.value;
      gate.RecoverFromScan(states);
      ok := true;
    }

    method PersistBlockBeforeSend(c: Candidate, reason: string, now: int, io: Store) returns (outcome: DeliveryOutcome)
      modifies journal, gate
      ensures At(Idle) == PersistBlockStep(journal.sha, old(At(Refusing(c, reason))), now, io)
      ensures outcome == if Block(journal.sha, old(journal.Contents()), c.envelope.eventId, c.row.revision, reason, now, io).1 == Updated
                         then Stopped(reason) else Failed
      ensures Reported(old(journal.Contents()), journal.Contents(), c.envelope.eventId, outcome)
    {
      hide Block, Retry, MarkBlocking, Reported;
      SettleReports(journal.sha, journal.Contents(), journal.Contents(), c.envelope.eventId, c.row.revision, reason, 0, now, io);
      var r := journal.BlockDelivery(c.envelope.eventId, c.row.revision, reason, now, io);
      if r == Updated {
        gate.MarkBlockingSequence(c.envelope.streamKey, c.envelope.streamSequence);
        return Stopped(reason);
      }
      outcome := Failed;
    }

    /** The branch taken when the broker reports a failure. */
    method HandleFailure(c: Candidate, route: Route, error: SendError, s: Surroundings) returns (outcome: DeliveryOutcome)
      modifies journal, gate
      ensures var w := FailedStep(journal.sha, profile, old(At(InFlight(c, route))), error, s.now, s.onAnswer);
        At(Idle) == if w.phase.Settling? then SettleStep(journal.sha, w, s.now, s.onSettle) else w
      ensures !outcome.Delivered? && !outcome.GateHeld?
      ensures Reported(old(journal.Contents()), journal.Contents(), c.envelope.eventId, outcome)
    {
      hide RecordAttempt, Retry, Block, MarkBlocking, ComputeNextRetry, Reported, SameProgress;
      var e, rev, count := c.envelope, c.row.revision, c.row.attemptCount + 1;
      var attempt := FailedAttempt(profile, c, route, error, s.now);
      ghost var before := journal.Contents();
      RecordKeepsProgress(journal.sha, before, e.eventId, attempt, s.now, s.onAnswer);
      var recorded := journal.RecordDeliveryAttempt(e.eventId, attempt, s.now, s.onAnswer);
      if recorded != Updated {
        UnmovedIsFailed(before, journal.Contents(), e.eventId);
        return Failed;
      }
      var r;
      if ShouldRetry(error, count) {
        var schedule := ComputeNextRetry(count, s.now);
        if schedule.RetryAt? {
          SettleReports(journal.sha, before, journal.Contents(), e.eventId, rev, "", schedule.nextRetryAtMs, s.now, s.onSettle);
          r := journal.UpdateDeliveryRetry(e.eventId, rev, schedule.nextRetryAtMs, s.now, s.onSettle);
          outcome := WillRetry(schedule.nextRetryAtMs);
        } else {
          SettleReports(journal.sha, before, journal.Contents(), e.eventId, rev, "retry exhausted", 0, s.now, s.onSettle);
          r := journal.BlockDelivery(e.eventId, rev, "retry exhausted", s.now, s.onSettle);
          outcome := Stopped("retry exhausted");
        }
      } else {
        var reason := "permanent failure: " + ErrorText(error);
        SettleReports(journal.sha, before, journal.Contents(), e.eventId, rev, reason, 0, s.now, s.onSettle);
        r := journal.BlockDelivery(e.eventId, rev, reason, s.now, s.onSettle);
        outcome := Stopped(reason);
      }
      if r == Updated {
        gate.MarkBlockingSequence(e.streamKey, e.streamSequence);
      } else {
        outcome := Failed;
      }
    }

    /** The branch taken when the broker reports success. */
    method HandleSuccess(c: Candidate, route: Route, topic: string, partition: int, offset: int, now: int, io: Store)
      returns (outcome: DeliveryOutcome)
      modifies journal, gate
      ensures At(Idle) == AcceptedStep(journal.sha, profile, old(At(InFlight(c, route))), topic, partition, offset, now, io)
      ensures var conf := Confirmation(route.checksum, profile.id, profile.version, topic, partition, offset);
        var r := Confirm(journal.sha, old(journal.Contents()), c.envelope.eventId, c.row.revision, conf, now, io).1;
        outcome == if r == Updated || r == AlreadyConfirmed then Delivered(partition, offset) else Failed
      ensures Reported(old(journal.Contents()), journal.Contents(), c.envelope.eventId, outcome)
    {
      hide MarkBlocking, MarkCompleted, Confirm, Reported;
      var e := c.envelope;
      var conf := Confirmation(route.checksum, profile.id, profile.version, topic, partition, offset);
      ConfirmReports(journal.sha, journal.Contents(), e.eventId, c.row.revision, conf, now, io);
      var r := journal.ConfirmReplicatedDelivery(e.eventId, c.row.revision, conf, now, io);
      if r == Updated || r == AlreadyConfirmed {
        gate.MarkCompletedSequence(e.streamKey, e.streamSequence);
        return Delivered(partition, offset);
      }
      gate.MarkBlockingSequence(e.streamKey, e.streamSequence);
      outcome := Failed;
    }

    /** Admitted candidates: read the payload, send it and act on the answer. */
    method SendAndSettle(c: Candidate, route: Route, s: Surroundings) returns (outcome: DeliveryOutcome)
      modifies journal, gate, this`sends
      ensures At(Idle) == Dispatched(journal.sha, profile, old(At(Admitted(c, route))), s)
      ensures Reported(old(journal.Contents()), journal.Contents(), c.envelope.eventId, outcome) && !outcome.GateHeld?
    {
      hide Reported, ReadPayload, MarkBlocking, MarkInFlight, AcceptedStep, FailedStep, SettleStep;
      var e := c.envelope;
      var payload := ReadPayload(journal.sha, journal.Contents(), e.eventId);
      if s.onPayload.ReadFails? || payload.None? {
        UnmovedIsFailed(journal.Contents(), journal.Contents(), e.eventId);
        gate.MarkBlockingSequence(e.streamKey, e.streamSequence);
        return Failed;
      }
      gate.MarkInFlightSequence(e.streamKey, e.streamSequence);
      sends := sends + [Send(route.partitionKey, e.streamSequence, e, journal.Contents(), route.topic, payload.value)];
      match s.answer {
        case Success(topic, partition, offset) =>
          outcome := HandleSuccess(c, route, topic, partition, offset, s.now, s.onAnswer);
        case Failure(error) =>
          outcome := HandleFailure(c, route, error, s);
      }
    }

    method AttemptDelivery(id: string, s: Surroundings) returns (outcome: DeliveryOutcome)
      modifies journal, gate, this`sends
      ensures At(Idle) == if shutdown then old(At(Idle)) else Attempt(journal.sha, profile, old(At(Idle)), id, s)
      ensures Reported(old(journal.Contents()), journal.Contents(), id, outcome)
      ensures var answer := GateAnswer(journal.sha, old(journal.Contents()), old(gate.streams), id);
        var held := !shutdown && !s.onLoad.ReadFails? && answer.Held?;
        (outcome.GateHeld? <==> held) && (held ==> outcome.waitingFor == answer.waitingFor)
    {
      hide Check, MarkCompleted, MarkBlocking, Refusal, ResolveRouting, Load, EnvelopeChecksum, Attempt, PersistBlockStep, Dispatched,
        Block, Find;
      AttemptSplits(journal.sha, profile, At(Idle), id, s);
      UnmovedIsFailed(journal.Contents(), journal.Contents(), id);
      if shutdown {
        return Failed;
      }
      var found := GetCandidate(journal.sha, journal.Contents(), id);
      LoadedRow(journal.sha, journal.Contents(), id);
      if s.onLoad.ReadFails? || !found.Ready? {
        return Failed;
      }
      var c := found.candidate;
      var key, n := c.envelope.streamKey, c.envelope.streamSequence;
      var decision := gate.CheckSequence(key, n);
      if decision.Held? {
        return GateHeld(decision.waitingFor);
      }
      if c.row.status == Replicated {
        if c.row.kafkaPartition.None? || c.row.kafkaOffset.None? {
          return Failed;
        }
        gate.MarkCompletedSequence(key, n);
        return Delivered(c.row.kafkaPartition.value, c.row.kafkaOffset.value);
      }
      if c.row.status == Blocked {
        gate.MarkBlockingSequence(key, n);
        return Stopped(if c.row.blockedReason.Some? then c.row.blockedReason.value else "delivery blocked");
      }
      var refusal := Refusal(journal.sha, profile, c);
      if refusal.Some? {
        outcome := PersistBlockBeforeSend(c, refusal.value, s.now, s.onBlock);
      } else {
        outcome := SendAndSettle(c, ResolveRouting(journal.sha, c.envelope).route, s);
      }
    }
  }
}
