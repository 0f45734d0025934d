/** What the service achieves: when a broker's answer is persisted, and what an attempt comes to. */
module AttemptTheorems {
  import opened Common
  import opened Records
  import opened Journal
  import opened JournalRuns
  import opened JournalTheorems
  import opened ReloadTheorems
  import opened HistoryTheorems
  import opened Gate
  import opened Delivery
  import opened DeliveryRuns
  import opened DeliveryOrder
  import opened ServiceTheorems
  import opened RetryTheorems
  import opened GateTheorems

  // ---------------------------------------------------------------------------------------
  // The route in hand
  // ---------------------------------------------------------------------------------------

  predicate SameRouting(a: DeliveryRow, b: DeliveryRow) {
    && a.routingFingerprint == b.routingFingerprint && a.profileId == b.profileId && a.profileVersion == b.profileVersion
    && a.kafkaTopic == b.kafkaTopic
  }

  /** No operation changes the route of a row. */
  lemma RoutingStays(sha: Hash, t: Tables, op: Op, id: string)
    requires id in t.deliveries
    ensures id in Apply(sha, t, op).0.deliveries && SameRouting(Apply(sha, t, op).0.deliveries[id], t.deliveries[id])
  {
    hide Apply, DeliveryChecksum, WellFormedRow;
    RowStep(sha, t, op, id);
    if Updates(op, Apply(sha, t, op).1, id) {
      if op.OpLifecycle? {
        LifecycleKeepsRows(sha, t, op);
      } else {
        RowChange(sha, t, op, id);
      }
    }
  }

  /** A row that matches the profile and the route. */
  predicate OnRoute(p: Profile, row: DeliveryRow, route: Route) {
    && row.routingFingerprint == Some(route.checksum) && row.profileId == Some(p.id) && row.profileVersion == Some(p.version)
    && row.kafkaTopic == Some(route.topic)
  }

  /** The candidate in hand is stored with its route, and an admitted one is on the resolved route. */
  predicate Routed(sha: Hash, p: Profile, w: World) {
    !w.phase.Idle? ==>
      var c := w.phase.c;
      && c.envelope.eventId in w.tables.deliveries && SameRouting(w.tables.deliveries[c.envelope.eventId], c.row)
      && (w.phase.Admitted? || w.phase.InFlight? ==>
            ResolveRouting(sha, c.envelope) == Delivery.Routed(w.phase.route) && OnRoute(p, c.row, w.phase.route))
  }

  lemma RouteStep(sha: Hash, p: Profile, w: World, a: Action)
    ensures var v := Step(sha, p, w, a);
      v.phase.Admitted? || v.phase.InFlight? ==>
        if w.phase.Idle? then
          && a.Begin? && Refusal(sha, p, v.phase.c).None? && ResolveRouting(sha, v.phase.c.envelope) == Delivery.Routed(v.phase.route)
        else (w.phase.Admitted? || w.phase.InFlight?) && v.phase.route == w.phase.route
  {
    hide Apply, RecordAttempt, Confirm, Block, SettleCall, MarkBlocking, MarkCompleted, MarkInFlight,
      GetCandidate, Check, Refusal, ResolveRouting, ReadPayload, Scan, RecoverFrom, ToRecoveredAll, FailedAttempt;
  }

  lemma RoutedStep(sha: Hash, p: Profile, w: World, a: Action)
    requires Routed(sha, p, w)
    ensures Routed(sha, p, Step(sha, p, w, a))
  {
    hide Step, Apply, StepOp, GetCandidate, Refusal, ResolveRouting, WellFormedRow;
    var v := Step(sha, p, w, a);
    StepTables(sha, p, w, a);
    StepPhase(sha, p, w, a);
    RouteStep(sha, p, w, a);
    if !v.phase.Idle? {
      NoRefusalIsRouted(sha, p, v.phase.c);
      if w.phase.Idle? {
        CandidateFields(sha, w.tables, a.id);
        BeginKeepsTables(p, w, a);
      } else if StepOp(p, w, a).Some? {
        RoutingStays(sha, w.tables, StepOp(p, w, a).value, w.phase.c.envelope.eventId);
      }
    }
  }

  lemma {:induction false} RunsAreRouted(sha: Hash, p: Profile, actions: seq<Action>)
    ensures Routed(sha, p, Run(sha, p, actions))
  {
    hide Step, Routed;
    if actions == [] {
      StartIsRouted(sha, p);
    } else {
      var n := |actions| - 1;
      RunsAreRouted(sha, p, actions[..n]);
      RoutedStep(sha, p, Run(sha, p, actions[..n]), actions[n]);
    }
  }

  lemma StartIsRouted(sha: Hash, p: Profile)
    ensures Routed(sha, p, START)
  {
  }

  // ---------------------------------------------------------------------------------------
  // Answers that are persisted
  // ---------------------------------------------------------------------------------------

  /** The candidate's row verifies and nobody has updated it since it was loaded. */
  predicate Unmoved(sha: Hash, w: World)
    requires !w.phase.Idle?
  {
    var id := w.phase.c.envelope.eventId;
    Load(sha, w.tables, id).Present? && w.tables.deliveries[id].revision == w.phase.c.row.revision
  }

  lemma UnmovedIsCurrent(sha: Hash, w: World)
    requires GuardedWorld(w) && !w.phase.Idle?
    ensures Unmoved(sha, w) <==> Current(sha, w.tables, w.phase.c.envelope.eventId, w.phase.c.row.revision)
  {
    hide Load;
  }

  lemma ConsistentRun(sha: Hash, p: Profile, actions: seq<Action>, op: Op)
    ensures Succeeds(sha, Run(sha, p, actions).tables, op) <==> Applicable(sha, Run(sha, p, actions).tables, op)
  {
    hide Applicable, Apply;
    RunIsJournalRun(sha, p, actions);
    RunSucceedsExactlyWhen(sha, OpsOf(sha, p, actions), op);
  }

  /** A broker's success is persisted exactly when the store is healthy, the broker names the routed
      topic and the row has not moved; the event is then REPLICATED at those coordinates. */
  lemma {:induction false} SuccessIsPersistedExactlyWhen(sha: Hash, p: Profile, actions: seq<Action>, a: Action)
    requires Run(sha, p, actions).phase.InFlight? && a.BrokerAccepts?
    ensures var w := Run(sha, p, actions);
      var id, t := w.phase.c.envelope.eventId, Step(sha, p, w, a).tables;
      && Step(sha, p, w, a).phase.Idle?
      && (Succeeds(sha, w.tables, StepOp(p, w, a).value) <==> a.io.Healthy? && a.topic == w.phase.route.topic && Unmoved(sha, w))
      && (Succeeds(sha, w.tables, StepOp(p, w, a).value) ==>
            && id in t.deliveries && t.deliveries[id].status == Replicated && t.deliveries[id].kafkaTopic == Some(w.phase.route.topic)
            && t.deliveries[id].kafkaPartition == Some(a.partition) && t.deliveries[id].kafkaOffset == Some(a.offset)
            && t.deliveries[id].confirmedAtMs == Some(a.now))
  {
    hide Run, Step, Apply, Load, ResolveRouting;
    var w := Run(sha, p, actions);
    var op := StepOp(p, w, a).value;
    RunsAreGuarded(sha, p, actions);
    RunsAreRouted(sha, p, actions);
    UnmovedIsCurrent(sha, w);
    ConsistentRun(sha, p, actions, op);
    StepTables(sha, p, w, a);
    AcceptedEnds(sha, p, w, a);
    if Succeeds(sha, w.tables, op) {
      WrittenRow(sha, w.tables, op, op.id);
    }
  }

  lemma AcceptedEnds(sha: Hash, p: Profile, w: World, a: Action)
    requires w.phase.InFlight? && a.BrokerAccepts?
    ensures Step(sha, p, w, a).phase.Idle?
  {
    hide Confirm, MarkBlocking, MarkCompleted;
  }

  /** A failure is recorded exactly when the store is healthy and the row verifies. */
  lemma {:induction false} FailureIsRecordedExactlyWhen(sha: Hash, p: Profile, actions: seq<Action>, a: Action)
    requires Run(sha, p, actions).phase.InFlight? && a.BrokerFails?
    ensures var w := Run(sha, p, actions);
      Step(sha, p, w, a).phase.Settling? <==> a.io.Healthy? && Load(sha, w.tables, w.phase.c.envelope.eventId).Present?
  {
    hide Run, Step, Apply, Load, FailedAttempt;
    FailRecords(sha, p, Run(sha, p, actions), a);
    ConsistentRun(sha, p, actions, StepOp(p, Run(sha, p, actions), a).value);
  }

  /** The failures that are worth another try. */
  predicate Transient(e: SendError) {
    e == BrokerUnavailable || e == Timeout || e == QueueFull
  }

  /** The row after a failure is settled: a transient one below the limit waits for
      min(1000 * 2^(n-1), 300000) ms, any other is BLOCKED for good. */
  predicate Settled(row: DeliveryRow, error: SendError, n: int, failedAt: int) {
    if Transient(error) && n < 32 then
      n >= 1 && row.status == Retrying && row.nextRetryAtMs == Some(failedAt + Min(1000 * Pow2(n - 1), 300_000))
    else row.status == Blocked && row.blockedReason == Some("permanent failure: " + ErrorText(error))
  }

  lemma SettleOpSays(c: Candidate, error: SendError, failedAt: int, now: int, io: Store)
    requires c.row.attemptCount >= 0
    ensures var op, n := SettleOp(c, error, failedAt, now, io), c.row.attemptCount + 1;
      && op.io == io
      && if Transient(error) && n < 32 then op.OpRetry? && op.nextRetryAtMs == failedAt + Min(1000 * Pow2(n - 1), 300_000)
         else op.OpBlock? && op.reason == "permanent failure: " + ErrorText(error)
  {
    hide ErrorText, ComputeNextRetry;
    var n := c.row.attemptCount + 1;
    if n < 32 {
      BackoffSchedule(n, failedAt);
    }
  }

  /** The attempts counted by the candidate in hand. */
  lemma CandidateCounts(sha: Hash, p: Profile, actions: seq<Action>)
    requires !Run(sha, p, actions).phase.Idle?
    ensures Run(sha, p, actions).phase.c.row.attemptCount >= 0
  {
    hide Run, Settles;
    RunsAreBudgeted(sha, p, actions, Run(sha, p, actions).phase.c.envelope.eventId);
  }

  /** A recorded failure is settled exactly when the store is healthy and the row has not moved, and
      the row then waits or is BLOCKED as the error and the count say. */
  lemma {:induction false} FailureIsSettledExactlyWhen(sha: Hash, p: Profile, actions: seq<Action>, a: Action)
    requires Run(sha, p, actions).phase.Settling? && a.Settle?
    ensures var w := Run(sha, p, actions);
      var c, t := w.phase.c, Step(sha, p, w, a).tables;
      && Step(sha, p, w, a).phase.Idle?
      && (Succeeds(sha, w.tables, StepOp(p, w, a).value) <==> a.io.Healthy? && Unmoved(sha, w))
      && (Succeeds(sha, w.tables, StepOp(p, w, a).value) ==>
            c.envelope.eventId in t.deliveries
            && Settled(t.deliveries[c.envelope.eventId], w.phase.error, c.row.attemptCount + 1, w.phase.failedAt))
  {
    hide Run, Step, Apply, Load, SettleOp, ErrorText, Pow2;
    var w := Run(sha, p, actions);
    var op := StepOp(p, w, a).value;
    CandidateCounts(sha, p, actions);
    SettleOpSays(w.phase.c, w.phase.error, w.phase.failedAt, a.now, a.io);
    RunsAreGuarded(sha, p, actions);
    UnmovedIsCurrent(sha, w);
    ConsistentRun(sha, p, actions, op);
    StepTables(sha, p, w, a);
    SettleEnds(sha, p, w, a);
    if Succeeds(sha, w.tables, op) {
      WrittenRow(sha, w.tables, op, op.id);
    }
  }

  lemma SettleEnds(sha: Hash, p: Profile, w: World, a: Action)
    requires w.phase.Settling? && a.Settle?
    ensures Step(sha, p, w, a).phase.Idle?
  {
    hide SettleCall, MarkBlocking;
  }

  /** A refused candidate is BLOCKED exactly when the store is healthy and the row has not moved. */
  lemma {:induction false} RefusalIsPersistedExactlyWhen(sha: Hash, p: Profile, actions: seq<Action>, a: Action)
    requires Run(sha, p, actions).phase.Refusing? && a.PersistBlock?
    ensures var w := Run(sha, p, actions);
      var id, t := w.phase.c.envelope.eventId, Step(sha, p, w, a).tables;
      && (Succeeds(sha, w.tables, StepOp(p, w, a).value) <==> a.io.Healthy? && Unmoved(sha, w))
      && (Succeeds(sha, w.tables, StepOp(p, w, a).value) ==>
            id in t.deliveries && t.deliveries[id].status == Blocked && t.deliveries[id].blockedReason == Some(w.phase.reason))
  {
    hide Run, Step, Apply, Load;
    var w := Run(sha, p, actions);
    var op := StepOp(p, w, a).value;
    RunsAreGuarded(sha, p, actions);
    UnmovedIsCurrent(sha, w);
    ConsistentRun(sha, p, actions, op);
    StepTables(sha, p, w, a);
    if Succeeds(sha, w.tables, op) {
      WrittenRow(sha, w.tables, op, op.id);
    }
  }

  // ---------------------------------------------------------------------------------------
  // Calm runs
  // ---------------------------------------------------------------------------------------

  lemma CalmIsUnmoved(sha: Hash, p: Profile, actions: seq<Action>)
    requires CalmRun(sha, p, actions) && !Run(sha, p, actions).phase.Idle?
    ensures Unmoved(sha, Run(sha, p, actions))
  {
    hide Run, CalmRun, Load, Losses, Unrecorded, Foreign, Recorded, OpsOf;
    var id := Run(sha, p, actions).phase.c.envelope.eventId;
    CalmRunsLoseNothing(sha, p, actions, id);
    CalmIsWellFormed(sha, p, actions);
    RunsReload(sha, p, actions);
    assert Reloads(sha, Run(sha, p, actions).tables, id);
  }

  /** In a calm run a broker's success on the routed topic always leaves the event REPLICATED at its
      coordinates. */
  lemma {:induction false} CalmSuccessReplicates(sha: Hash, p: Profile, actions: seq<Action>, a: Action)
    requires CalmRun(sha, p, actions) && Run(sha, p, actions).phase.InFlight?
    requires a.BrokerAccepts? && a.io.Healthy? && a.topic == Run(sha, p, actions).phase.route.topic
    ensures var w := Run(sha, p, actions);
      var id, t := w.phase.c.envelope.eventId, Step(sha, p, w, a).tables;
      && id in t.deliveries && t.deliveries[id].status == Replicated
      && t.deliveries[id].kafkaPartition == Some(a.partition) && t.deliveries[id].kafkaOffset == Some(a.offset)
  {
    hide Run, Step, Apply, CalmRun, Unmoved;
    CalmIsUnmoved(sha, p, actions);
    SuccessIsPersistedExactlyWhen(sha, p, actions, a);
  }

  lemma CalmStepKeepsKey(sha: Hash, p: Profile, actions: seq<Action>, a: Action, key: string)
    requires CalmRun(sha, p, actions) && Calm(Run(sha, p, actions), a)
    ensures !LosesKey(sha, p, Run(sha, p, actions), a, key)
  {
    hide Run, Step, Apply, CalmRun, Load;
    var w := Run(sha, p, actions);
    if w.phase.InFlight? && a.BrokerFails? {
      CalmIsUnmoved(sha, p, actions);
      FailureIsRecordedExactlyWhen(sha, p, actions, a);
      FailRecords(sha, p, w, a);
    } else if w.phase.Settling? && a.Settle? {
      CalmIsUnmoved(sha, p, actions);
      FailureIsSettledExactlyWhen(sha, p, actions, a);
    }
  }

  /** A calm run loses no failure, so no key gets stuck. */
  lemma {:induction false} CalmNeverStuck(sha: Hash, p: Profile, actions: seq<Action>, key: string)
    requires CalmRun(sha, p, actions)
    ensures !LostSince(sha, p, actions, key)
  {
    hide Run, CalmRun, Calm, LosesKey, Rebuilds;
    if actions != [] {
      var n := |actions| - 1;
      CalmPrefix(sha, p, actions);
      CalmNeverStuck(sha, p, actions[..n], key);
      CalmStepKeepsKey(sha, p, actions[..n], actions[n], key);
    }
  }

  /** In admissible calm runs in step with the journal the gate lets exactly the first unreplicated
      sequence of every key through at every idle point. */
  lemma {:induction false} CalmGateIsExact(sha: Hash, p: Profile, actions: seq<Action>, key: string) returns (f: int)
    requires AdmissibleRun(sha, p, actions) && CalmRun(sha, p, actions) && Synced(sha, p, actions) && Run(sha, p, actions).phase.Idle?
    ensures FirstUndone(Run(sha, p, actions).tables, key, f)
    ensures forall n :: Check(Run(sha, p, actions).gate, key, n) == if n == f then Allowed else Held(f)
  {
    hide Run, AdmissibleRun, CalmRun, Synced, LostSince, FirstUndone, Check;
    f := GateIsExact(sha, p, actions, key);
    CalmNeverStuck(sha, p, actions, key);
  }

  /** Without recovery the gate catches up: an attempt of the awaited event, when it is REPLICATED
      already, makes the gate await the next one. */
  lemma {:induction false} AttemptCatchesUp(sha: Hash, p: Profile, w: World, id: string)
    requires w.phase.Idle? && GetCandidate(sha, w.tables, id).Ready?
    requires var c := GetCandidate(sha, w.tables, id).candidate;
      c.row.status == Replicated && Check(w.gate, c.envelope.streamKey, c.envelope.streamSequence) == Allowed
    ensures var c := GetCandidate(sha, w.tables, id).candidate;
      var v := Step(sha, p, w, Begin(id, Healthy));
      && v.phase.Idle? && v.tables == w.tables && v.sends == w.sends
      && Awaited(EntryOf(v.gate, c.envelope.streamKey)) == c.envelope.streamSequence + 1
      && Check(v.gate, c.envelope.streamKey, c.envelope.streamSequence + 1) == Allowed
  {
    hide GetCandidate, Refusal, ResolveRouting;
    CandidateFields(sha, w.tables, id);
  }

  // ---------------------------------------------------------------------------------------
  // Attempts
  // ---------------------------------------------------------------------------------------

  /** No reason to refuse: the stored route is the envelope's, under the profile in force. */
  predicate Acceptable(sha: Hash, p: Profile, c: Candidate) {
    && c.envelope.routingVersion == 1 && Routable(c.envelope) && p.fault.None?
    && c.row.routingFingerprint == Some(sha(RoutingText(c.envelope))) && c.row.profileId == Some(p.id)
    && c.row.profileVersion == Some(p.version) && c.row.kafkaTopic == Some(Topic(c.envelope.installationId, c.envelope.ns))
  }

  lemma {:induction false} RefusedExactlyWhen(sha: Hash, p: Profile, c: Candidate)
    ensures Refusal(sha, p, c).None? <==> Acceptable(sha, p, c)
  {
    hide Topic, RoutingText;
  }

  /** An attempt of the event reaches the broker. */
  predicate Sendable(sha: Hash, p: Profile, w: World, id: string) {
    var found := GetCandidate(sha, w.tables, id);
    && w.phase.Idle? && found.Ready? && (found.candidate.row.status == Pending || found.candidate.row.status == Retrying)
    && Check(w.gate, found.candidate.envelope.streamKey, found.candidate.envelope.streamSequence) == Allowed
    && Acceptable(sha, p, found.candidate)
  }

  lemma PayloadReads(sha: Hash, t: Tables, e: Envelope)
    requires AllIntact(sha, t) && Find(t.envelopes, e.eventId) == Some(e)
    ensures ReadPayload(sha, t, e.eventId).Some?
  {
    hide EnvelopeChecksum, LifecycleChecksum, ProducerOf, Find;
    assert Intact(sha, t, e);
  }

  lemma BeginAdmitsSendable(sha: Hash, p: Profile, w: World, id: string)
    requires Sendable(sha, p, w, id)
    ensures var c := GetCandidate(sha, w.tables, id).candidate;
      && ResolveRouting(sha, c.envelope).Routed?
      && Step(sha, p, w, Begin(id, Healthy)) == w.(phase := Admitted(c, ResolveRouting(sha, c.envelope).route))
  {
    hide GetCandidate, Check, Refusal, ResolveRouting, MarkBlocking, MarkCompleted, Acceptable;
    RefusedExactlyWhen(sha, p, GetCandidate(sha, w.tables, id).candidate);
  }

  lemma RunSnoc(sha: Hash, p: Profile, actions: seq<Action>, a: Action)
    ensures Run(sha, p, actions + [a]) == Step(sha, p, Run(sha, p, actions), a)
  {
    hide Step;
    assert (actions + [a])[..|actions|] == actions;
  }

  function SendActions(actions: seq<Action>, id: string): seq<Action> {
    actions + [Begin(id, Healthy)] + [SendPayload(Healthy)]
  }

  /** A sendable event is sent, once, and is then in flight with its row unmoved. */
  lemma {:induction false} SendableIsSent(sha: Hash, p: Profile, actions: seq<Action>, id: string)
    requires Sendable(sha, p, Run(sha, p, actions), id)
    ensures var w, v := Run(sha, p, actions), Run(sha, p, SendActions(actions, id));
      var c := GetCandidate(sha, w.tables, id).candidate;
      && v.phase.InFlight? && v.phase.c == c && v.phase.route.topic == Topic(c.envelope.installationId, c.envelope.ns)
      && ReadPayload(sha, w.tables, id).Some?
      && v.tables == w.tables
      && v.sends == w.sends + [Send(StreamOf(c.envelope), c.envelope.streamSequence, c.envelope, w.tables, v.phase.route.topic,
                                    ReadPayload(sha, w.tables, id).value)]
      && c.envelope.eventId == id && Unmoved(sha, v)
  {
    hide Run, GetCandidate, Check, Acceptable, StreamOf, Topic, Load, Step, Consistent, ResolveRouting, Find, ReadPayload;
    var w := Run(sha, p, actions);
    var c := GetCandidate(sha, w.tables, id).candidate;
    RunSnoc(sha, p, actions, Begin(id, Healthy));
    RunSnoc(sha, p, actions + [Begin(id, Healthy)], SendPayload(Healthy));
    BeginAdmitsSendable(sha, p, w, id);
    SendableLoads(sha, p, w, id);
    RunTablesConsistent(sha, p, actions);
    SendGoesOut(sha, p, w, c);
  }

  lemma SendableLoads(sha: Hash, p: Profile, w: World, id: string)
    requires Sendable(sha, p, w, id)
    ensures var c := GetCandidate(sha, w.tables, id).candidate;
      && Load(sha, w.tables, id) == Present(c.row) && Find(w.tables.envelopes, id) == Some(c.envelope)
      && c.envelope.eventId == id && id in w.tables.deliveries && w.tables.deliveries[id] == c.row
  {
    hide Load, EnvelopeChecksum, Find, Check, Acceptable;
  }

  lemma SendGoesOut(sha: Hash, p: Profile, w: World, c: Candidate)
    requires ResolveRouting(sha, c.envelope).Routed? && Consistent(sha, w.tables)
    requires Find(w.tables.envelopes, c.envelope.eventId) == Some(c.envelope)
    ensures var route := ResolveRouting(sha, c.envelope).route;
      var v := Step(sha, p, w.(phase := Admitted(c, route)), SendPayload(Healthy));
      && v.phase == InFlight(c, route) && route.topic == Topic(c.envelope.installationId, c.envelope.ns) && v.tables == w.tables
      && ReadPayload(sha, w.tables, c.envelope.eventId).Some?
      && v.sends == w.sends + [Send(StreamOf(c.envelope), c.envelope.streamSequence, c.envelope, w.tables, route.topic,
                                    ReadPayload(sha, w.tables, c.envelope.eventId).value)]
  {
    hide Find, ReadPayload, MarkInFlight, MarkBlocking, AllIntact, Ordered, HeadsCount, Keyed, ProducersRise, LogsBounded, StreamOf, Topic;
    PayloadReads(sha, w.tables, c.envelope);
  }

  /** At any point of any run: an attempt of a sendable event that the broker takes, with a healthy
      store, leaves it REPLICATED at the broker's coordinates. */
  lemma {:induction false} AttemptDelivers(sha: Hash, p: Profile, actions: seq<Action>, id: string, topic: string, partition: int, offset: int, now: int)
    requires Sendable(sha, p, Run(sha, p, actions), id)
    requires var e := GetCandidate(sha, Run(sha, p, actions).tables, id).candidate.envelope; topic == Topic(e.installationId, e.ns)
    ensures var v := Run(sha, p, SendActions(actions, id) + [BrokerAccepts(topic, partition, offset, now, Healthy)]);
      && v.phase.Idle? && id in v.tables.deliveries && v.tables.deliveries[id].status == Replicated
      && v.tables.deliveries[id].kafkaPartition == Some(partition) && v.tables.deliveries[id].kafkaOffset == Some(offset)
      && v.tables.deliveries[id].confirmedAtMs == Some(now)
  {
    hide Run, Step, GetCandidate, Check, Acceptable, Topic, Apply, Unmoved, StreamOf;
    SendableIsSent(sha, p, actions, id);
    var a := BrokerAccepts(topic, partition, offset, now, Healthy);
    RunSnoc(sha, p, SendActions(actions, id), a);
    SuccessIsPersistedExactlyWhen(sha, p, SendActions(actions, id), a);
  }

  /** And one that fails, with a healthy store, leaves it RETRYING after the backoff or BLOCKED. */
  lemma {:induction false} AttemptSettles(sha: Hash, p: Profile, actions: seq<Action>, id: string, error: SendError, failedAt: int, now: int)
    requires Sendable(sha, p, Run(sha, p, actions), id)
    ensures var n := GetCandidate(sha, Run(sha, p, actions).tables, id).candidate.row.attemptCount + 1;
      var v := Run(sha, p, SendActions(actions, id) + [BrokerFails(error, failedAt, Healthy)] + [Settle(now, Healthy)]);
      v.phase.Idle? && id in v.tables.deliveries && Settled(v.tables.deliveries[id], error, n, failedAt)
  {
    hide Run, Step, GetCandidate, Check, Acceptable, Topic, Apply, StreamOf, Settled, Load, SendActions;
    SendableIsSent(sha, p, actions, id);
    var sent := SendActions(actions, id);
    var fail, settle := BrokerFails(error, failedAt, Healthy), Settle(now, Healthy);
    RunSnoc(sha, p, sent, fail);
    RunSnoc(sha, p, sent + [fail], settle);
    FailureIsRecordedExactlyWhen(sha, p, sent, fail);
    FailedIsUnmoved(sha, p, Run(sha, p, sent), fail);
    FailureIsSettledExactlyWhen(sha, p, sent + [fail], settle);
  }

  lemma FailedIsUnmoved(sha: Hash, p: Profile, w: World, a: Action)
    requires w.phase.InFlight? && a.BrokerFails? && Unmoved(sha, w) && Step(sha, p, w, a).phase.Settling?
    ensures var v := Step(sha, p, w, a);
      v.phase.c == w.phase.c && v.phase.error == a.error && v.phase.failedAt == a.now && Unmoved(sha, v)
  {
    hide Load, RecordAttempt, FailedAttempt, Newest;
    var op := OpRecord(w.phase.c.envelope.eventId, FailedAttempt(p, w.phase.c, w.phase.route, a.error, a.now), a.now, a.io);
    RecordEffect(sha, w.tables, op.id, op.attempt, op.now, op.io);
    ReloadRecord(sha, w.tables, op.id, op.attempt, op.now, op.io);
  }

  // ---------------------------------------------------------------------------------------
  // What is sent
  // ---------------------------------------------------------------------------------------

  /** A send is that of a stored event, on its own stream and topic, with its stored payload. */
  predicate Genuine(sha: Hash, s: Send) {
    && s.envelope in s.at.envelopes && s.stream == StreamOf(s.envelope) && s.sequence == s.envelope.streamSequence
    && s.topic == Topic(s.envelope.installationId, s.envelope.ns)
    && ReadPayload(sha, s.at, s.envelope.eventId) == Some(s.payload)
  }

  predicate InStore(w: World) {
    !w.phase.Idle? ==> w.phase.c.envelope in w.tables.envelopes
  }

  lemma InStoreStep(sha: Hash, p: Profile, w: World, a: Action)
    requires InStore(w)
    ensures InStore(Step(sha, p, w, a))
  {
    hide Step, Apply, StepOp, GetCandidate;
    StepTables(sha, p, w, a);
    StepPhase(sha, p, w, a);
    if StepOp(p, w, a).Some? {
      ApplyGrows(sha, w.tables, StepOp(p, w, a).value);
    }
    if w.phase.Idle? && !Step(sha, p, w, a).phase.Idle? {
      CandidateFields(sha, w.tables, a.id);
      BeginKeepsTables(p, w, a);
    }
  }

  /** Only an admitted candidate whose payload reads is sent. */
  lemma SendsStep(sha: Hash, p: Profile, w: World, a: Action)
    ensures var v := Step(sha, p, w, a);
      || v.sends == w.sends
      || (&& w.phase.Admitted? && a.SendPayload? && ReadPayload(sha, w.tables, w.phase.c.envelope.eventId).Some?
          && v.sends == w.sends + [Send(w.phase.route.partitionKey, w.phase.c.envelope.streamSequence, w.phase.c.envelope, w.tables,
                                        w.phase.route.topic, ReadPayload(sha, w.tables, w.phase.c.envelope.eventId).value)])
  {
    hide Apply, RecordAttempt, Confirm, Block, SettleCall, MarkBlocking, MarkCompleted, MarkInFlight,
      GetCandidate, Check, Refusal, ResolveRouting, ReadPayload, Scan, RecoverFrom, ToRecoveredAll, FailedAttempt;
  }

  /** In every run every send is genuine. */
  lemma {:induction false} SendsAreGenuine(sha: Hash, p: Profile, actions: seq<Action>)
    ensures InStore(Run(sha, p, actions))
    ensures forall i :: 0 <= i < |Run(sha, p, actions).sends| ==> Genuine(sha, Run(sha, p, actions).sends[i])
  {
    hide Step, ReadPayload, Topic, StreamOf, ResolveRouting;
    if actions != [] {
      var n := |actions| - 1;
      var w := Run(sha, p, actions[..n]);
      SendsAreGenuine(sha, p, actions[..n]);
      InStoreStep(sha, p, w, actions[n]);
      SendsStep(sha, p, w, actions[n]);
      RunsAreRouted(sha, p, actions[..n]);
    }
  }
}
