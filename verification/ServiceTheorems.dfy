/** What the delivery service keeps across whole runs: legal status changes, rows that reload,
    and the retry budget. */
module ServiceTheorems {
  import opened Common
  import opened Records
  import opened Journal
  import opened JournalRuns
  import opened JournalTheorems
  import opened ReloadTheorems
  import opened Gate
  import opened Delivery
  import opened DeliveryRuns
  import opened DeliveryOrder

  /** The journal operation a step performs, if any. */
  function StepOp(p: Profile, w: World, a: Action): Option<Op> {
    match a
    case PersistBlock(now, io) =>
      if w.phase.Refusing?
      then Some(OpBlock(w.phase.c.envelope.eventId, w.phase.c.row.revision, w.phase.reason, now, io)) else None
    case BrokerAccepts(topic, partition, offset, now, io) =>
      if w.phase.InFlight?
      then Some(OpConfirm(w.phase.c.envelope.eventId, w.phase.c.row.revision,
                          Confirmation(w.phase.route.checksum, p.id, p.version, topic, partition, offset), now, io))
      else None
    case BrokerFails(error, now, io) =>
      if w.phase.InFlight?
      then Some(OpRecord(w.phase.c.envelope.eventId, FailedAttempt(p, w.phase.c, w.phase.route, error, now), now, io)) else None
    case Settle(now, io) => if w.phase.Settling? then Some(SettleOp(w.phase.c, w.phase.error, w.phase.failedAt, now, io)) else None
    case Other(op) => Some(op)
    case _ => None
  }

  function SettleOp(c: Candidate, error: SendError, failedAt: int, now: int, io: Store): (op: Op)
    ensures op.OpRetry? || (op.OpBlock? && op.reason != "")
    ensures op.id == c.envelope.eventId && op.expected == c.row.revision
  {
    var id, count := c.envelope.eventId, c.row.attemptCount + 1;
    var schedule := ComputeNextRetry(count, failedAt);
    if ShouldRetry(error, count) then
      if schedule.RetryAt? then OpRetry(id, c.row.revision, schedule.nextRetryAtMs, now, io)
      else OpBlock(id, c.row.revision, "retry exhausted", now, io)
    else OpBlock(id, c.row.revision, "permanent failure: " + ErrorText(error), now, io)
  }

  lemma StepTables(sha: Hash, p: Profile, w: World, a: Action)
    ensures Step(sha, p, w, a).tables ==
      if StepOp(p, w, a).Some? then Apply(sha, w.tables, StepOp(p, w, a).value).0 else w.tables
  {
    hide Accept, UpdateLifecycle, CreatePending, RecordAttempt, Confirm, Block, Retry, MarkBlocking, MarkCompleted, MarkInFlight,
      ResolveRouting, FailedAttempt, ComputeNextRetry, BeginStep, SendStep, RecoverStep, SettleStep;
    if a.Settle? && w.phase.Settling? {
      SettleIsOp(sha, w, a.now, a.io);
    } else {
      ReadsKeepTables(sha, p, w, a);
    }
  }

  /** Loading, reading a payload and recovering do not write. */
  lemma ReadsKeepTables(sha: Hash, p: Profile, w: World, a: Action)
    ensures a.Begin? || a.SendPayload? || a.Recover? ==> Step(sha, p, w, a).tables == w.tables
  {
    hide MarkBlocking, MarkCompleted, MarkInFlight, GetCandidate, Check, Refusal, ResolveRouting, ReadPayload, Scan, RecoverFrom,
      ToRecoveredAll, Apply;
  }

  lemma SettleIsOp(sha: Hash, w: World, now: int, io: Store)
    requires w.phase.Settling?
    ensures SettleStep(sha, w, now, io).tables == Apply(sha, w.tables, SettleOp(w.phase.c, w.phase.error, w.phase.failedAt, now, io)).0
  {
    hide SettleCall, SettleOp, MarkBlocking, Apply;
    CallIsOp(sha, w.tables, w.phase.c, w.phase.error, w.phase.failedAt, now, io);
  }

  lemma CallIsOp(sha: Hash, t: Tables, c: Candidate, error: SendError, failedAt: int, now: int, io: Store)
    ensures var r := SettleCall(sha, t, c, error, failedAt, now, io); Apply(sha, t, SettleOp(c, error, failedAt, now, io)) == (r.0, OfCas(r.1))
  {
    hide Block, Retry, ComputeNextRetry, ShouldRetry, ErrorText, Apply;
    ApplyIsCall(sha, t, SettleOp(c, error, failedAt, now, io));
  }

  lemma ApplyIsCall(sha: Hash, t: Tables, op: Op)
    ensures op.OpBlock? ==>
      var r := Block(sha, t, op.id, op.expected, op.reason, op.now, op.io); Apply(sha, t, op) == (r.0, OfCas(r.1))
    ensures op.OpRetry? ==>
      var r := Retry(sha, t, op.id, op.expected, op.nextRetryAtMs, op.now, op.io); Apply(sha, t, op) == (r.0, OfCas(r.1))
  {
    hide Block, Retry, Accept, UpdateLifecycle, CreatePending, RecordAttempt, Confirm;
  }

  // ---------------------------------------------------------------------------------------
  // Service runs are journal runs
  // ---------------------------------------------------------------------------------------

  /** The journal operations of a run, the service's own and the others'. */
  function OpsOf(sha: Hash, p: Profile, actions: seq<Action>): seq<Op> {
    if actions == [] then []
    else
      var n := |actions| - 1;
      var op := StepOp(p, Run(sha, p, actions[..n]), actions[n]);
      if op.Some? then OpsOf(sha, p, actions[..n]) + [op.value] else OpsOf(sha, p, actions[..n])
  }

  /** So every theorem about journal runs holds of the tables of a service run. */
  lemma {:induction false} RunIsJournalRun(sha: Hash, p: Profile, actions: seq<Action>)
    ensures Run(sha, p, actions).tables == After(sha, OpsOf(sha, p, actions))
  {
    hide Step, Apply, StepOp;
    if actions != [] {
      var n := |actions| - 1;
      var ops := OpsOf(sha, p, actions[..n]);
      RunIsJournalRun(sha, p, actions[..n]);
      StepTables(sha, p, Run(sha, p, actions[..n]), actions[n]);
      assert forall op: Op :: (ops + [op])[..|ops|] == ops;
    }
  }

  lemma {:induction false} RunTablesConsistent(sha: Hash, p: Profile, actions: seq<Action>)
    ensures Consistent(sha, Run(sha, p, actions).tables)
  {
    hide Consistent;
    RunIsJournalRun(sha, p, actions);
    RunsAreConsistent(sha, OpsOf(sha, p, actions));
  }

  // ---------------------------------------------------------------------------------------
  // Legal status changes
  // ---------------------------------------------------------------------------------------

  /** The row still has the status the service loaded, unless its revision moved on. */
  predicate Guarded(t: Tables, c: Candidate) {
    var id := c.envelope.eventId;
    && (c.row.status == Pending || c.row.status == Retrying)
    && id in t.deliveries && t.deliveries[id].revision >= c.row.revision
    && (t.deliveries[id].revision == c.row.revision ==> t.deliveries[id].status == c.row.status)
  }

  predicate GuardedWorld(w: World) {
    !w.phase.Idle? ==> Guarded(w.tables, w.phase.c)
  }

  predicate OnlyServiceConfirms(a: Action) {
    a.Other? ==> !a.op.OpConfirm?
  }

  lemma StatusNeedsHit(sha: Hash, t: Tables, op: Op, id: string)
    requires id in t.deliveries && !Hit(op, Apply(sha, t, op).1, id)
    ensures id in Apply(sha, t, op).0.deliveries && Apply(sha, t, op).0.deliveries[id].status == t.deliveries[id].status
  {
    hide Apply, SameRoute, DeliveryChecksum, WellFormedRow;
    RowStep(sha, t, op, id);
    if Updates(op, Apply(sha, t, op).1, id) {
      if op.OpLifecycle? {
        LifecycleKeepsRows(sha, t, op);
      } else {
        RowChange(sha, t, op, id);
      }
    }
  }

  lemma GuardHolds(sha: Hash, t: Tables, op: Op, c: Candidate)
    requires Guarded(t, c)
    ensures Guarded(Apply(sha, t, op).0, c)
  {
    hide Apply, Hit;
    var id := c.envelope.eventId;
    RevisionStep(sha, t, op, id);
    if !Hit(op, Apply(sha, t, op).1, id) {
      StatusNeedsHit(sha, t, op, id);
    }
  }

  /** Which candidate a step leaves in hand. */
  lemma StepPhase(sha: Hash, p: Profile, w: World, a: Action)
    ensures var v := Step(sha, p, w, a);
      if v.phase.Idle? then true
      else if w.phase.Idle? then
        && a.Begin? && GetCandidate(sha, w.tables, a.id) == Ready(v.phase.c)
        && v.phase.c.row.status != Replicated && v.phase.c.row.status != Blocked
      else v.phase.c == w.phase.c
  {
    hide Apply, RecordAttempt, Confirm, Block, Retry, MarkBlocking, MarkCompleted, MarkInFlight,
      GetCandidate, Check, Refusal, ResolveRouting, ReadPayload, Scan, RecoverFrom, ToRecoveredAll, FailedAttempt, ComputeNextRetry;
  }

  lemma LoadedIsGuarded(sha: Hash, t: Tables, id: string)
    requires GetCandidate(sha, t, id).Ready?
    requires GetCandidate(sha, t, id).candidate.row.status != Replicated && GetCandidate(sha, t, id).candidate.row.status != Blocked
    ensures Guarded(t, GetCandidate(sha, t, id).candidate)
  {
    hide EnvelopeChecksum, DeliveryChecksum;
  }

  lemma GuardedStep(sha: Hash, p: Profile, w: World, a: Action)
    requires GuardedWorld(w)
    ensures GuardedWorld(Step(sha, p, w, a))
  {
    hide Step, Apply, Guarded, StepOp, GetCandidate;
    StepTables(sha, p, w, a);
    StepPhase(sha, p, w, a);
    var v := Step(sha, p, w, a);
    if !v.phase.Idle? {
      if w.phase.Idle? {
        LoadedIsGuarded(sha, w.tables, a.id);
        BeginKeepsTables(p, w, a);
      } else if StepOp(p, w, a).Some? {
        GuardHolds(sha, w.tables, StepOp(p, w, a).value, w.phase.c);
      }
    }
  }

  lemma BeginKeepsTables(p: Profile, w: World, a: Action)
    requires a.Begin?
    ensures StepOp(p, w, a).None?
  {
  }

  lemma {:induction false} RunsAreGuarded(sha: Hash, p: Profile, actions: seq<Action>)
    ensures GuardedWorld(Run(sha, p, actions))
  {
    hide Step, Guarded;
    if actions != [] {
      var n := |actions| - 1;
      RunsAreGuarded(sha, p, actions[..n]);
      GuardedStep(sha, p, Run(sha, p, actions[..n]), actions[n]);
    }
  }

  /** In every run in which only the service confirms, each change of a delivery status is one
      that `validate_transition` permits, even when others block and retry between its calls. */
  lemma {:induction false} StatusChangesAreLegal(sha: Hash, p: Profile, actions: seq<Action>, a: Action, id: string)
    requires OnlyServiceConfirms(a) && id in Run(sha, p, actions).tables.deliveries
    ensures var w := Run(sha, p, actions);
      && id in Step(sha, p, w, a).tables.deliveries
      && var from, to := w.tables.deliveries[id].status, Step(sha, p, w, a).tables.deliveries[id].status;
         from != to ==> Permitted(from, to)
  {
    hide Run, Step, Apply, Permitted, FailedAttempt, SettleOp;
    var w := Run(sha, p, actions);
    StepTables(sha, p, w, a);
    var op := StepOp(p, w, a);
    if op.Some? {
      JournalTransitions(sha, w.tables, op.value, id);
      if op.value.OpConfirm? {
        RunsAreGuarded(sha, p, actions);
        ConfirmIsFromLoadedStatus(sha, w.tables, op.value, w.phase.c, id);
      }
    }
  }

  lemma ConfirmIsFromLoadedStatus(sha: Hash, t: Tables, op: Op, c: Candidate, id: string)
    requires Guarded(t, c) && op.OpConfirm? && op.id == c.envelope.eventId && op.expected == c.row.revision && id in t.deliveries
    ensures id in Apply(sha, t, op).0.deliveries
    ensures Apply(sha, t, op).0.deliveries[id].status != t.deliveries[id].status ==> t.deliveries[id].status != Blocked
  {
    hide Apply, SameRoute, DeliveryChecksum, WellFormedRow;
    RowStep(sha, t, op, id);
    if Updates(op, Apply(sha, t, op).1, id) {
      RowChange(sha, t, op, id);
    }
  }

  // ---------------------------------------------------------------------------------------
  // Reload closure over runs
  // ---------------------------------------------------------------------------------------

  /** A step whose journal operation succeeds and leaves a row the loader rejects. */
  predicate StepSpoils(sha: Hash, p: Profile, w: World, a: Action) {
    StepOp(p, w, a).Some? && Spoils(sha, w.tables, StepOp(p, w, a).value)
  }

  ghost predicate NoStepSpoils(sha: Hash, p: Profile, actions: seq<Action>) {
    forall i :: 0 <= i < |actions| ==> !StepSpoils(sha, p, Run(sha, p, actions[..i]), actions[i])
  }

  lemma NoStepSpoilsSplit(sha: Hash, p: Profile, actions: seq<Action>)
    requires actions != []
    ensures var n := |actions| - 1;
      NoStepSpoils(sha, p, actions) <==>
        NoStepSpoils(sha, p, actions[..n]) && !StepSpoils(sha, p, Run(sha, p, actions[..n]), actions[n])
  {
    hide Run, StepSpoils;
    var n := |actions| - 1;
    assert forall i :: 0 <= i < n ==> actions[..n][..i] == actions[..i];
  }

  /** After any run of the service, the broker, the store and other users, and wherever the process
      stopped, every delivery row verifies exactly when no step spoiled one. */
  lemma {:induction false} RunReloadsExactlyWhen(sha: Hash, p: Profile, actions: seq<Action>)
    ensures AllReload(sha, Run(sha, p, actions).tables) <==> NoStepSpoils(sha, p, actions)
  {
    hide Step, Apply, Spoils, StepOp, AllReload, NoStepSpoils;
    if actions == [] {
      EmptyReloads(sha);
      NothingSpoils(sha, p);
    } else {
      var n := |actions| - 1;
      var w, a := Run(sha, p, actions[..n]), actions[n];
      RunReloadsExactlyWhen(sha, p, actions[..n]);
      StepTables(sha, p, w, a);
      NoStepSpoilsSplit(sha, p, actions);
      if StepOp(p, w, a).Some? {
        ReloadStep(sha, w.tables, StepOp(p, w, a).value);
      }
    }
  }

  lemma NothingSpoils(sha: Hash, p: Profile)
    ensures NoStepSpoils(sha, p, [])
  {
  }

  lemma RefusalReasons(sha: Hash, p: Profile, w: World, a: Action)
    requires w.phase.Refusing? ==> w.phase.reason != ""
    ensures Step(sha, p, w, a).phase.Refusing? ==> Step(sha, p, w, a).phase.reason != ""
  {
    hide Apply, RecordAttempt, Confirm, Block, Retry, MarkBlocking, MarkCompleted, MarkInFlight,
      GetCandidate, Check, ResolveRouting, ReadPayload, Scan, RecoverFrom, ToRecoveredAll, FailedAttempt, ComputeNextRetry;
  }

  lemma {:induction false} RefusalsHaveReasons(sha: Hash, p: Profile, actions: seq<Action>)
    ensures Run(sha, p, actions).phase.Refusing? ==> Run(sha, p, actions).phase.reason != ""
  {
    hide Step;
    if actions != [] {
      var n := |actions| - 1;
      RefusalsHaveReasons(sha, p, actions[..n]);
      RefusalReasons(sha, p, Run(sha, p, actions[..n]), actions[n]);
    }
  }

  /** The broker's coordinates are non-negative. */
  predicate SaneAnswer(a: Action) {
    a.BrokerAccepts? ==> a.partition >= 0 && a.offset >= 0
  }

  lemma ConfirmIsWellFormed(sha: Hash, t: Tables, op: Op, c: Candidate)
    requires Guarded(t, c) && op.OpConfirm? && op.id == c.envelope.eventId && op.expected == c.row.revision
    requires op.confirmation.partition >= 0 && op.confirmation.offset >= 0 && Succeeds(sha, t, op)
    ensures WellFormedOp(t, op)
  {
    hide Confirm, NextLifecycle, Seal;
    ConfirmEffect(sha, t, op.id, op.expected, op.confirmation, op.now, op.io);
  }

  /** In any run, no step of the service itself spoils a row unless the broker answers with negative
      coordinates. */
  lemma {:induction false} ServiceSpoilsNothing(sha: Hash, p: Profile, actions: seq<Action>, a: Action)
    requires !a.Other? && SaneAnswer(a)
    ensures !StepSpoils(sha, p, Run(sha, p, actions), a)
  {
    hide Run, Apply, FailedAttempt, SettleOp;
    var w := Run(sha, p, actions);
    RunsAreGuarded(sha, p, actions);
    RefusalsHaveReasons(sha, p, actions);
    if a.BrokerAccepts? && StepSpoils(sha, p, w, a) {
      ConfirmIsWellFormed(sha, w.tables, StepOp(p, w, a).value, w.phase.c);
    }
  }

  predicate WellFormedAction(t: Tables, a: Action) {
    SaneAnswer(a) && (a.Other? ==> WellFormedOp(t, a.op))
  }

  ghost predicate WellFormedRun(sha: Hash, p: Profile, actions: seq<Action>) {
    forall i :: 0 <= i < |actions| ==> WellFormedAction(Run(sha, p, actions[..i]).tables, actions[i])
  }

  /** So every row verifies in every run in which the broker answers sanely and the other users'
      arguments are well formed. */
  lemma {:induction false} RunsReload(sha: Hash, p: Profile, actions: seq<Action>)
    requires WellFormedRun(sha, p, actions)
    ensures AllReload(sha, Run(sha, p, actions).tables)
  {
    hide Run, Apply, StepSpoils, WellFormedOp, AllReload;
    forall i | 0 <= i < |actions| ensures !StepSpoils(sha, p, Run(sha, p, actions[..i]), actions[i]) {
      assert WellFormedAction(Run(sha, p, actions[..i]).tables, actions[i]);
      if actions[i].Other? {
        WellFormedSpoilsNothing(sha, p, Run(sha, p, actions[..i]), actions[i]);
      } else {
        ServiceSpoilsNothing(sha, p, actions[..i], actions[i]);
      }
    }
    RunReloadsExactlyWhen(sha, p, actions);
  }

  lemma WellFormedSpoilsNothing(sha: Hash, p: Profile, w: World, a: Action)
    requires a.Other? && WellFormedOp(w.tables, a.op)
    ensures !StepSpoils(sha, p, w, a)
  {
    hide WellFormedOp, Apply;
  }

  // ---------------------------------------------------------------------------------------
  // Recovery in runs
  // ---------------------------------------------------------------------------------------

  lemma ScanSucceeds(sha: Hash, t: Tables, limit: nat)
    requires Consistent(sha, t) && AllReload(sha, t)
    ensures Scan(sha, t, limit, Healthy) == Some(Cut(ScanRows(t, t.envelopes), limit))
  {
    hide Load, EnvelopeChecksum, LifecycleChecksum, Ordered, HeadsCount, Keyed, ProducersRise, LogsBounded, ProducerOf;
    var rows := Cut(ScanRows(t, t.envelopes), limit);
    forall i | 0 <= i < |rows| ensures Verified(sha, t, rows[i]) {
      assert rows[i] in ScanRows(t, t.envelopes);
      assert Reloads(sha, t, rows[i].eventId);
      assert Intact(sha, t, rows[i]);
    }
  }

  /** At any point of any run, recovering with room for every row leaves a gate that lets exactly
      the first unreplicated sequence of a key through and names it to all others; a scan cut at its
      limit can only make the gate let an earlier, replicated sequence through. */
  lemma {:induction false} RecoveryInRuns(sha: Hash, p: Profile, actions: seq<Action>, limit: nat, key: string) returns (f: int)
    requires AdmissibleRun(sha, p, actions) && WellFormedRun(sha, p, actions) && Run(sha, p, actions).phase.Idle?
    ensures FirstUndone(Run(sha, p, actions).tables, key, f)
    ensures var w := Run(sha, p, actions);
      var v := Step(sha, p, w, Recover(limit, Healthy));
      && (|ScanRows(w.tables, w.tables.envelopes)| <= limit ==>
            forall n :: Check(v.gate, key, n) == if n == f then Allowed else Held(f))
      && (forall n :: Check(v.gate, key, n) == Allowed ==> n <= f)
  {
    hide AdmissibleRun, WellFormedRun, Run, TablesSound, GateSound, SendsSound, PhaseSound, Check, RecoverFrom, FirstUndone, Scan, Cut,
      ScanRows, ToRecoveredAll, Represents;
    var w := Run(sha, p, actions);
    var t := w.tables;
    RunsAreSound(sha, p, actions);
    RunsReload(sha, p, actions);
    SoundIsConsistent(sha, t);
    ScanSucceeds(sha, t, limit);
    f := FirstUndoneExists(sha, t, key);
    RecoverStepSound(sha, w, limit, Healthy);
    var v := RecoverStep(sha, w, limit, Healthy);
    assert v == Step(sha, p, w, Recover(limit, Healthy));
    forall n | Check(v.gate, key, n) == Allowed ensures n <= f {
      SoundGateIsConservative(sha, t, v.gate, key, f, n);
    }
    if |ScanRows(t, t.envelopes)| <= limit {
      var rows := ScanRows(t, t.envelopes);
      CompleteScan(t, limit);
      RecoveredGateAgrees(sha, t, ToRecoveredAll(t, rows), rows, key, f);
    }
  }

  lemma CompleteScan(t: Tables, limit: nat)
    requires |ScanRows(t, t.envelopes)| <= limit
    ensures var rows := ScanRows(t, t.envelopes);
      && Cut(rows, limit) == rows && Represents(t, ToRecoveredAll(t, rows), rows)
      && forall e :: e in rows <==> e in t.envelopes && e.eventId in t.deliveries
  {
    hide ScanRows, ToRecoveredAll, ToRecovered;
    var rows := ScanRows(t, t.envelopes);
    forall e ensures e in rows <==> e in t.envelopes && e.eventId in t.deliveries {
      ScanMembers(t, t.envelopes, e);
    }
    forall r ensures r in ToRecoveredAll(t, rows) <==> exists e :: e in rows && r == ToRecovered(t, e) {
      RecoveredMembers(t, rows, r);
    }
  }
}
