/** The retry budget: how often an event can fail, over every run of the delivery service. */
module RetryTheorems {
  import opened Common
  import opened Records
  import opened Journal
  import opened JournalRuns
  import opened JournalTheorems
  import opened ReloadTheorems
  import opened Gate
  import opened Delivery
  import opened DeliveryRuns
  import opened ServiceTheorems

  // ---------------------------------------------------------------------------------------
  // What is counted
  // ---------------------------------------------------------------------------------------

  /** The service has recorded a failure of the event and not yet retried or blocked it. */
  predicate SettlingOn(w: World, id: string) {
    w.phase.Settling? && w.phase.c.envelope.eventId == id
  }

  /** A failed send of the event. */
  predicate FailsNow(w: World, a: Action, id: string) {
    w.phase.InFlight? && a.BrokerFails? && w.phase.c.envelope.eventId == id
  }

  /** The retry or block after a failed send, persisted. */
  predicate SettlesNow(sha: Hash, p: Profile, w: World, a: Action, id: string) {
    SettlingOn(w, id) && a.Settle? && Succeeds(sha, w.tables, StepOp(p, w, a).value)
  }

  /** A failed send whose record, retry or block is not persisted: the store failed, another user got
      in between, or the process stopped. */
  predicate LosesNow(sha: Hash, p: Profile, w: World, a: Action, id: string) {
    || (FailsNow(w, a, id) && !SettlingOn(Step(sha, p, w, a), id))
    || (SettlingOn(w, id) && !SettlingOn(Step(sha, p, w, a), id) && !SettlesNow(sha, p, w, a, id))
  }

  function Failures(sha: Hash, p: Profile, actions: seq<Action>, id: string): nat {
    if actions == [] then 0
    else
      var n := |actions| - 1;
      Failures(sha, p, actions[..n], id) + if FailsNow(Run(sha, p, actions[..n]), actions[n], id) then 1 else 0
  }

  function Settles(sha: Hash, p: Profile, actions: seq<Action>, id: string): nat {
    if actions == [] then 0
    else
      var n := |actions| - 1;
      Settles(sha, p, actions[..n], id) + if SettlesNow(sha, p, Run(sha, p, actions[..n]), actions[n], id) then 1 else 0
  }

  function Losses(sha: Hash, p: Profile, actions: seq<Action>, id: string): nat {
    if actions == [] then 0
    else
      var n := |actions| - 1;
      Losses(sha, p, actions[..n], id) + if LosesNow(sha, p, Run(sha, p, actions[..n]), actions[n], id) then 1 else 0
  }

  /** Settling is entered by a failed send only, and left by nothing but settling or a restart. */
  lemma SettlingStep(sha: Hash, p: Profile, w: World, a: Action, id: string)
    ensures SettlingOn(Step(sha, p, w, a), id) ==> SettlingOn(w, id) || FailsNow(w, a, id)
    ensures SettlesNow(sha, p, w, a, id) ==> !SettlingOn(Step(sha, p, w, a), id) && Step(sha, p, w, a).phase.Idle?
    ensures !(FailsNow(w, a, id) && SettlingOn(w, id))
  {
    hide Apply, RecordAttempt, Confirm, Block, Retry, MarkBlocking, MarkCompleted, MarkInFlight,
      GetCandidate, Check, Refusal, ResolveRouting, ReadPayload, Scan, RecoverFrom, ToRecoveredAll, FailedAttempt, SettleCall;
  }

  /** Every failed send is settled, lost, or the one being settled. */
  lemma {:induction false} FailuresAreAccounted(sha: Hash, p: Profile, actions: seq<Action>, id: string)
    ensures Failures(sha, p, actions, id) ==
      Settles(sha, p, actions, id) + Losses(sha, p, actions, id) + if SettlingOn(Run(sha, p, actions), id) then 1 else 0
  {
    hide Step, FailsNow, SettlesNow, SettlingOn;
    if actions == [] {
      NothingSettles(id);
    } else {
      var n := |actions| - 1;
      FailuresAreAccounted(sha, p, actions[..n], id);
      SettlingStep(sha, p, Run(sha, p, actions[..n]), actions[n], id);
      SettlesWhileSettling(sha, p, Run(sha, p, actions[..n]), actions[n], id);
    }
  }

  lemma NothingSettles(id: string)
    ensures !SettlingOn(START, id)
  {
  }

  lemma SettlesWhileSettling(sha: Hash, p: Profile, w: World, a: Action, id: string)
    ensures SettlesNow(sha, p, w, a, id) ==> SettlingOn(w, id)
  {
    hide Apply;
  }

  // ---------------------------------------------------------------------------------------
  // The budget
  // ---------------------------------------------------------------------------------------

  /** A row the service may load and send. */
  predicate Open(r: DeliveryRow) {
    (r.status == Pending || r.status == Retrying) && r.blockedReason.None?
  }

  /** An open row has settled at most 31 failures and counts them all; so does the candidate in hand. */
  predicate Budgeted(w: World, id: string, k: int) {
    && 0 <= k <= MAX_RETRY_ATTEMPTS
    && (id !in w.tables.deliveries ==> k == 0)
    && (id in w.tables.deliveries && Open(w.tables.deliveries[id]) ==>
          k < MAX_RETRY_ATTEMPTS && k <= w.tables.deliveries[id].attemptCount)
    && (!w.phase.Idle? && w.phase.c.envelope.eventId == id ==> InHand(w, k))
  }

  predicate InHand(w: World, k: int)
    requires !w.phase.Idle?
  {
    var c, id := w.phase.c, w.phase.c.envelope.eventId;
    && k < MAX_RETRY_ATTEMPTS && k <= c.row.attemptCount
    && id in w.tables.deliveries
    && w.tables.deliveries[id].attemptCount >= c.row.attemptCount + if w.phase.Settling? then 1 else 0
  }

  /** No operation lowers the attempt count or opens a closed row. */
  lemma RowStaysBudgeted(sha: Hash, t: Tables, op: Op, id: string)
    ensures var u := Apply(sha, t, op).0;
      && (id in t.deliveries ==>
            && id in u.deliveries && u.deliveries[id].attemptCount >= t.deliveries[id].attemptCount
            && (Open(u.deliveries[id]) ==> Open(t.deliveries[id])))
      && (id !in t.deliveries && id in u.deliveries ==> u.deliveries[id].attemptCount == 0)
  {
    hide Apply, SameRoute, DeliveryChecksum;
    RowStep(sha, t, op, id);
    if id in t.deliveries && Updates(op, Apply(sha, t, op).1, id) {
      if op.OpLifecycle? {
        LifecycleKeepsRows(sha, t, op);
      } else {
        RowChange(sha, t, op, id);
      }
    }
    if id !in t.deliveries && id in Apply(sha, t, op).0.deliveries {
      NewRow(sha, t, op, id);
    }
  }

  /** A recorded failure counts one more. */
  lemma RecordCounts(sha: Hash, t: Tables, op: Op)
    requires op.OpRecord? && Succeeds(sha, t, op)
    ensures op.id in t.deliveries && op.id in Apply(sha, t, op).0.deliveries
    ensures Apply(sha, t, op).0.deliveries[op.id].attemptCount == t.deliveries[op.id].attemptCount + 1
  {
    hide RecordAttempt, DeliveryChecksum, Newest;
    RecordEffect(sha, t, op.id, op.attempt, op.now, op.io);
  }

  lemma FailRecords(sha: Hash, p: Profile, w: World, a: Action)
    requires w.phase.InFlight? && a.BrokerFails?
    ensures StepOp(p, w, a).Some? && StepOp(p, w, a).value.OpRecord? && StepOp(p, w, a).value.id == w.phase.c.envelope.eventId
    ensures Step(sha, p, w, a).phase.Settling? <==> Succeeds(sha, w.tables, StepOp(p, w, a).value)
    ensures !Step(sha, p, w, a).phase.Settling? ==> Step(sha, p, w, a).phase.Idle?
  {
    hide RecordAttempt, FailedAttempt;
  }

  lemma CandidateIsRow(sha: Hash, t: Tables, id: string)
    requires GetCandidate(sha, t, id).Ready?
    ensures var c := GetCandidate(sha, t, id).candidate;
      c.envelope.eventId == id && id in t.deliveries && c.row == t.deliveries[id] && WellFormedRow(c.row)
  {
    hide EnvelopeChecksum, DeliveryChecksum;
  }

  /** Every step that settles nothing. */
  lemma QuietStepStaysBudgeted(sha: Hash, p: Profile, w: World, a: Action, id: string, k: int)
    requires Budgeted(w, id, k) && !SettlesNow(sha, p, w, a, id)
    ensures Budgeted(Step(sha, p, w, a), id, k)
  {
    hide Step, Apply, GetCandidate, StepOp, SettlesNow;
    var v := Step(sha, p, w, a);
    StepTables(sha, p, w, a);
    StepPhase(sha, p, w, a);
    SettlingStep(sha, p, w, a, id);
    var op := StepOp(p, w, a);
    if op.Some? {
      RowStaysBudgeted(sha, w.tables, op.value, id);
    }
    if w.phase.Idle? && !v.phase.Idle? {
      CandidateIsRow(sha, w.tables, a.id);
      BeginKeepsTables(p, w, a);
    }
    if FailsNow(w, a, id) {
      FailRecords(sha, p, w, a);
      if v.phase.Settling? {
        RecordCounts(sha, w.tables, op.value);
      }
    }
  }

  /** A settle spends one of the budget, and the last one blocks. */
  lemma SettleStaysBudgeted(sha: Hash, p: Profile, w: World, a: Action, id: string, k: int)
    requires Budgeted(w, id, k) && SettlesNow(sha, p, w, a, id)
    ensures Budgeted(Step(sha, p, w, a), id, k + 1)
    ensures k + 1 == MAX_RETRY_ATTEMPTS ==> Step(sha, p, w, a).tables.deliveries[id].status == Blocked
  {
    hide Step, Apply, ErrorText, ComputeNextRetry, SameRoute, DeliveryChecksum;
    StepTables(sha, p, w, a);
    SettlingStep(sha, p, w, a, id);
    var op := StepOp(p, w, a).value;
    RowChange(sha, w.tables, op, id);
    ExhaustedIsUnreachable(w.phase.error, w.phase.c.row.attemptCount + 1, w.phase.failedAt);
  }

  lemma {:induction false} RunsAreBudgeted(sha: Hash, p: Profile, actions: seq<Action>, id: string)
    ensures Budgeted(Run(sha, p, actions), id, Settles(sha, p, actions, id))
  {
    hide Step, Budgeted, SettlesNow;
    if actions == [] {
      StartIsBudgeted(id);
    } else {
      var n := |actions| - 1;
      var w := Run(sha, p, actions[..n]);
      RunsAreBudgeted(sha, p, actions[..n], id);
      if SettlesNow(sha, p, w, actions[n], id) {
        SettleStaysBudgeted(sha, p, w, actions[n], id, Settles(sha, p, actions[..n], id));
      } else {
        QuietStepStaysBudgeted(sha, p, w, actions[n], id, Settles(sha, p, actions[..n], id));
      }
    }
  }

  lemma StartIsBudgeted(id: string)
    ensures Budgeted(START, id, 0)
  {
  }

  /** In every run, whatever the broker, the store, other users and restarts do: at most 32 failed
      sends of an event are settled, so it fails at most 32 times more than persistence let it down,
      and once 32 are settled its row is never open to the service again. */
  lemma {:induction false} RetryBudget(sha: Hash, p: Profile, actions: seq<Action>, id: string)
    ensures Settles(sha, p, actions, id) <= MAX_RETRY_ATTEMPTS
    ensures Failures(sha, p, actions, id) <= MAX_RETRY_ATTEMPTS + Losses(sha, p, actions, id)
    ensures var t := Run(sha, p, actions).tables;
      Settles(sha, p, actions, id) == MAX_RETRY_ATTEMPTS ==> id in t.deliveries && !Open(t.deliveries[id])
  {
    hide Run, Failures, Settles, Losses;
    FailuresAreAccounted(sha, p, actions, id);
    RunsAreBudgeted(sha, p, actions, id);
  }

  /** Nobody else confirms or retries the event. */
  predicate LeftAlone(a: Action, id: string) {
    a.Other? && (a.op.OpConfirm? || a.op.OpRetry?) ==> a.op.id != id
  }

  ghost predicate LeftAloneIn(actions: seq<Action>, id: string) {
    forall i :: 0 <= i < |actions| ==> LeftAlone(actions[i], id)
  }

  /** The service does not touch a BLOCKED row. */
  lemma BlockedStays(sha: Hash, p: Profile, w: World, a: Action, id: string)
    requires GuardedWorld(w) && LeftAlone(a, id) && id in w.tables.deliveries && w.tables.deliveries[id].status == Blocked
    ensures var t := Step(sha, p, w, a).tables; id in t.deliveries && t.deliveries[id].status == Blocked
  {
    hide Step, Apply, FailedAttempt, ErrorText, ComputeNextRetry, ShouldRetry, SameRoute, DeliveryChecksum;
    StepTables(sha, p, w, a);
    var op := StepOp(p, w, a);
    if op.Some? {
      RowStep(sha, w.tables, op.value, id);
      if Updates(op.value, Apply(sha, w.tables, op.value).1, id) {
        if op.value.OpLifecycle? {
          LifecycleKeepsRows(sha, w.tables, op.value);
        } else {
          RowChange(sha, w.tables, op.value, id);
        }
      }
    }
  }

  /** Unless others confirm or retry it, an event with 32 settled failures is BLOCKED for good. */
  lemma {:induction false} BudgetEndsBlocked(sha: Hash, p: Profile, actions: seq<Action>, id: string)
    requires LeftAloneIn(actions, id) && Settles(sha, p, actions, id) == MAX_RETRY_ATTEMPTS
    ensures var t := Run(sha, p, actions).tables; id in t.deliveries && t.deliveries[id].status == Blocked
  {
    hide Step, Budgeted, SettlesNow, GuardedWorld, LeftAlone;
    var n := |actions| - 1;
    var w := Run(sha, p, actions[..n]);
    RunsAreBudgeted(sha, p, actions[..n], id);
    if SettlesNow(sha, p, w, actions[n], id) {
      SettleStaysBudgeted(sha, p, w, actions[n], id, Settles(sha, p, actions[..n], id));
      StepTables(sha, p, w, actions[n]);
      SettledRowExists(sha, p, w, actions[n], id);
    } else {
      BudgetEndsBlocked(sha, p, actions[..n], id);
      RunsAreGuarded(sha, p, actions[..n]);
      BlockedStays(sha, p, w, actions[n], id);
    }
  }

  lemma SettledRowExists(sha: Hash, p: Profile, w: World, a: Action, id: string)
    requires SettlesNow(sha, p, w, a, id)
    ensures id in Step(sha, p, w, a).tables.deliveries
  {
    hide Step, Apply, ErrorText, ComputeNextRetry, ShouldRetry;
    StepTables(sha, p, w, a);
    HitNeedsRow(sha, w.tables, StepOp(p, w, a).value, id);
    RowStep(sha, w.tables, StepOp(p, w, a).value, id);
  }

  // ---------------------------------------------------------------------------------------
  // Attempt count and log
  // ---------------------------------------------------------------------------------------

  predicate RecordsNow(sha: Hash, t: Tables, op: Op, id: string) {
    op.OpRecord? && op.id == id && Succeeds(sha, t, op)
  }

  /** All attempts ever recorded for an event, by whomever. */
  function Recorded(sha: Hash, ops: seq<Op>, id: string): seq<DeliveryAttempt> {
    if ops == [] then []
    else
      var n := |ops| - 1;
      if RecordsNow(sha, After(sha, ops[..n]), ops[n], id) then Recorded(sha, ops[..n], id) + [ops[n].attempt]
      else Recorded(sha, ops[..n], id)
  }

  lemma NewestOfNewest(log: seq<DeliveryAttempt>, a: DeliveryAttempt)
    ensures Newest(Newest(log) + [a]) == Newest(log + [a])
  {
  }

  lemma RecordStep(sha: Hash, t: Tables, op: Op, id: string)
    ensures var u := Apply(sha, t, op).0;
      if RecordsNow(sha, t, op, id) then
        && id in t.deliveries && id in u.deliveries && u.deliveries[id].attemptCount == t.deliveries[id].attemptCount + 1
        && LogOf(u.deliveryAttempts, id) == Newest(LogOf(t.deliveryAttempts, id) + [op.attempt])
      else
        && LogOf(u.deliveryAttempts, id) == LogOf(t.deliveryAttempts, id)
        && (id in t.deliveries ==> id in u.deliveries && u.deliveries[id].attemptCount == t.deliveries[id].attemptCount)
        && (id !in t.deliveries && id in u.deliveries ==> u.deliveries[id].attemptCount == 0)
  {
    hide Apply, SameRoute, DeliveryChecksum, WellFormedRow, Newest;
    LogStep(sha, t, op, id);
    RowStep(sha, t, op, id);
    if id in t.deliveries && Updates(op, Apply(sha, t, op).1, id) {
      if op.OpLifecycle? {
        LifecycleKeepsRows(sha, t, op);
      } else {
        RowChange(sha, t, op, id);
      }
    }
    if id !in t.deliveries && id in Apply(sha, t, op).0.deliveries {
      NewRow(sha, t, op, id);
    }
  }

  /** Only a successful record writes the attempt log. */
  lemma LogStep(sha: Hash, t: Tables, op: Op, id: string)
    ensures var u := Apply(sha, t, op).0;
      if RecordsNow(sha, t, op, id) then
        id in t.deliveries && LogOf(u.deliveryAttempts, id) == Newest(LogOf(t.deliveryAttempts, id) + [op.attempt])
      else LogOf(u.deliveryAttempts, id) == LogOf(t.deliveryAttempts, id)
  {
    hide Accept, UpdateLifecycle, CreatePending, RecordAttempt, Confirm, Block, Retry, Newest, Seal, WellFormedRow;
    if op.OpAccept? {
      AcceptKeepsRows(sha, t, op.site, op.request, op.now, op.io);
    }
    if op.OpRecord? && Succeeds(sha, t, op) {
      RecordEffect(sha, t, op.id, op.attempt, op.now, op.io);
    }
  }

  /** After any run the attempt count is the number of recorded attempts and the log holds exactly
      the newest 16 of them. */
  lemma {:induction false} AttemptsAreLogged(sha: Hash, ops: seq<Op>, id: string)
    ensures var t, all := After(sha, ops), Recorded(sha, ops, id);
      && LogOf(t.deliveryAttempts, id) == Newest(all)
      && if id in t.deliveries then t.deliveries[id].attemptCount == |all| else all == []
  {
    hide Apply, RecordsNow, Newest;
    if ops == [] {
      NothingLogged(id);
    } else {
      var n := |ops| - 1;
      AttemptsAreLogged(sha, ops[..n], id);
      RecordStep(sha, After(sha, ops[..n]), ops[n], id);
      if RecordsNow(sha, After(sha, ops[..n]), ops[n], id) {
        RecordsAreRecords(sha, After(sha, ops[..n]), ops[n], id);
        NewestOfNewest(Recorded(sha, ops[..n], id), ops[n].attempt);
      }
    }
  }

  lemma RecordsAreRecords(sha: Hash, t: Tables, op: Op, id: string)
    ensures RecordsNow(sha, t, op, id) ==> op.OpRecord?
  {
    hide Apply;
  }

  lemma NothingLogged(id: string)
    ensures LogOf(EMPTY.deliveryAttempts, id) == Newest<DeliveryAttempt>([])
  {
  }

  // ---------------------------------------------------------------------------------------
  // The service's failures among the recorded attempts
  // ---------------------------------------------------------------------------------------

  /** A failed send whose record is refused. */
  predicate UnrecordedNow(sha: Hash, p: Profile, w: World, a: Action, id: string) {
    FailsNow(w, a, id) && !SettlingOn(Step(sha, p, w, a), id)
  }

  /** Another user's record. */
  predicate ForeignNow(sha: Hash, w: World, a: Action, id: string) {
    a.Other? && RecordsNow(sha, w.tables, a.op, id)
  }

  function Unrecorded(sha: Hash, p: Profile, actions: seq<Action>, id: string): nat {
    if actions == [] then 0
    else
      var n := |actions| - 1;
      Unrecorded(sha, p, actions[..n], id) + if UnrecordedNow(sha, p, Run(sha, p, actions[..n]), actions[n], id) then 1 else 0
  }

  function Foreign(sha: Hash, p: Profile, actions: seq<Action>, id: string): nat {
    if actions == [] then 0
    else
      var n := |actions| - 1;
      Foreign(sha, p, actions[..n], id) + if ForeignNow(sha, Run(sha, p, actions[..n]), actions[n], id) then 1 else 0
  }

  lemma RecordsOfStep(sha: Hash, p: Profile, w: World, a: Action, id: string)
    ensures StepOp(p, w, a).Some? && RecordsNow(sha, w.tables, StepOp(p, w, a).value, id)
       <==> ForeignNow(sha, w, a, id) || (FailsNow(w, a, id) && !UnrecordedNow(sha, p, w, a, id))
    ensures FailsNow(w, a, id) ==> !ForeignNow(sha, w, a, id)
  {
    hide Step, Apply, FailedAttempt, ErrorText, ComputeNextRetry, ShouldRetry;
    if w.phase.InFlight? && a.BrokerFails? {
      FailRecords(sha, p, w, a);
      StepPhase(sha, p, w, a);
    }
  }

  /** In every run the attempt count is the number of failed sends, less those whose record was
      refused, plus the attempts others recorded. */
  lemma {:induction false} AttemptsAreAccounted(sha: Hash, p: Profile, actions: seq<Action>, id: string)
    ensures |Recorded(sha, OpsOf(sha, p, actions), id)| + Unrecorded(sha, p, actions, id) ==
      Failures(sha, p, actions, id) + Foreign(sha, p, actions, id)
    ensures var t := Run(sha, p, actions).tables;
      && LogOf(t.deliveryAttempts, id) == Newest(Recorded(sha, OpsOf(sha, p, actions), id))
      && (id in t.deliveries ==> t.deliveries[id].attemptCount == |Recorded(sha, OpsOf(sha, p, actions), id)|)
  {
    hide Step, StepOp, FailsNow, UnrecordedNow, ForeignNow, RecordsNow, After, Newest, LogOf;
    RunIsJournalRun(sha, p, actions);
    AttemptsAreLogged(sha, OpsOf(sha, p, actions), id);
    if actions != [] {
      var n := |actions| - 1;
      var w := Run(sha, p, actions[..n]);
      AttemptsAreAccounted(sha, p, actions[..n], id);
      RunIsJournalRun(sha, p, actions[..n]);
      RecordsOfStep(sha, p, w, actions[n], id);
      UnrecordedFails(sha, p, w, actions[n], id);
      var ops := OpsOf(sha, p, actions[..n]);
      if StepOp(p, w, actions[n]).Some? {
        assert (ops + [StepOp(p, w, actions[n]).value])[..|ops|] == ops;
      }
    }
  }

  lemma UnrecordedFails(sha: Hash, p: Profile, w: World, a: Action, id: string)
    ensures UnrecordedNow(sha, p, w, a, id) ==> FailsNow(w, a, id)
  {
    hide Step;
  }

  // ---------------------------------------------------------------------------------------
  // When persistence succeeds
  // ---------------------------------------------------------------------------------------

  /** Persistence succeeds, nobody else touches delivery rows, and the process is not stopped
      between a recorded failure and the retry or block that follows it. */
  predicate Calm(w: World, a: Action) {
    match a
    case Begin(_, io) => io.Healthy?
    case PersistBlock(_, io) => io.Healthy?
    case SendPayload(io) => io.Healthy?
    case BrokerAccepts(_, partition, offset, _, io) => io.Healthy? && partition >= 0 && offset >= 0
    case BrokerFails(_, _, io) => io.Healthy?
    case Settle(_, io) => io.Healthy?
    case Restart => !w.phase.Settling?
    case Recover(_, _) => true
    case Other(op) => op.OpAccept? || op.OpLifecycle? || (op.OpCreate? && op.topic != "" && op.profileId != "" && op.profileVersion > 0)
  }

  ghost predicate CalmRun(sha: Hash, p: Profile, actions: seq<Action>) {
    forall i :: 0 <= i < |actions| ==> Calm(Run(sha, p, actions[..i]), actions[i])
  }

  /** The row is the one the service loaded; after a recorded failure it counts one more. */
  predicate Exact(w: World) {
    !w.phase.Idle? ==>
      var id := w.phase.c.envelope.eventId;
      && id in w.tables.deliveries && (w.phase.c.row.status == Pending || w.phase.c.row.status == Retrying)
      && var row := w.tables.deliveries[id];
         && row.revision == w.phase.c.row.revision && row.status == w.phase.c.row.status
         && row.attemptCount == w.phase.c.row.attemptCount + if w.phase.Settling? then 1 else 0
  }

  lemma HealthyRecordSucceeds(sha: Hash, t: Tables, op: Op)
    requires op.OpRecord? && op.io.Healthy? && Load(sha, t, op.id).Present?
    ensures Succeeds(sha, t, op)
  {
    hide Load, Newest, Seal;
  }

  lemma HealthySettleSucceeds(sha: Hash, t: Tables, op: Op)
    requires (op.OpBlock? || op.OpRetry?) && op.io.Healthy? && Load(sha, t, op.id).Present? && AllIntact(sha, t) && Keyed(t)
    requires op.id in t.deliveries && t.deliveries[op.id].revision == op.expected && t.deliveries[op.id].status != Replicated
    ensures Succeeds(sha, t, op)
  {
    hide DeliveryChecksum, WellFormedRow, Seal, GetStatus, NextLifecycle, AllIntact, Find;
    StatusIsFound(sha, t, op.id);
  }

  /** Operations of others in a calm run leave every delivery row alone. */
  lemma CalmOthersKeepRows(sha: Hash, t: Tables, op: Op, id: string)
    requires op.OpAccept? || op.OpLifecycle? || op.OpCreate?
    ensures id in t.deliveries ==> id in Apply(sha, t, op).0.deliveries && Apply(sha, t, op).0.deliveries[id] == t.deliveries[id]
  {
    hide Apply, SameRoute, DeliveryChecksum, WellFormedRow;
    RowStep(sha, t, op, id);
    if id in t.deliveries && Updates(op, Apply(sha, t, op).1, id) {
      if op.OpLifecycle? {
        LifecycleKeepsRows(sha, t, op);
      } else {
        RowChange(sha, t, op, id);
      }
    }
  }

  /** Which steps keep a candidate in hand. */
  lemma InHandStep(sha: Hash, p: Profile, w: World, a: Action)
    requires !w.phase.Idle? && !Step(sha, p, w, a).phase.Idle?
    ensures var v := Step(sha, p, w, a);
      && (a.Other? || (w.phase.InFlight? && a.BrokerFails?) || v.tables == w.tables)
      && (v.phase.Settling? <==> w.phase.Settling? || (w.phase.InFlight? && a.BrokerFails?))
  {
    hide Apply, RecordAttempt, Confirm, Block, Retry, MarkBlocking, MarkCompleted, MarkInFlight,
      GetCandidate, Check, Refusal, ResolveRouting, ReadPayload, Scan, RecoverFrom, ToRecoveredAll, FailedAttempt, SettleCall;
  }

  lemma ExactStep(sha: Hash, p: Profile, w: World, a: Action)
    requires Exact(w) && Calm(w, a)
    ensures Exact(Step(sha, p, w, a))
  {
    hide Step, Apply, GetCandidate, FailedAttempt, SettleOp, DeliveryChecksum;
    var v := Step(sha, p, w, a);
    StepTables(sha, p, w, a);
    StepPhase(sha, p, w, a);
    if !v.phase.Idle? && w.phase.Idle? {
      CandidateIsRow(sha, w.tables, a.id);
      SettlingStep(sha, p, w, a, a.id);
    } else if !v.phase.Idle? {
      InHandStep(sha, p, w, a);
      if a.Other? {
        CalmOthersKeepRows(sha, w.tables, a.op, w.phase.c.envelope.eventId);
      } else if w.phase.InFlight? && a.BrokerFails? {
        FailRecords(sha, p, w, a);
        RowChange(sha, w.tables, StepOp(p, w, a).value, w.phase.c.envelope.eventId);
      }
    }
  }

  /** No failure is lost in a calm step, and the attempt recorded is the next one. */
  lemma CalmStepLosesNothing(sha: Hash, p: Profile, w: World, a: Action, id: string)
    requires Exact(w) && Calm(w, a) && AllReload(sha, w.tables) && AllIntact(sha, w.tables) && Keyed(w.tables)
    ensures !LosesNow(sha, p, w, a, id) && !UnrecordedNow(sha, p, w, a, id) && !ForeignNow(sha, w, a, id)
    ensures FailsNow(w, a, id) ==>
      && id in w.tables.deliveries && StepOp(p, w, a).Some? && StepOp(p, w, a).value.OpRecord?
      && StepOp(p, w, a).value.attempt.number == w.tables.deliveries[id].attemptCount + 1
  {
    hide Step, Apply, Load, ErrorText, ComputeNextRetry, ShouldRetry, AllIntact, Keyed;
    StepPhase(sha, p, w, a);
    if w.phase.InFlight? && a.BrokerFails? {
      assert Reloads(sha, w.tables, w.phase.c.envelope.eventId);
      HealthyRecordSucceeds(sha, w.tables, StepOp(p, w, a).value);
      FailRecords(sha, p, w, a);
    } else if w.phase.Settling? {
      assert Reloads(sha, w.tables, w.phase.c.envelope.eventId);
      SettlingLeaves(sha, p, w, a);
      if a.Settle? {
        HealthySettleSucceeds(sha, w.tables, StepOp(p, w, a).value);
      }
    }
  }

  lemma SettlingLeaves(sha: Hash, p: Profile, w: World, a: Action)
    requires w.phase.Settling?
    ensures !a.Settle? && !a.Restart? ==> Step(sha, p, w, a).phase == w.phase
    ensures a.Settle? ==> StepOp(p, w, a) == Some(SettleOp(w.phase.c, w.phase.error, w.phase.failedAt, a.now, a.io))
    ensures a.Settle? ==> StepOp(p, w, a).value.io == a.io
  {
    hide Apply, SettleStep, ErrorText, ComputeNextRetry, ShouldRetry, RecoverStep;
  }

  lemma CalmIsWellFormed(sha: Hash, p: Profile, actions: seq<Action>)
    requires CalmRun(sha, p, actions)
    ensures WellFormedRun(sha, p, actions)
  {
    hide Run;
    forall i | 0 <= i < |actions|
      ensures WellFormedAction(Run(sha, p, actions[..i]).tables, actions[i])
    {
      assert Calm(Run(sha, p, actions[..i]), actions[i]);
    }
  }

  lemma CalmPrefix(sha: Hash, p: Profile, actions: seq<Action>)
    requires CalmRun(sha, p, actions) && actions != []
    ensures var n := |actions| - 1; CalmRun(sha, p, actions[..n]) && Calm(Run(sha, p, actions[..n]), actions[n])
  {
    hide Run, Calm;
    var n := |actions| - 1;
    forall i | 0 <= i < n ensures Calm(Run(sha, p, actions[..n][..i]), actions[..n][i]) {
      assert actions[..n][..i] == actions[..i];
    }
  }

  predicate NumberedFromOne(attempts: seq<DeliveryAttempt>) {
    forall k :: 0 <= k < |attempts| ==> attempts[k].number == k + 1
  }

  /** A calm run loses no failure and records them all, numbered 1, 2, 3, ... */
  lemma {:induction false} CalmRunsLoseNothing(sha: Hash, p: Profile, actions: seq<Action>, id: string)
    requires CalmRun(sha, p, actions)
    ensures Exact(Run(sha, p, actions))
    ensures Losses(sha, p, actions, id) == 0 && Unrecorded(sha, p, actions, id) == 0 && Foreign(sha, p, actions, id) == 0
    ensures NumberedFromOne(Recorded(sha, OpsOf(sha, p, actions), id))
  {
    hide Step, StepOp, CalmRun, Calm, Exact, LosesNow, UnrecordedNow, ForeignNow, FailsNow, After, RecordsNow, AllReload, AllIntact,
      Keyed, Ordered, HeadsCount, ProducersRise, LogsBounded;
    if actions == [] {
      StartIsExact();
    } else {
      var n := |actions| - 1;
      var w, a, ops := Run(sha, p, actions[..n]), actions[n], OpsOf(sha, p, actions[..n]);
      CalmPrefix(sha, p, actions);
      CalmRunsLoseNothing(sha, p, actions[..n], id);
      CalmIsWellFormed(sha, p, actions[..n]);
      RunsReload(sha, p, actions[..n]);
      RunTablesConsistent(sha, p, actions[..n]);
      ExactStep(sha, p, w, a);
      CalmStepLosesNothing(sha, p, w, a, id);
      AttemptsAreAccounted(sha, p, actions[..n], id);
      RunIsJournalRun(sha, p, actions[..n]);
      RecordsOfStep(sha, p, w, a, id);
      if StepOp(p, w, a).Some? {
        assert (ops + [StepOp(p, w, a).value])[..|ops|] == ops;
      }
    }
  }

  lemma StartIsExact()
    ensures Exact(START)
  {
  }

  /** The budget in plain terms: when persistence succeeds an event fails at most 32 sends, the 32nd
      leaves it BLOCKED, all of them are counted and the log holds exactly the newest 16. */
  lemma {:induction false} AtMost32Failures(sha: Hash, p: Profile, actions: seq<Action>, id: string)
    requires CalmRun(sha, p, actions)
    ensures Failures(sha, p, actions, id) <= MAX_RETRY_ATTEMPTS
    ensures var t, n := Run(sha, p, actions).tables, Failures(sha, p, actions, id);
      && (n == MAX_RETRY_ATTEMPTS && Run(sha, p, actions).phase.Idle? ==> id in t.deliveries && t.deliveries[id].status == Blocked)
      && (id in t.deliveries ==> t.deliveries[id].attemptCount == n)
      && |LogOf(t.deliveryAttempts, id)| == Min(n, MAX_ATTEMPTS)
      && forall k :: 0 <= k < |LogOf(t.deliveryAttempts, id)| ==> LogOf(t.deliveryAttempts, id)[k].number == n - Min(n, MAX_ATTEMPTS) + k + 1
  {
    hide Run, Failures, Settles, Losses, Unrecorded, Foreign, Recorded, OpsOf, LogOf, Exact;
    RetryBudget(sha, p, actions, id);
    FailuresAreAccounted(sha, p, actions, id);
    CalmRunsLoseNothing(sha, p, actions, id);
    AttemptsAreAccounted(sha, p, actions, id);
    CalmLeavesAlone(sha, p, actions, id);
    if Settles(sha, p, actions, id) == MAX_RETRY_ATTEMPTS {
      BudgetEndsBlocked(sha, p, actions, id);
    }
  }

  lemma CalmLeavesAlone(sha: Hash, p: Profile, actions: seq<Action>, id: string)
    requires CalmRun(sha, p, actions)
    ensures LeftAloneIn(actions, id)
  {
    hide Run;
    forall i | 0 <= i < |actions| ensures LeftAlone(actions[i], id) {
      assert Calm(Run(sha, p, actions[..i]), actions[i]);
    }
  }
}
