/** The ordering gate over whole runs: exactly when it lets a sequence through. */
module GateTheorems {
  import opened Common
  import opened Records
  import opened Journal
  import opened JournalRuns
  import opened ReloadTheorems
  import opened Gate
  import opened Delivery
  import opened DeliveryRuns
  import opened DeliveryOrder
  import opened ServiceTheorems

  // ---------------------------------------------------------------------------------------
  // What the gate awaits
  // ---------------------------------------------------------------------------------------

  /** The sequence an entry names to everybody it holds. */
  function Awaited(s: StreamGate): int {
    if s.inFlight.Some? then s.inFlight.value else if s.blocking.Some? then s.blocking.value else s.highestCompleted + 1
  }

  lemma CheckSays(g: Streams, key: string, n: int)
    ensures var s := EntryOf(g, key);
      Check(g, key, n) == if s.inFlight.None? && n == Awaited(s) then Allowed else Held(Awaited(s))
  {
  }

  // ---------------------------------------------------------------------------------------
  // Stuck entries
  // ---------------------------------------------------------------------------------------

  /** The service has handed the candidate to the broker and not finished with it. */
  predicate Sending(w: World) {
    w.phase.InFlight? || w.phase.Settling?
  }

  /** A failed send of the key whose record, retry or block is not persisted. */
  predicate LosesKey(sha: Hash, p: Profile, w: World, a: Action, key: string) {
    || (w.phase.InFlight? && a.BrokerFails? && w.phase.c.envelope.streamKey == key && !Succeeds(sha, w.tables, StepOp(p, w, a).value))
    || (w.phase.Settling? && a.Settle? && w.phase.c.envelope.streamKey == key && !Succeeds(sha, w.tables, StepOp(p, w, a).value))
  }

  /** A recovery that rebuilds the gate. */
  predicate Rebuilds(sha: Hash, w: World, a: Action) {
    a.Recover? && w.phase.Idle? && Scan(sha, w.tables, a.limit, a.io).Some?
  }

  /** A failure of the key was lost since the last restart or recovery. */
  function LostSince(sha: Hash, p: Profile, actions: seq<Action>, key: string): bool {
    if actions == [] then false
    else
      var n := |actions| - 1;
      var w := Run(sha, p, actions[..n]);
      if actions[n].Restart? || Rebuilds(sha, w, actions[n]) then false
      else LostSince(sha, p, actions[..n], key) || LosesKey(sha, p, w, actions[n], key)
  }

  predicate FlightExact(w: World, key: string, lost: bool) {
    var s := EntryOf(w.gate, key);
    && (s.inFlight.Some? <==> lost || (Sending(w) && w.phase.c.envelope.streamKey == key))
    && (Sending(w) && w.phase.c.envelope.streamKey == key ==> s.inFlight == Some(w.phase.c.envelope.streamSequence))
    && (!w.phase.Idle? && w.phase.c.envelope.streamKey == key ==> !lost)
  }

  lemma {:induction false} RecoveredFliesNothing(states: seq<Recovered>, key: string)
    requires forall i :: 0 <= i < |states| ==> !states[i].inFlight
    ensures EntryOf(RecoverFrom(states), key).inFlight.None?
  {
    if states != [] {
      RecoveredFliesNothing(states[..|states| - 1], key);
    }
  }

  lemma BeginFlight(sha: Hash, p: Profile, w: World, id: string, io: Store, key: string, lost: bool)
    requires FlightExact(w, key, lost) && w.phase.Idle?
    ensures FlightExact(BeginStep(sha, p, w, id, io), key, lost)
  {
    hide GetCandidate, Refusal, ResolveRouting;
  }

  lemma SendFlight(sha: Hash, w: World, io: Store, key: string, lost: bool)
    requires FlightExact(w, key, lost) && w.phase.Admitted?
    ensures FlightExact(SendStep(sha, w, io), key, lost)
  {
    hide ReadPayload;
  }

  lemma AnswerFlight(sha: Hash, p: Profile, w: World, a: Action, key: string, lost: bool)
    requires FlightExact(w, key, lost) && !w.phase.Idle?
    requires (w.phase.Refusing? && a.PersistBlock?) || (w.phase.InFlight? && a.BrokerAccepts?)
    ensures FlightExact(Step(sha, p, w, a), key, lost)
  {
    hide Block, Confirm;
  }

  lemma FailureFlight(sha: Hash, p: Profile, w: World, a: Action, key: string, lost: bool)
    requires FlightExact(w, key, lost) && w.phase.InFlight? && a.BrokerFails?
    ensures FlightExact(Step(sha, p, w, a), key, lost || LosesKey(sha, p, w, a, key))
  {
    hide RecordAttempt, FailedAttempt;
  }

  lemma SettleFlight(sha: Hash, p: Profile, w: World, a: Action, key: string, lost: bool)
    requires FlightExact(w, key, lost) && w.phase.Settling? && a.Settle?
    ensures FlightExact(Step(sha, p, w, a), key, lost || LosesKey(sha, p, w, a, key))
  {
    hide SettleCall, SettleOp, Apply;
    CallIsOp(sha, w.tables, w.phase.c, w.phase.error, w.phase.failedAt, a.now, a.io);
  }

  lemma FlightStep(sha: Hash, p: Profile, w: World, a: Action, key: string, lost: bool)
    requires FlightExact(w, key, lost)
    ensures FlightExact(Step(sha, p, w, a), key,
                        !a.Restart? && !Rebuilds(sha, w, a) && (lost || LosesKey(sha, p, w, a, key)))
  {
    hide BeginStep, SendStep, PersistBlockStep, AcceptedStep, FailedStep, SettleStep, Apply, Scan, RecoverFrom;
    match a
    case Begin(id, io) => if w.phase.Idle? { BeginFlight(sha, p, w, id, io, key, lost); }
    case PersistBlock(_, _) => if w.phase.Refusing? { AnswerFlight(sha, p, w, a, key, lost); }
    case SendPayload(io) => if w.phase.Admitted? { SendFlight(sha, w, io, key, lost); }
    case BrokerAccepts(_, _, _, _, _) => if w.phase.InFlight? { AnswerFlight(sha, p, w, a, key, lost); }
    case BrokerFails(_, _, _) => if w.phase.InFlight? { FailureFlight(sha, p, w, a, key, lost); }
    case Settle(_, _) => if w.phase.Settling? { SettleFlight(sha, p, w, a, key, lost); }
    case Recover(limit, io) =>
      if Rebuilds(sha, w, a) {
        RecoveredFliesNothing(ToRecoveredAll(w.tables, Scan(sha, w.tables, limit, io).value), key);
      }
    case _ =>
  }

  lemma {:induction false} RunsAreFlightExact(sha: Hash, p: Profile, actions: seq<Action>, key: string)
    ensures FlightExact(Run(sha, p, actions), key, LostSince(sha, p, actions, key))
  {
    hide Step, LosesKey, Rebuilds;
    if actions != [] {
      var n := |actions| - 1;
      RunsAreFlightExact(sha, p, actions[..n], key);
      FlightStep(sha, p, Run(sha, p, actions[..n]), actions[n], key, LostSince(sha, p, actions[..n], key));
    }
  }

  /** At every idle point of every run the gate holds a key as in flight exactly when a failed send of
      it was lost since the last restart or recovery. */
  lemma {:induction false} StuckExactlyWhen(sha: Hash, p: Profile, actions: seq<Action>, key: string)
    requires Run(sha, p, actions).phase.Idle?
    ensures EntryOf(Run(sha, p, actions).gate, key).inFlight.Some? <==> LostSince(sha, p, actions, key)
  {
    hide Run, LostSince;
    RunsAreFlightExact(sha, p, actions, key);
  }

  // ---------------------------------------------------------------------------------------
  // Agreement with the journal
  // ---------------------------------------------------------------------------------------

  /** The gate awaits the first unreplicated sequence of the key. */
  ghost predicate Agrees(t: Tables, g: Streams, key: string) {
    var s := EntryOf(g, key);
    FirstUndone(t, key, Awaited(s)) && (s.inFlight.Some? ==> s.blocking.None?)
  }

  /** An unreplicated event whose predecessors are replicated is the first one. */
  lemma FirstIsFirst(sha: Hash, t: Tables, e: Envelope, f: int)
    requires TablesSound(sha, t) && e in t.envelopes && !Done(t, e) && DoneBelow(t, e.streamKey, e.streamSequence)
    requires FirstUndone(t, e.streamKey, f)
    ensures e.streamSequence == f
  {
    hide Consistent, StreamOf, Done, RowsInOrder, DoneFirst;
    if e.streamSequence > f {
      var a := PredecessorAt(sha, t, e, f);
    }
  }

  lemma QuietKeepsFirst(sha: Hash, t: Tables, u: Tables, key: string, f: int)
    requires Quiet(t, u) && TablesSound(sha, u) && FirstUndone(t, key, f)
    ensures FirstUndone(u, key, f)
  {
    hide Consistent, StreamOf, Done, RowsInOrder, DoneFirst;
    if f > 1 {
      QuietKeepsKnown(t, u, key, f - 1);
    }
    forall e | e in u.envelopes && e.streamKey == key ensures Done(u, e) <==> e.streamSequence < f {
      if e !in t.envelopes && f > 1 {
        var a :| a in t.envelopes && a.streamKey == key && a.streamSequence == f - 1;
        assert a in u.envelopes;
        assert StreamOf(a) == StreamOf(e);
      }
    }
  }

  lemma PromoteMovesFirst(sha: Hash, t: Tables, u: Tables, c: Envelope, key: string, f: int)
    requires TablesSound(sha, t) && Promotes(t, u, c) && c in t.envelopes && FirstUndone(t, key, f)
    requires c.streamKey == key ==> c.streamSequence == f
    ensures FirstUndone(u, key, if c.streamKey == key then f + 1 else f)
  {
    hide Consistent, StreamOf, Done, RowsInOrder, DoneFirst;
    forall e | e in t.envelopes && e.streamKey == key && c.streamKey == key ensures e.streamSequence == c.streamSequence ==> e == c {
      SoundIsConsistent(sha, t);
      assert StreamOf(e) == StreamOf(c);
      EventsAreUnique(sha, t, e, c);
    }
    if c.streamKey == key {
      assert Known(u, key, f);
    }
  }

  lemma BlockingAwaits(g: Streams, key: string, n: int, k: string)
    requires k == key ==> Awaited(EntryOf(g, key)) == n
    ensures var s, v := EntryOf(g, k), EntryOf(MarkBlocking(g, key, n), k);
      Awaited(v) == Awaited(s) && ((s.inFlight.Some? ==> s.blocking.None?) ==> (v.inFlight.Some? ==> v.blocking.None?))
  {
  }

  lemma FlyingAwaits(g: Streams, key: string, n: int, k: string)
    requires k == key ==> Awaited(EntryOf(g, key)) == n
    ensures var s, v := EntryOf(g, k), EntryOf(MarkInFlight(g, key, n), k);
      Awaited(v) == Awaited(s) && ((s.inFlight.Some? ==> s.blocking.None?) ==> (v.inFlight.Some? ==> v.blocking.None?))
  {
  }

  lemma CompletedAwaits(g: Streams, key: string, n: int, k: string)
    requires k == key ==> Awaited(EntryOf(g, key)) == n
    requires var s := EntryOf(g, k); s.inFlight.Some? ==> s.blocking.None?
    ensures var s, v := EntryOf(g, k), EntryOf(MarkCompleted(g, key, n), k);
      Awaited(v) == (if k == key then n + 1 else Awaited(s)) && (v.inFlight.Some? ==> v.blocking.None?)
  {
  }

  lemma BlockingAgrees(t: Tables, g: Streams, key: string, n: int, k: string)
    requires Agrees(t, g, k) && (k == key ==> Awaited(EntryOf(g, key)) == n)
    ensures Agrees(t, MarkBlocking(g, key, n), k)
  {
    hide FirstUndone, Awaited, MarkBlocking;
    BlockingAwaits(g, key, n, k);
  }

  lemma QuietAgrees(sha: Hash, t: Tables, u: Tables, g: Streams, k: string)
    requires Agrees(t, g, k) && Quiet(t, u) && TablesSound(sha, u)
    ensures Agrees(u, g, k)
  {
    hide FirstUndone, Awaited, Quiet, TablesSound;
    QuietKeepsFirst(sha, t, u, k, Awaited(EntryOf(g, k)));
  }

  /** The candidate in hand is the one the gate awaits. */
  lemma InHandIsAwaited(sha: Hash, w: World, k: string)
    requires Sound(sha, w) && !w.phase.Idle? && Agrees(w.tables, w.gate, k)
    ensures k == w.phase.c.envelope.streamKey ==> Awaited(EntryOf(w.gate, k)) == w.phase.c.envelope.streamSequence
  {
    hide TablesSound, GateSound, SendsSound, FirstUndone, Awaited, Done, DoneBelow;
    if k == w.phase.c.envelope.streamKey {
      FirstIsFirst(sha, w.tables, w.phase.c.envelope, Awaited(EntryOf(w.gate, k)));
    }
  }

  lemma BeginAgrees(sha: Hash, p: Profile, w: World, id: string, io: Store, k: string)
    requires Sound(sha, w) && w.phase.Idle? && Agrees(w.tables, w.gate, k)
    ensures Agrees(w.tables, BeginStep(sha, p, w, id, io).gate, k)
  {
    hide GetCandidate, Check, MarkCompleted, MarkBlocking, GateSound, SendsSound, TablesSound, Refusal, WellFormedRow, ResolveRouting, Awaited;
    var found := GetCandidate(sha, w.tables, id);
    if !io.ReadFails? && found.Ready? {
      var e := found.candidate.envelope;
      CandidateFields(sha, w.tables, id);
      CheckSays(w.gate, e.streamKey, e.streamSequence);
      if Check(w.gate, e.streamKey, e.streamSequence) == Allowed {
        BlockingAgrees(w.tables, w.gate, e.streamKey, e.streamSequence, k);
        if Done(w.tables, e) {
          assert k == e.streamKey ==> !Done(w.tables, e);
          OtherKeyCompleted(w.gate, e.streamKey, e.streamSequence, k);
        }
      }
    }
  }

  lemma OtherKeyCompleted(g: Streams, key: string, n: int, k: string)
    ensures k != key ==> EntryOf(MarkCompleted(g, key, n), k) == EntryOf(g, k)
  {
  }

  lemma SendAgrees(sha: Hash, w: World, io: Store, k: string)
    requires Sound(sha, w) && w.phase.Admitted? && Agrees(w.tables, w.gate, k)
    ensures Agrees(w.tables, SendStep(sha, w, io).gate, k)
  {
    hide MarkBlocking, MarkInFlight, Sound, FirstUndone, Awaited, ReadPayload;
    var e := w.phase.c.envelope;
    InHandIsAwaited(sha, w, k);
    BlockingAgrees(w.tables, w.gate, e.streamKey, e.streamSequence, k);
    FlyingAwaits(w.gate, e.streamKey, e.streamSequence, k);
  }

  lemma CompletedAgrees(sha: Hash, t: Tables, u: Tables, g: Streams, c: Candidate, k: string)
    requires TablesSound(sha, t) && CandidateSound(t, c) && Promotes(t, u, c.envelope) && Agrees(t, g, k)
    requires k == c.envelope.streamKey ==> Awaited(EntryOf(g, k)) == c.envelope.streamSequence
    ensures Agrees(u, MarkCompleted(g, c.envelope.streamKey, c.envelope.streamSequence), k)
  {
    hide TablesSound, FirstUndone, Awaited, MarkCompleted, Promotes, Done, DoneBelow;
    PromoteMovesFirst(sha, t, u, c.envelope, k, Awaited(EntryOf(g, k)));
    CompletedAwaits(g, c.envelope.streamKey, c.envelope.streamSequence, k);
  }

  /** What the service does with a broker's success. */
  lemma AcceptedParts(sha: Hash, p: Profile, w: World, a: Action) returns (op: Op)
    requires w.phase.InFlight? && a.BrokerAccepts?
    ensures op.OpConfirm? && op.id == w.phase.c.envelope.eventId
    ensures var v := AcceptedStep(sha, p, w, a.topic, a.partition, a.offset, a.now, a.io);
      var e := w.phase.c.envelope;
      && v.tables == Apply(sha, w.tables, op).0
      && v.gate == if Apply(sha, w.tables, op).1 == OfCas(Updated) || Apply(sha, w.tables, op).1 == OfCas(AlreadyConfirmed)
                   then MarkCompleted(w.gate, e.streamKey, e.streamSequence) else MarkBlocking(w.gate, e.streamKey, e.streamSequence)
  {
    hide Confirm, MarkBlocking, MarkCompleted;
    op := OpConfirm(w.phase.c.envelope.eventId, w.phase.c.row.revision,
                    Confirmation(w.phase.route.checksum, p.id, p.version, a.topic, a.partition, a.offset), a.now, a.io);
  }

  lemma AcceptedAgrees(sha: Hash, p: Profile, w: World, a: Action, k: string)
    requires Sound(sha, w) && w.phase.InFlight? && a.BrokerAccepts? && Agrees(w.tables, w.gate, k)
    ensures var v := AcceptedStep(sha, p, w, a.topic, a.partition, a.offset, a.now, a.io); Agrees(v.tables, v.gate, k)
  {
    hide Apply, AcceptedStep, MarkBlocking, MarkCompleted, GateSound, SendsSound, TablesSound, Agrees, CandidateSound, Promotes, Awaited;
    var e := w.phase.c.envelope;
    var op := AcceptedParts(sha, p, w, a);
    InHandIsAwaited(sha, w, k);
    NotYetConfirmed(sha, w.tables, w.phase.c, op);
    if Apply(sha, w.tables, op).1 == OfCas(Updated) {
      SoundIsConsistent(sha, w.tables);
      ConfirmPromotes(sha, w.tables, op, w.phase.c);
      CompletedAgrees(sha, w.tables, Apply(sha, w.tables, op).0, w.gate, w.phase.c, k);
    } else {
      BlockingAgrees(w.tables, w.gate, e.streamKey, e.streamSequence, k);
    }
  }

  /** A step of the service or of another user that confirms nothing leaves the tables quiet. */
  lemma QuietStep(sha: Hash, p: Profile, w: World, a: Action)
    requires Sound(sha, w) && Admissible(w.tables, a) && !(w.phase.InFlight? && a.BrokerAccepts?)
    ensures Quiet(w.tables, Step(sha, p, w, a).tables)
  {
    hide Step, Apply, Quiet, TablesSound, GateSound, SendsSound, PhaseSound, FailedAttempt, SettleOp, Admissible;
    StepTables(sha, p, w, a);
    SoundIsConsistent(sha, w.tables);
    var op := StepOp(p, w, a);
    if op.Some? {
      NoOtherConfirms(w.tables, a);
      OtherOpIsQuiet(sha, w.tables, op.value);
    } else {
      SameIsQuiet(w.tables, w.tables);
    }
  }

  lemma NoOtherConfirms(t: Tables, a: Action)
    requires Admissible(t, a)
    ensures a.Other? ==> !a.op.OpConfirm?
  {
    hide KeyFits, CreatedInOrder;
  }

  lemma SettledAgrees(sha: Hash, p: Profile, w: World, a: Action, k: string)
    requires Sound(sha, w) && Sound(sha, Step(sha, p, w, a)) && Agrees(w.tables, w.gate, k) && Admissible(w.tables, a)
    requires (w.phase.Refusing? && a.PersistBlock?) || (w.phase.Settling? && a.Settle?) || (w.phase.InFlight? && a.BrokerFails?)
    ensures Agrees(Step(sha, p, w, a).tables, Step(sha, p, w, a).gate, k)
  {
    hide Block, RecordAttempt, SettleCall, MarkBlocking, TablesSound, GateSound, SendsSound, PhaseSound, Agrees, Quiet, FailedAttempt, Apply;
    var e := w.phase.c.envelope;
    var v := Step(sha, p, w, a);
    QuietStep(sha, p, w, a);
    QuietAgrees(sha, w.tables, v.tables, w.gate, k);
    InHandIsAwaited(sha, w, k);
    BlockingAgrees(v.tables, w.gate, e.streamKey, e.streamSequence, k);
  }

  /** The recovery read every row. */
  predicate Complete(w: World, a: Action)
    requires a.Recover?
  {
    |ScanRows(w.tables, w.tables.envelopes)| <= a.limit
  }

  lemma RecoverAgrees(sha: Hash, w: World, a: Action, k: string)
    requires Sound(sha, w) && a.Recover? && Rebuilds(sha, w, a) && Complete(w, a)
    ensures Agrees(w.tables, RecoverStep(sha, w, a.limit, a.io).gate, k)
  {
    hide TablesSound, GateSound, SendsSound, FirstUndone, ScanRows, Cut, AllVerified, RecoverFrom, ToRecoveredAll, Represents, Check;
    var t, rows := w.tables, ScanRows(w.tables, w.tables.envelopes);
    var f := FirstUndoneExists(sha, t, k);
    CompleteScan(t, a.limit);
    RecoveredGateAgrees(sha, t, ToRecoveredAll(t, rows), rows, k, f);
    CheckSays(RecoverFrom(ToRecoveredAll(t, rows)), k, f);
  }

  /** What leaves the gate behind the journal: a restart, or a recovery that is cut. */
  predicate Desyncs(sha: Hash, w: World, a: Action) {
    a.Restart? || (Rebuilds(sha, w, a) && !Complete(w, a))
  }

  lemma AgreeStep(sha: Hash, p: Profile, w: World, a: Action, k: string)
    requires Sound(sha, w) && Sound(sha, Step(sha, p, w, a)) && Admissible(w.tables, a) && !Desyncs(sha, w, a)
    requires Agrees(w.tables, w.gate, k) || (Rebuilds(sha, w, a) && Complete(w, a))
    ensures Agrees(Step(sha, p, w, a).tables, Step(sha, p, w, a).gate, k)
  {
    hide BeginStep, SendStep, PersistBlockStep, AcceptedStep, FailedStep, SettleStep, RecoverStep, Apply, Scan, Agrees, Sound, Admissible,
      Complete;
    match a
    case Begin(id, io) =>
      if w.phase.Idle? {
        BeginAgrees(sha, p, w, id, io, k);
        ReadsKeepTables(sha, p, w, a);
      }
    case PersistBlock(_, _) => if w.phase.Refusing? { SettledAgrees(sha, p, w, a, k); }
    case SendPayload(io) =>
      if w.phase.Admitted? {
        SendAgrees(sha, w, io, k);
        ReadsKeepTables(sha, p, w, a);
      }
    case BrokerAccepts(_, _, _, _, _) => if w.phase.InFlight? { AcceptedAgrees(sha, p, w, a, k); }
    case BrokerFails(_, _, _) => if w.phase.InFlight? { SettledAgrees(sha, p, w, a, k); }
    case Settle(_, _) => if w.phase.Settling? { SettledAgrees(sha, p, w, a, k); }
    case Restart =>
    case Recover(limit, io) =>
      ReadsKeepTables(sha, p, w, a);
      if Rebuilds(sha, w, a) {
        RecoverAgrees(sha, w, a, k);
      } else {
        FailedRecovery(sha, p, w, a);
      }
    case Other(op) =>
      OtherAgrees(sha, p, w, a, k);
  }

  lemma FailedRecovery(sha: Hash, p: Profile, w: World, a: Action)
    requires a.Recover? && !Rebuilds(sha, w, a)
    ensures Step(sha, p, w, a) == w
  {
    hide Scan, RecoverFrom, Apply;
  }

  lemma OtherAgrees(sha: Hash, p: Profile, w: World, a: Action, k: string)
    requires Sound(sha, w) && Sound(sha, Step(sha, p, w, a)) && a.Other? && Admissible(w.tables, a) && Agrees(w.tables, w.gate, k)
    ensures Agrees(Step(sha, p, w, a).tables, Step(sha, p, w, a).gate, k)
  {
    hide Apply, Agrees, TablesSound, GateSound, SendsSound, PhaseSound, Quiet, Admissible;
    QuietStep(sha, p, w, a);
    QuietAgrees(sha, w.tables, Step(sha, p, w, a).tables, w.gate, k);
  }

  /** The gate is in step with the journal: from the start of a run until a restart, and again from a
      complete recovery on. */
  function Synced(sha: Hash, p: Profile, actions: seq<Action>): bool {
    if actions == [] then true
    else
      var n := |actions| - 1;
      var w := Run(sha, p, actions[..n]);
      if Rebuilds(sha, w, actions[n]) then Complete(w, actions[n])
      else !actions[n].Restart? && Synced(sha, p, actions[..n])
  }

  lemma {:induction false} SyncedAgrees(sha: Hash, p: Profile, actions: seq<Action>, k: string)
    requires AdmissibleRun(sha, p, actions) && Synced(sha, p, actions)
    ensures Agrees(Run(sha, p, actions).tables, Run(sha, p, actions).gate, k)
  {
    hide Step, Agrees, Sound, Admissible, Complete, Rebuilds;
    if actions == [] {
      StartAgrees(k);
    } else {
      var n := |actions| - 1;
      var w := Run(sha, p, actions[..n]);
      AdmissiblePrefix(sha, p, actions);
      RunsAreSound(sha, p, actions[..n]);
      RunsAreSound(sha, p, actions);
      RebuildsRecovers(sha, w, actions[n]);
      if !Rebuilds(sha, w, actions[n]) {
        SyncedAgrees(sha, p, actions[..n], k);
      }
      AgreeStep(sha, p, w, actions[n], k);
    }
  }

  lemma StartAgrees(k: string)
    ensures Agrees(START.tables, START.gate, k)
  {
  }

  lemma RebuildsRecovers(sha: Hash, w: World, a: Action)
    ensures Rebuilds(sha, w, a) ==> a.Recover? && !a.Restart?
  {
    hide Scan;
  }

  lemma AdmissiblePrefix(sha: Hash, p: Profile, actions: seq<Action>)
    requires AdmissibleRun(sha, p, actions) && actions != []
    ensures var n := |actions| - 1;
      AdmissibleRun(sha, p, actions[..n]) && Admissible(Run(sha, p, actions[..n]).tables, actions[n])
  {
    hide Run, Admissible;
    var n := |actions| - 1;
    forall i | 0 <= i < n ensures Admissible(Run(sha, p, actions[..n][..i]).tables, actions[..n][i]) {
      assert actions[..n][..i] == actions[..i];
    }
  }

  /** The exact law of the gate: in every admissible run, at every idle point in step with the journal,
      it lets exactly the first unreplicated sequence of a key through, unless a failed send of the key
      was lost, in which case it lets none through; to all others it names that sequence. */
  lemma {:induction false} GateIsExact(sha: Hash, p: Profile, actions: seq<Action>, key: string) returns (f: int)
    requires AdmissibleRun(sha, p, actions) && Synced(sha, p, actions) && Run(sha, p, actions).phase.Idle?
    ensures FirstUndone(Run(sha, p, actions).tables, key, f)
    ensures var g, lost := Run(sha, p, actions).gate, LostSince(sha, p, actions, key);
      forall n :: Check(g, key, n) == if n == f && !lost then Allowed else Held(f)
  {
    hide Run, AdmissibleRun, Synced, LostSince, FirstUndone, Check, Awaited;
    SyncedAgrees(sha, p, actions, key);
    StuckExactlyWhen(sha, p, actions, key);
    var g := Run(sha, p, actions).gate;
    f := Awaited(EntryOf(g, key));
    forall n ensures Check(g, key, n) == if n == f && !LostSince(sha, p, actions, key) then Allowed else Held(f) {
      CheckSays(g, key, n);
    }
  }
}
