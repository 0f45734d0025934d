/** Proof that every admissible run sends each stream in order, and that a recovered gate agrees
    with the journal. */
module DeliveryOrder {
  import opened Common
  import opened NulText
  import opened Records
  import opened Journal
  import opened JournalRuns
  import opened JournalTheorems
  import opened Gate
  import opened Delivery
  import opened DeliveryRuns

  // ---------------------------------------------------------------------------------------
  // Invariant of the tables
  // ---------------------------------------------------------------------------------------

  ghost predicate KeysAgree(t: Tables) {
    forall a, b :: a in t.envelopes && b in t.envelopes ==> (a.streamKey == b.streamKey <==> StreamOf(a) == StreamOf(b))
  }

  predicate Precedes(t: Tables, a: Envelope, b: Envelope) {
    a in t.envelopes && b in t.envelopes && StreamOf(a) == StreamOf(b) && a.streamSequence < b.streamSequence
  }

  ghost predicate RowsInOrder(t: Tables) {
    forall a, b :: Precedes(t, a, b) && b.eventId in t.deliveries ==> a.eventId in t.deliveries
  }

  /** The REPLICATED events of a stream are its first ones. */
  ghost predicate DoneFirst(t: Tables) {
    forall a, b :: Precedes(t, a, b) && Done(t, b) ==> Done(t, a)
  }

  ghost predicate TablesSound(sha: Hash, t: Tables) {
    Consistent(sha, t) && KeysAgree(t) && RowsInOrder(t) && DoneFirst(t)
  }

  /** Every event of the raw key below sequence n is REPLICATED. */
  ghost predicate DoneBelow(t: Tables, key: string, n: int) {
    forall e :: e in t.envelopes && e.streamKey == key && e.streamSequence < n ==> Done(t, e)
  }

  ghost predicate Known(t: Tables, key: string, n: int) {
    exists e :: e in t.envelopes && e.streamKey == key && e.streamSequence == n
  }

  // ---------------------------------------------------------------------------------------
  // Invariant of the gate, the phase and the sends
  // ---------------------------------------------------------------------------------------

  ghost predicate EntrySound(t: Tables, key: string, s: StreamGate) {
    && DoneBelow(t, key, s.highestCompleted + 1)
    && (s.highestCompleted == 0 || Known(t, key, s.highestCompleted))
    && (s.blocking.Some? ==> DoneBelow(t, key, s.blocking.value) && Known(t, key, s.blocking.value))
  }

  ghost predicate GateSound(t: Tables, g: Streams) {
    forall key :: key in g ==> EntrySound(t, key, g[key])
  }

  /** The candidate being worked on is the first unreplicated event of its stream. */
  ghost predicate CandidateSound(t: Tables, c: Candidate) {
    && c.envelope in t.envelopes && c.envelope.eventId in t.deliveries
    && DoneBelow(t, c.envelope.streamKey, c.envelope.streamSequence)
    && !Done(t, c.envelope)
  }

  ghost predicate PhaseSound(w: World) {
    && (!w.phase.Idle? ==> CandidateSound(w.tables, w.phase.c))
    && (w.phase.Admitted? || w.phase.InFlight? ==> w.phase.route.partitionKey == StreamOf(w.phase.c.envelope))
    && (w.phase.InFlight? ==> LastSent(w.sends, StreamOf(w.phase.c.envelope)) == w.phase.c.envelope.streamSequence)
  }

  /** Below the last send everything is REPLICATED, above it nothing is. */
  ghost predicate Frontier(t: Tables, sends: seq<Send>) {
    forall e :: e in t.envelopes ==>
      && (e.streamSequence < LastSent(sends, StreamOf(e)) ==> Done(t, e))
      && (e.streamSequence > LastSent(sends, StreamOf(e)) ==> !Done(t, e))
  }

  ghost predicate SendsKnown(t: Tables, sends: seq<Send>) {
    forall i :: 0 <= i < |sends| ==>
      && sends[i].envelope in t.envelopes
      && sends[i].stream == StreamOf(sends[i].envelope) && sends[i].sequence == sends[i].envelope.streamSequence
  }

  ghost predicate SendsSound(t: Tables, sends: seq<Send>) {
    Frontier(t, sends) && SendsKnown(t, sends) && Staircase(sends) && SentAfterPredecessors(sends)
  }

  ghost predicate Sound(sha: Hash, w: World) {
    TablesSound(sha, w.tables) && GateSound(w.tables, w.gate) && PhaseSound(w) && SendsSound(w.tables, w.sends)
  }

  // ---------------------------------------------------------------------------------------
  // Table steps that confirm nothing
  // ---------------------------------------------------------------------------------------

  /** Without a confirmation no event becomes or stops being REPLICATED. */
  lemma DoneUnchanged(sha: Hash, t: Tables, op: Op, e: Envelope)
    requires !op.OpConfirm?
    ensures Done(Apply(sha, t, op).0, e) <==> Done(t, e)
  {
    hide Apply, SameRoute, DeliveryChecksum;
    var id := e.eventId;
    RowStep(sha, t, op, id);
    if id in t.deliveries && Updates(op, Apply(sha, t, op).1, id) {
      if op.OpLifecycle? {
        LifecycleKeepsRows(sha, t, op);
      } else {
        RowChange(sha, t, op, id);
      }
    }
    if id !in t.deliveries && id in Apply(sha, t, op).0.deliveries {
      NewRow(sha, t, op, id);
    }
  }

  /** What a table step may do to the delivery picture: the same envelopes plus at most one new
      last event of its stream, and the same REPLICATED events. */
  ghost predicate Quiet(t: Tables, u: Tables) {
    && t.envelopes <= u.envelopes
    && (forall e :: Done(u, e) <==> Done(t, e))
    && (forall id :: id in t.deliveries ==> id in u.deliveries)
    && (forall e :: e in u.envelopes && e !in t.envelopes ==>
          && !Done(t, e) && e.eventId !in u.deliveries && e.streamSequence >= 1
          && (forall a :: a in t.envelopes && StreamOf(a) == StreamOf(e) ==> a.streamSequence < e.streamSequence))
  }

  lemma AcceptIsQuiet(sha: Hash, t: Tables, op: Op)
    requires op.OpAccept? && Consistent(sha, t)
    ensures Quiet(t, Apply(sha, t, op).0)
  {
    hide Accept, Find, Ordered, AllIntact, ProducersRise, LogsBounded, HeadsCount, StreamOf, NewEnvelope, Insert, Quiet;
    var u := Apply(sha, t, op).0;
    AcceptKeepsRows(sha, t, op.site, op.request, op.now, op.io);
    ApplyGrows(sha, t, op);
    if Apply(sha, t, op).1.accept.Accepted? {
      AcceptedAnswer(sha, t, op.site, op.request, op.now, op.io);
      AcceptedInserts(sha, t, op.site, op.request, op.now, op.io);
      ApplyKeepsConsistent(sha, t, op);
      var e := NewEnvelope(sha, t, op.request, op.now);
      NewIsLast(u.envelopes);
      assert u.envelopes[..|t.envelopes|] == t.envelopes && u.envelopes[|t.envelopes|] == e;
      assert e.eventId !in t.deliveries;
      OneMoreIsQuiet(t, u, e);
    } else {
      SameIsQuiet(t, u);
    }
  }

  lemma OneMoreIsQuiet(t: Tables, u: Tables, e: Envelope)
    requires u.envelopes == t.envelopes + [e] && u.deliveries == t.deliveries && e.eventId !in t.deliveries && e.streamSequence >= 1
    requires forall a :: a in t.envelopes && StreamOf(a) == StreamOf(e) ==> a.streamSequence < e.streamSequence
    ensures Quiet(t, u)
  {
    hide StreamOf;
  }

  lemma SameIsQuiet(t: Tables, u: Tables)
    requires u.envelopes == t.envelopes && u.deliveries == t.deliveries
    ensures Quiet(t, u)
  {
    hide StreamOf;
  }

  lemma NewIsLast(envelopes: seq<Envelope>)
    requires Ordered(envelopes) && envelopes != []
    ensures var n := |envelopes| - 1;
      && envelopes[n].streamSequence >= 1
      && forall a :: a in envelopes[..n] && StreamOf(a) == StreamOf(envelopes[n]) ==> a.streamSequence < envelopes[n].streamSequence
  {
    hide Ordered, StreamOf, Find, Count;
    var n := |envelopes| - 1;
    StreamOrder(envelopes, n, n);
    forall a | a in envelopes[..n] && StreamOf(a) == StreamOf(envelopes[n])
      ensures a.streamSequence < envelopes[n].streamSequence
    {
      var i :| 0 <= i < n && envelopes[i] == a;
      StreamOrder(envelopes, i, n);
    }
  }

  lemma OtherOpIsQuiet(sha: Hash, t: Tables, op: Op)
    requires !op.OpConfirm? && Consistent(sha, t)
    ensures Quiet(t, Apply(sha, t, op).0)
  {
    hide Apply, Done, StreamOf, Consistent, Find;
    if op.OpAccept? {
      AcceptIsQuiet(sha, t, op);
    } else {
      UpdateFrame(sha, t, op);
      forall e
        ensures Done(Apply(sha, t, op).0, e) <==> Done(t, e)
      {
        DoneUnchanged(sha, t, op, e);
      }
    }
  }

  lemma QuietKeepsBelow(t: Tables, u: Tables, key: string, n: int)
    requires Quiet(t, u) && KeysAgree(u) && DoneBelow(t, key, n) && (n <= 1 || Known(t, key, n) || Known(t, key, n - 1))
    ensures DoneBelow(u, key, n)
  {
    hide Done, StreamOf;
    forall e | e in u.envelopes && e.streamKey == key && e.streamSequence < n
      ensures Done(u, e)
    {
      if n > 1 {
        var a :| a in t.envelopes && a.streamKey == key && (a.streamSequence == n || a.streamSequence == n - 1);
        assert a in u.envelopes;
        assert StreamOf(a) == StreamOf(e);
      }
    }
  }

  lemma QuietKeepsKnown(t: Tables, u: Tables, key: string, n: int)
    requires Quiet(t, u) && Known(t, key, n)
    ensures Known(u, key, n)
  {
    hide Done, StreamOf;
    var e :| e in t.envelopes && e.streamKey == key && e.streamSequence == n;
    assert e in u.envelopes;
  }

  lemma QuietKeepsGate(t: Tables, u: Tables, g: Streams)
    requires Quiet(t, u) && KeysAgree(u) && GateSound(t, g)
    ensures GateSound(u, g)
  {
    hide Quiet, KeysAgree, DoneBelow, Known;
    forall key | key in g
      ensures EntrySound(u, key, g[key])
    {
      var s := g[key];
      assert EntrySound(t, key, s);
      QuietKeepsBelow(t, u, key, s.highestCompleted + 1);
      if s.highestCompleted != 0 {
        QuietKeepsKnown(t, u, key, s.highestCompleted);
      }
      if s.blocking.Some? {
        QuietKeepsBelow(t, u, key, s.blocking.value);
        QuietKeepsKnown(t, u, key, s.blocking.value);
      }
    }
  }

  lemma QuietKeepsCandidate(t: Tables, u: Tables, c: Candidate)
    requires Quiet(t, u) && KeysAgree(u) && CandidateSound(t, c)
    ensures CandidateSound(u, c)
  {
    hide KeysAgree, Done, StreamOf;
    QuietKeepsBelow(t, u, c.envelope.streamKey, c.envelope.streamSequence);
  }

  lemma QuietKeepsDoneFirst(t: Tables, u: Tables)
    requires Quiet(t, u) && DoneFirst(t)
    ensures DoneFirst(u)
  {
    hide Done, StreamOf;
  }

  lemma {:induction false} LastSentIsKnown(t: Tables, sends: seq<Send>, stream: string) returns (e: Envelope)
    requires SendsKnown(t, sends) && LastSent(sends, stream) != 0
    ensures e in t.envelopes && StreamOf(e) == stream && e.streamSequence == LastSent(sends, stream)
  {
    hide StreamOf;
    var n := |sends| - 1;
    if sends[n].stream == stream {
      e := sends[n].envelope;
    } else {
      e := LastSentIsKnown(t, sends[..n], stream);
    }
  }

  lemma QuietKeepsSends(t: Tables, u: Tables, sends: seq<Send>)
    requires Quiet(t, u) && SendsSound(t, sends)
    ensures SendsSound(u, sends)
  {
    hide Done, StreamOf, LastSent, Staircase, SentAfterPredecessors;
    forall e | e in u.envelopes
      ensures e.streamSequence < LastSent(sends, StreamOf(e)) ==> Done(u, e)
      ensures e.streamSequence > LastSent(sends, StreamOf(e)) ==> !Done(u, e)
    {
      if e !in t.envelopes && LastSent(sends, StreamOf(e)) != 0 {
        var a := LastSentIsKnown(t, sends, StreamOf(e));
      }
    }
  }

  /** Any admissible operation of another user keeps the tables sound. */
  lemma OtherKeepsTables(sha: Hash, t: Tables, op: Op)
    requires TablesSound(sha, t) && Admissible(t, Other(op))
    ensures TablesSound(sha, Apply(sha, t, op).0) && Quiet(t, Apply(sha, t, op).0)
  {
    hide Apply, Quiet, Consistent, KeyFits, CreatedInOrder, Find, KeysAgree, RowsInOrder, DoneFirst;
    var u := Apply(sha, t, op).0;
    OtherOpIsQuiet(sha, t, op);
    ApplyKeepsConsistent(sha, t, op);
    QuietKeepsDoneFirst(t, u);
    OtherKeepsKeys(sha, t, op);
    OtherKeepsRowOrder(sha, t, op);
  }

  lemma OtherKeepsKeys(sha: Hash, t: Tables, op: Op)
    requires KeysAgree(t) && Admissible(t, Other(op))
    ensures KeysAgree(Apply(sha, t, op).0)
  {
    hide Accept, UpdateLifecycle, CreatePending, RecordAttempt, Confirm, Block, Retry, ComposedKey, Find, CreatedInOrder, NewEnvelope;
    if op.OpAccept? {
      if Apply(sha, t, op).1.accept.Accepted? {
        AcceptedAnswer(sha, t, op.site, op.request, op.now, op.io);
        NewEnvelopeKey(sha, t, op.request, op.now);
      }
    }
  }

  lemma NewEnvelopeKey(sha: Hash, t: Tables, q: AcceptRequest, now: int)
    ensures var e := NewEnvelope(sha, t, q, now);
      e.streamKey == q.streamKey && StreamOf(e) == RequestStream(q)
  {
    hide EnvelopeChecksum;
  }

  lemma OtherKeepsRowOrder(sha: Hash, t: Tables, op: Op)
    requires RowsInOrder(t) && Consistent(sha, t) && Quiet(t, Apply(sha, t, op).0) && Admissible(t, Other(op))
    ensures RowsInOrder(Apply(sha, t, op).0)
  {
    hide Apply, StreamOf, Done, Ordered, AllIntact, HeadsCount, Keyed, ProducersRise, LogsBounded, Find, KeyFits;
    var u := Apply(sha, t, op).0;
    forall a, b | Precedes(u, a, b) && b.eventId in u.deliveries
      ensures a.eventId in u.deliveries
    {
      assert Precedes(t, a, b);
      if b.eventId !in t.deliveries {
        NewRow(sha, t, op, b.eventId);
        var i :| 0 <= i < |t.envelopes| && t.envelopes[i] == b;
        FindStored(t.envelopes, i);
      }
    }
  }

  lemma OtherStepSound(sha: Hash, w: World, op: Op)
    requires Sound(sha, w) && Admissible(w.tables, Other(op))
    ensures Sound(sha, w.(tables := Apply(sha, w.tables, op).0))
  {
    hide Apply, Quiet, Admissible, GateSound, SendsSound, CandidateSound, Consistent, RowsInOrder, DoneFirst, KeysAgree;
    var u := Apply(sha, w.tables, op).0;
    OtherKeepsTables(sha, w.tables, op);
    QuietStepSound(sha, w, u);
  }

  /** The volatile state and the sends survive any quiet change of the tables. */
  lemma QuietStepSound(sha: Hash, w: World, u: Tables)
    requires Sound(sha, w) && Quiet(w.tables, u) && TablesSound(sha, u)
    ensures Sound(sha, w.(tables := u))
  {
    hide Quiet, GateSound, SendsSound, CandidateSound, Consistent, RowsInOrder, DoneFirst, KeysAgree;
    QuietKeepsGate(w.tables, u, w.gate);
    if !w.phase.Idle? {
      QuietKeepsCandidate(w.tables, u, w.phase.c);
    }
    QuietKeepsSends(w.tables, u, w.sends);
  }

  // ---------------------------------------------------------------------------------------
  // Gate updates
  // ---------------------------------------------------------------------------------------

  lemma SequencesArePositive(sha: Hash, t: Tables, e: Envelope)
    requires Consistent(sha, t) && e in t.envelopes
    ensures e.streamSequence >= 1
  {
    hide Ordered, AllIntact, HeadsCount, Keyed, ProducersRise, LogsBounded, StreamOf;
    var i :| 0 <= i < |t.envelopes| && t.envelopes[i] == e;
    StreamOrder(t.envelopes, i, i);
  }

  /** One event per stream and sequence, and one per event id. */
  lemma EventsAreUnique(sha: Hash, t: Tables, a: Envelope, b: Envelope)
    requires Consistent(sha, t) && a in t.envelopes && b in t.envelopes
    ensures StreamOf(a) == StreamOf(b) && a.streamSequence == b.streamSequence ==> a == b
    ensures a.eventId == b.eventId ==> a == b
  {
    hide Ordered, AllIntact, HeadsCount, Keyed, ProducersRise, LogsBounded, StreamOf, Find;
    var i :| 0 <= i < |t.envelopes| && t.envelopes[i] == a;
    var j :| 0 <= j < |t.envelopes| && t.envelopes[j] == b;
    FindStored(t.envelopes, i);
    FindStored(t.envelopes, j);
    if StreamOf(a) == StreamOf(b) {
      StreamOrder(t.envelopes, i, j);
      StreamOrder(t.envelopes, j, i);
    }
  }

  lemma EntryIsSound(sha: Hash, t: Tables, g: Streams, key: string)
    requires Consistent(sha, t) && GateSound(t, g)
    ensures EntrySound(t, key, EntryOf(g, key))
  {
    hide Consistent, Done;
    if key !in g {
      forall e | e in t.envelopes && e.streamKey == key
        ensures e.streamSequence >= 1
      {
        SequencesArePositive(sha, t, e);
      }
    }
  }

  /** Only the first unreplicated sequence, or a replicated one, is ever let through. */
  lemma AllowedIsFirst(sha: Hash, t: Tables, g: Streams, key: string, n: int)
    requires Consistent(sha, t) && GateSound(t, g) && Check(g, key, n) == Allowed
    ensures DoneBelow(t, key, n)
  {
    hide Consistent, DoneBelow, Known;
    EntryIsSound(sha, t, g, key);
  }

  lemma MarkBlockingSound(sha: Hash, t: Tables, g: Streams, key: string, n: int)
    requires Consistent(sha, t) && GateSound(t, g) && DoneBelow(t, key, n) && Known(t, key, n)
    ensures GateSound(t, MarkBlocking(g, key, n))
  {
    hide Consistent, DoneBelow, Known;
    EntryIsSound(sha, t, g, key);
  }

  lemma MarkInFlightSound(sha: Hash, t: Tables, g: Streams, key: string, n: int)
    requires Consistent(sha, t) && GateSound(t, g)
    ensures GateSound(t, MarkInFlight(g, key, n))
  {
    hide Consistent, DoneBelow, Known;
    EntryIsSound(sha, t, g, key);
  }

  lemma MarkCompletedSound(sha: Hash, t: Tables, g: Streams, e: Envelope)
    requires Consistent(sha, t) && KeysAgree(t) && GateSound(t, g)
    requires e in t.envelopes && Done(t, e) && DoneBelow(t, e.streamKey, e.streamSequence)
    ensures GateSound(t, MarkCompleted(g, e.streamKey, e.streamSequence))
  {
    hide Consistent, Done, StreamOf;
    EntryIsSound(sha, t, g, e.streamKey);
    forall a | a in t.envelopes && a.streamKey == e.streamKey && a.streamSequence < e.streamSequence + 1
      ensures Done(t, a)
    {
      EventsAreUnique(sha, t, a, e);
    }
    assert Known(t, e.streamKey, e.streamSequence);
  }

  // ---------------------------------------------------------------------------------------
  // Steps of the service
  // ---------------------------------------------------------------------------------------

  lemma CandidateFields(sha: Hash, t: Tables, id: string)
    requires GetCandidate(sha, t, id).Ready?
    ensures var c := GetCandidate(sha, t, id).candidate;
      && c.envelope in t.envelopes && c.envelope.eventId == id
      && id in t.deliveries && c.row == t.deliveries[id] && WellFormedRow(c.row)
  {
    hide EnvelopeChecksum, DeliveryChecksum;
  }

  lemma BeginStepSound(sha: Hash, p: Profile, w: World, id: string, io: Store)
    requires Sound(sha, w) && w.phase.Idle?
    ensures Sound(sha, BeginStep(sha, p, w, id, io))
  {
    hide GetCandidate, Check, MarkCompleted, MarkBlocking, GateSound, SendsSound, Consistent, KeysAgree, RowsInOrder, DoneFirst,
      DoneBelow, StreamOf, LastSent, Refusal, WellFormedRow, ResolveRouting;
    var found := GetCandidate(sha, w.tables, id);
    if !io.ReadFails? && found.Ready? {
      var e := found.candidate.envelope;
      CandidateFields(sha, w.tables, id);
      if Check(w.gate, e.streamKey, e.streamSequence) == Allowed {
        AllowedIsFirst(sha, w.tables, w.gate, e.streamKey, e.streamSequence);
        if Done(w.tables, e) {
          MarkCompletedSound(sha, w.tables, w.gate, e);
        } else {
          assert Known(w.tables, e.streamKey, e.streamSequence);
          MarkBlockingSound(sha, w.tables, w.gate, e.streamKey, e.streamSequence);
          NoRefusalIsRouted(sha, p, found.candidate);
        }
      }
    }
  }

  lemma NoRefusalIsRouted(sha: Hash, p: Profile, c: Candidate)
    ensures Refusal(sha, p, c).None? ==> ResolveRouting(sha, c.envelope).Routed? && p.fault.None?
    ensures Refusal(sha, p, c).None? ==>
      && c.row.routingFingerprint == Some(ResolveRouting(sha, c.envelope).route.checksum)
      && c.row.profileId == Some(p.id) && c.row.profileVersion == Some(p.version)
      && c.row.kafkaTopic == Some(ResolveRouting(sha, c.envelope).route.topic)
  {
    hide ResolveRouting;
  }

  /** After a table update by the service, blocking the candidate keeps the world sound. */
  lemma BlockCandidateSound(sha: Hash, w: World)
    requires Sound(sha, w) && !w.phase.Idle?
    ensures Sound(sha, w.(phase := Idle))
    ensures Sound(sha, w.(gate := MarkBlocking(w.gate, w.phase.c.envelope.streamKey, w.phase.c.envelope.streamSequence), phase := Idle))
  {
    hide MarkBlocking, GateSound, SendsSound, Consistent, KeysAgree, RowsInOrder, DoneFirst, DoneBelow, StreamOf, LastSent;
    var e := w.phase.c.envelope;
    assert Known(w.tables, e.streamKey, e.streamSequence);
    MarkBlockingSound(sha, w.tables, w.gate, e.streamKey, e.streamSequence);
  }

  lemma PersistBlockStepSound(sha: Hash, w: World, now: int, io: Store)
    requires Sound(sha, w) && w.phase.Refusing?
    ensures Sound(sha, PersistBlockStep(sha, w, now, io))
  {
    hide Sound, Block, MarkBlocking;
    var op := OpBlock(w.phase.c.envelope.eventId, w.phase.c.row.revision, w.phase.reason, now, io);
    OtherStepSound(sha, w, op);
    BlockCandidateSound(sha, w.(tables := Apply(sha, w.tables, op).0));
  }

  lemma SettleStepSound(sha: Hash, w: World, now: int, io: Store)
    requires Sound(sha, w) && w.phase.Settling?
    ensures Sound(sha, SettleStep(sha, w, now, io))
  {
    hide Sound, Block, Retry, MarkBlocking, ComputeNextRetry;
    var id, rev, count := w.phase.c.envelope.eventId, w.phase.c.row.revision, w.phase.c.row.attemptCount + 1;
    var schedule := ComputeNextRetry(count, w.phase.failedAt);
    var op := if ShouldRetry(w.phase.error, count) then
                if schedule.RetryAt? then OpRetry(id, rev, schedule.nextRetryAtMs, now, io)
                else OpBlock(id, rev, "retry exhausted", now, io)
              else OpBlock(id, rev, "permanent failure: " + ErrorText(w.phase.error), now, io);
    OtherStepSound(sha, w, op);
    BlockCandidateSound(sha, w.(tables := Apply(sha, w.tables, op).0));
  }

  lemma FailedStepSound(sha: Hash, p: Profile, w: World, error: SendError, now: int, io: Store)
    requires Sound(sha, w) && w.phase.InFlight?
    ensures Sound(sha, FailedStep(sha, p, w, error, now, io))
  {
    hide RecordAttempt, FailedAttempt, GateSound, SendsSound, TablesSound, CandidateSound, StreamOf, LastSent;
    var c := w.phase.c;
    var op := OpRecord(c.envelope.eventId, FailedAttempt(p, c, w.phase.route, error, now), now, io);
    OtherStepSound(sha, w, op);
  }

  // ---------------------------------------------------------------------------------------
  // The send itself
  // ---------------------------------------------------------------------------------------

  /** The candidate's sequence is the last one sent on its stream or the next. */
  lemma NextOrSame(sha: Hash, t: Tables, sends: seq<Send>, c: Candidate)
    requires TablesSound(sha, t) && Frontier(t, sends) && SendsKnown(t, sends) && CandidateSound(t, c)
    ensures var last := LastSent(sends, StreamOf(c.envelope));
      && c.envelope.streamSequence >= 1
      && (c.envelope.streamSequence == last || c.envelope.streamSequence == last + 1)
  {
    hide StreamOf, LastSent, Done, RowsInOrder, DoneFirst, Ordered, AllIntact, Keyed, ProducersRise, LogsBounded, Count, HeadsCount;
    var e := c.envelope;
    var last := LastSent(sends, StreamOf(e));
    SequencesArePositive(sha, t, e);
    assert e.streamSequence >= last;
    if e.streamSequence > last + 1 && last + 1 >= 1 {
      var i :| 0 <= i < |t.envelopes| && t.envelopes[i] == e;
      StreamOrder(t.envelopes, i, i);
      var k := StreamDense(t.envelopes, StreamOf(e), last + 1);
    }
    if last < 0 {
      var a := LastSentIsKnown(t, sends, StreamOf(e));
      SequencesArePositive(sha, t, a);
    }
  }

  /** What sending the candidate does to the log of sends. */
  lemma SendKeepsSends(sha: Hash, t: Tables, sends: seq<Send>, c: Candidate, topic: string, payload: string)
    requires TablesSound(sha, t) && SendsSound(t, sends) && CandidateSound(t, c)
    ensures var e := c.envelope;
      var more := sends + [Send(StreamOf(e), e.streamSequence, e, t, topic, payload)];
      SendsSound(t, more) && LastSent(more, StreamOf(e)) == e.streamSequence
  {
    hide StreamOf, Done, RowsInOrder, DoneFirst, Consistent;
    var e := c.envelope;
    var more := sends + [Send(StreamOf(e), e.streamSequence, e, t, topic, payload)];
    assert more[..|sends|] == sends;
    NextOrSame(sha, t, sends, c);
    forall a | a in t.envelopes && StreamOf(a) == StreamOf(e)
      ensures a.streamSequence < e.streamSequence ==> Done(t, a)
      ensures a.streamSequence > e.streamSequence ==> !Done(t, a)
    {
      assert a.streamKey == e.streamKey;
      LaterIsNotDone(t, e, a);
    }
  }

  /** Since REPLICATED events come first, nothing after an unreplicated event is REPLICATED. */
  lemma LaterIsNotDone(t: Tables, e: Envelope, a: Envelope)
    requires DoneFirst(t) && e in t.envelopes && a in t.envelopes && StreamOf(a) == StreamOf(e) && !Done(t, e)
    ensures a.streamSequence > e.streamSequence ==> !Done(t, a)
  {
    hide StreamOf, Done;
    if a.streamSequence > e.streamSequence {
      assert Precedes(t, e, a);
    }
  }

  lemma SendStepSound(sha: Hash, w: World, io: Store)
    requires Sound(sha, w) && w.phase.Admitted?
    ensures Sound(sha, SendStep(sha, w, io))
  {
    hide MarkBlocking, MarkInFlight, GateSound, SendsSound, Consistent, KeysAgree, RowsInOrder, DoneFirst, CandidateSound, StreamOf,
      LastSent, ReadPayload;
    var e := w.phase.c.envelope;
    BlockCandidateSound(sha, w);
    MarkInFlightSound(sha, w.tables, w.gate, e.streamKey, e.streamSequence);
    if ReadPayload(sha, w.tables, e.eventId).Some? {
      SendKeepsSends(sha, w.tables, w.sends, w.phase.c, w.phase.route.topic, ReadPayload(sha, w.tables, e.eventId).value);
    }
  }

  // ---------------------------------------------------------------------------------------
  // Confirmation
  // ---------------------------------------------------------------------------------------

  /** A successful confirmation makes exactly its own event REPLICATED. */
  lemma ConfirmMarksOne(sha: Hash, t: Tables, op: Op, e: Envelope)
    requires op.OpConfirm? && Apply(sha, t, op).1 == OfCas(Updated)
    ensures Apply(sha, t, op).0.envelopes == t.envelopes
    ensures Apply(sha, t, op).0.deliveries.Keys == t.deliveries.Keys
    ensures Done(Apply(sha, t, op).0, e) <==> Done(t, e) || e.eventId == op.id
  {
    hide Confirm, SameRoute, WellFormedRow, DeliveryChecksum, NextLifecycle;
    ConfirmEffect(sha, t, op.id, op.expected, op.confirmation, op.now, op.io);
  }

  /** The tables with exactly event `c` newly REPLICATED. */
  ghost predicate Promotes(t: Tables, u: Tables, c: Envelope) {
    && u.envelopes == t.envelopes && u.deliveries.Keys == t.deliveries.Keys
    && forall e :: e in t.envelopes ==> (Done(u, e) <==> Done(t, e) || e == c)
  }

  lemma PromoteKeepsTables(sha: Hash, t: Tables, u: Tables, c: Candidate)
    requires TablesSound(sha, t) && Promotes(t, u, c.envelope) && CandidateSound(t, c) && Consistent(sha, u)
    ensures TablesSound(sha, u)
  {
    hide Consistent, StreamOf, Done;
    forall a, b | Precedes(u, a, b) && Done(u, b)
      ensures Done(u, a)
    {
      assert Precedes(t, a, b);
      if b == c.envelope {
        assert a.streamKey == b.streamKey;
      }
    }
    forall a, b | Precedes(u, a, b) && b.eventId in u.deliveries
      ensures a.eventId in u.deliveries
    {
      assert Precedes(t, a, b);
    }
  }

  lemma PromoteKeepsGate(t: Tables, u: Tables, c: Envelope, g: Streams)
    requires Promotes(t, u, c) && GateSound(t, g)
    ensures GateSound(u, g)
  {
    hide Done;
    forall key | key in g
      ensures EntrySound(u, key, g[key])
    {
      assert EntrySound(t, key, g[key]);
    }
  }

  lemma PromoteKeepsSends(t: Tables, u: Tables, c: Envelope, sends: seq<Send>)
    requires Promotes(t, u, c) && SendsSound(t, sends) && LastSent(sends, StreamOf(c)) == c.streamSequence
    ensures SendsSound(u, sends)
  {
    hide Done, StreamOf, LastSent, Staircase, SentAfterPredecessors;
  }

  lemma AcceptedStepSound(sha: Hash, p: Profile, w: World, topic: string, partition: int, offset: int, now: int, io: Store)
    requires Sound(sha, w) && w.phase.InFlight?
    ensures Sound(sha, AcceptedStep(sha, p, w, topic, partition, offset, now, io))
  {
    hide Confirm, MarkBlocking, MarkCompleted, GateSound, SendsSound, Consistent, KeysAgree, RowsInOrder, DoneFirst, CandidateSound,
      StreamOf, LastSent, Done;
    var e := w.phase.c.envelope;
    var op := OpConfirm(e.eventId, w.phase.c.row.revision,
                        Confirmation(w.phase.route.checksum, p.id, p.version, topic, partition, offset), now, io);
    var r := Apply(sha, w.tables, op);
    BlockCandidateSound(sha, w);
    NotYetConfirmed(sha, w.tables, w.phase.c, op);
    if r.1 == OfCas(Updated) {
      ApplyKeepsConsistent(sha, w.tables, op);
      ConfirmPromotes(sha, w.tables, op, w.phase.c);
      PromoteKeepsTables(sha, w.tables, r.0, w.phase.c);
      PromoteKeepsGate(w.tables, r.0, e, w.gate);
      PromoteKeepsSends(w.tables, r.0, e, w.sends);
      PromotedIsFirst(w.tables, r.0, w.phase.c);
      MarkCompletedSound(sha, r.0, w.gate, e);
    }
  }

  lemma ConfirmPromotes(sha: Hash, t: Tables, op: Op, c: Candidate)
    requires Consistent(sha, t) && op.OpConfirm? && Apply(sha, t, op).1 == OfCas(Updated)
    requires CandidateSound(t, c) && op.id == c.envelope.eventId
    ensures Promotes(t, Apply(sha, t, op).0, c.envelope)
  {
    hide Apply, Done, Consistent, DoneBelow;
    ConfirmMarksOne(sha, t, op, c.envelope);
    forall e | e in t.envelopes
      ensures Done(Apply(sha, t, op).0, e) <==> Done(t, e) || e == c.envelope
    {
      ConfirmMarksOne(sha, t, op, e);
      EventsAreUnique(sha, t, e, c.envelope);
    }
  }

  lemma PromotedIsFirst(t: Tables, u: Tables, c: Candidate)
    requires Promotes(t, u, c.envelope) && CandidateSound(t, c)
    ensures c.envelope in u.envelopes && Done(u, c.envelope) && DoneBelow(u, c.envelope.streamKey, c.envelope.streamSequence)
  {
    hide Done;
  }

  /** Nobody else confirms, so the service never finds its own event confirmed already. */
  lemma NotYetConfirmed(sha: Hash, t: Tables, c: Candidate, op: Op)
    requires CandidateSound(t, c) && op.OpConfirm? && op.id == c.envelope.eventId
    ensures Apply(sha, t, op).1 != OfCas(AlreadyConfirmed)
    ensures Apply(sha, t, op).1 != OfCas(Updated) ==> Apply(sha, t, op).0 == t
  {
    hide DeliveryChecksum, WellFormedRow, GetStatus, SameRoute, SameConfirmation, Seal, DoneBelow;
  }

  // ---------------------------------------------------------------------------------------
  // Recovery
  // ---------------------------------------------------------------------------------------

  lemma {:induction false} ScanMembers(t: Tables, envelopes: seq<Envelope>, e: Envelope)
    ensures e in ScanRows(t, envelopes) <==> e in envelopes && e.eventId in t.deliveries
  {
    if envelopes != [] {
      var n := |envelopes| - 1;
      ScanMembers(t, envelopes[..n], e);
      assert e in envelopes <==> e in envelopes[..n] || e == envelopes[n];
    }
  }

  /** A scan cut at its limit is the complete scan of a shorter journal. */
  lemma {:induction false} CutScansPrefix(t: Tables, envelopes: seq<Envelope>, limit: nat) returns (m: nat)
    ensures m <= |envelopes| && Cut(ScanRows(t, envelopes), limit) == ScanRows(t, envelopes[..m])
  {
    if |ScanRows(t, envelopes)| <= limit {
      m := |envelopes|;
      assert envelopes[..m] == envelopes;
    } else {
      var n := |envelopes| - 1;
      m := CutScansPrefix(t, envelopes[..n], limit);
      assert envelopes[..n][..m] == envelopes[..m];
    }
  }

  /** With a row of the stream, a cut scan also holds the rows of its predecessors. */
  ghost predicate ScanClosed(t: Tables, rows: seq<Envelope>) {
    && (forall e :: e in rows ==> e in t.envelopes && e.eventId in t.deliveries)
    && (forall a, b :: b in rows && Precedes(t, a, b) && a.eventId in t.deliveries ==> a in rows)
  }

  lemma ScanIsClosed(sha: Hash, t: Tables, limit: nat)
    requires Consistent(sha, t)
    ensures ScanClosed(t, Cut(ScanRows(t, t.envelopes), limit))
  {
    hide Ordered, AllIntact, HeadsCount, Keyed, ProducersRise, LogsBounded, StreamOf, Cut, ScanRows;
    var rows := Cut(ScanRows(t, t.envelopes), limit);
    var m := CutScansPrefix(t, t.envelopes, limit);
    forall e
      ensures e in rows <==> e in t.envelopes[..m] && e.eventId in t.deliveries
    {
      ScanMembers(t, t.envelopes[..m], e);
    }
    forall a, b | b in rows && Precedes(t, a, b) && a.eventId in t.deliveries
      ensures a in rows
    {
      var j :| 0 <= j < m && t.envelopes[j] == b;
      var i :| 0 <= i < |t.envelopes| && t.envelopes[i] == a;
      StreamOrder(t.envelopes, i, j);
    }
  }

  lemma RecoveredMembers(t: Tables, rows: seq<Envelope>, r: Recovered)
    ensures r in ToRecoveredAll(t, rows) <==> exists e :: e in rows && r == ToRecovered(t, e)
  {
    hide ToRecovered;
    var states := ToRecoveredAll(t, rows);
    if r in states {
      var i :| 0 <= i < |states| && states[i] == r;
      assert rows[i] in rows;
    }
    if exists e :: e in rows && r == ToRecovered(t, e) {
      var e :| e in rows && r == ToRecovered(t, e);
      var i :| 0 <= i < |rows| && rows[i] == e;
      assert states[i] == r;
    }
  }

  /** The states are those of a set of rows, in any order. */
  ghost predicate Represents(t: Tables, states: seq<Recovered>, rows: seq<Envelope>) {
    forall r :: r in states <==> exists e :: e in rows && r == ToRecovered(t, e)
  }

  lemma StatesComeFromJournal(sha: Hash, t: Tables, states: seq<Recovered>, rows: seq<Envelope>)
    requires Consistent(sha, t) && Represents(t, states, rows) && forall e :: e in rows ==> e in t.envelopes
    ensures forall r :: r in states ==> FromJournal(r)
  {
    hide Consistent;
    forall r | r in states
      ensures FromJournal(r)
    {
      var e :| e in rows && r == ToRecovered(t, e);
      SequencesArePositive(sha, t, e);
    }
  }

  lemma RecoveredHighestSound(sha: Hash, t: Tables, states: seq<Recovered>, rows: seq<Envelope>, key: string, h: int)
    requires TablesSound(sha, t) && ScanClosed(t, rows) && Represents(t, states, rows) && h >= 0 && IsHighest(states, key, h)
    ensures DoneBelow(t, key, h + 1) && (h == 0 || Known(t, key, h))
  {
    hide Consistent, StreamOf, RowsInOrder;
    if h == 0 {
      forall a | a in t.envelopes && a.streamKey == key
        ensures a.streamSequence >= 1
      {
        SequencesArePositive(sha, t, a);
      }
    } else {
      var r :| r in states && r.key == key && r.replicated && r.sequence == h;
      var e :| e in rows && r == ToRecovered(t, e);
      forall a | a in t.envelopes && a.streamKey == key && a.streamSequence < h + 1
        ensures Done(t, a)
      {
        EventsAreUnique(sha, t, a, e);
        assert a.streamSequence < h ==> Precedes(t, a, e);
      }
    }
  }

  lemma RecoveredBlockingSound(sha: Hash, t: Tables, states: seq<Recovered>, rows: seq<Envelope>, key: string, b: int)
    requires TablesSound(sha, t) && ScanClosed(t, rows) && Represents(t, states, rows) && IsLowest(states, key, Some(b))
    ensures DoneBelow(t, key, b) && Known(t, key, b)
  {
    hide Consistent, StreamOf, DoneFirst;
    var r :| r in states && r.key == key && r.blocking && r.sequence == b;
    var e :| e in rows && r == ToRecovered(t, e);
    forall a | a in t.envelopes && a.streamKey == key && a.streamSequence < b
      ensures Done(t, a)
    {
      assert Precedes(t, a, e);
      assert ToRecovered(t, a) in states;
    }
  }

  lemma RecoveredGateSound(sha: Hash, t: Tables, states: seq<Recovered>, rows: seq<Envelope>)
    requires TablesSound(sha, t) && ScanClosed(t, rows) && Represents(t, states, rows)
    ensures GateSound(t, RecoverFrom(states))
  {
    hide TablesSound, DoneBelow, Known, RecoverFrom, IsHighest, IsLowest, Represents, ToRecovered, FromJournal;
    assert Consistent(sha, t) by { SoundIsConsistent(sha, t); }
    StatesComeFromJournal(sha, t, states, rows);
    forall key | key in RecoverFrom(states)
      ensures EntrySound(t, key, RecoverFrom(states)[key])
    {
      RecoveredEntry(states, key);
      var s := RecoverFrom(states)[key];
      RecoveredHighestSound(sha, t, states, rows, key, s.highestCompleted);
      if s.blocking.Some? {
        RecoveredBlockingSound(sha, t, states, rows, key, s.blocking.value);
      }
    }
  }

  lemma SoundIsConsistent(sha: Hash, t: Tables)
    requires TablesSound(sha, t)
    ensures Consistent(sha, t)
  {
  }

  lemma RecoverStepSound(sha: Hash, w: World, limit: nat, io: Store)
    requires Sound(sha, w) && w.phase.Idle?
    ensures Sound(sha, RecoverStep(sha, w, limit, io))
  {
    hide GateSound, SendsSound, ScanRows, Cut, AllVerified, RecoverFrom, ToRecoveredAll, Consistent, KeysAgree, RowsInOrder, DoneFirst,
      ScanClosed;
    var rows := Cut(ScanRows(w.tables, w.tables.envelopes), limit);
    var states := ToRecoveredAll(w.tables, rows);
    ScanIsClosed(sha, w.tables, limit);
    forall r
      ensures r in states <==> exists e :: e in rows && r == ToRecovered(w.tables, e)
    {
      RecoveredMembers(w.tables, rows, r);
    }
    RecoveredGateSound(sha, w.tables, states, rows);
  }

  // ---------------------------------------------------------------------------------------
  // Main theorem
  // ---------------------------------------------------------------------------------------

  lemma {:induction false} StepSound(sha: Hash, p: Profile, w: World, a: Action)
    requires Sound(sha, w) && Admissible(w.tables, a)
    ensures Sound(sha, Step(sha, p, w, a))
  {
    hide Sound, BeginStep, PersistBlockStep, SendStep, AcceptedStep, FailedStep, SettleStep, RecoverStep, Apply, Admissible;
    match a
    case Begin(id, io) => if w.phase.Idle? { BeginStepSound(sha, p, w, id, io); }
    case PersistBlock(now, io) => if w.phase.Refusing? { PersistBlockStepSound(sha, w, now, io); }
    case SendPayload(io) => if w.phase.Admitted? { SendStepSound(sha, w, io); }
    case BrokerAccepts(topic, partition, offset, now, io) =>
      if w.phase.InFlight? { AcceptedStepSound(sha, p, w, topic, partition, offset, now, io); }
    case BrokerFails(error, now, io) => if w.phase.InFlight? { FailedStepSound(sha, p, w, error, now, io); }
    case Settle(now, io) => if w.phase.Settling? { SettleStepSound(sha, w, now, io); }
    case Restart => RestartSound(sha, w);
    case Recover(limit, io) => if w.phase.Idle? { RecoverStepSound(sha, w, limit, io); }
    case Other(op) => OtherStepSound(sha, w, op);
  }

  lemma RestartSound(sha: Hash, w: World)
    requires Sound(sha, w)
    ensures Sound(sha, w.(gate := map[], phase := Idle))
  {
    hide TablesSound, SendsSound;
  }

  lemma StartIsSound(sha: Hash)
    ensures Sound(sha, START)
  {
    hide After;
    RunsAreConsistent(sha, []);
    EmptyRun(sha);
  }

  lemma EmptyRun(sha: Hash)
    ensures After(sha, []) == EMPTY
  {
  }

  lemma {:induction false} RunsAreSound(sha: Hash, p: Profile, actions: seq<Action>)
    requires AdmissibleRun(sha, p, actions)
    ensures Sound(sha, Run(sha, p, actions))
  {
    hide Sound, Step, Admissible;
    if actions == [] {
      StartIsSound(sha);
    } else {
      var n := |actions| - 1;
      forall i | 0 <= i < n
        ensures Admissible(Run(sha, p, actions[..n][..i]).tables, actions[..n][i])
      {
        assert actions[..n][..i] == actions[..i];
      }
      RunsAreSound(sha, p, actions[..n]);
      assert Admissible(Run(sha, p, actions[..n]).tables, actions[n]);
      StepSound(sha, p, Run(sha, p, actions[..n]), actions[n]);
    }
  }

  /** In every admissible run, with any broker answers, store failures, interleaved journal users
      and restarts with or without recovery, the sends of a stream start at 1 and climb one by
      one, and each is made only once all its predecessors are persisted REPLICATED. */
  lemma {:induction false} SendsAreOrdered(sha: Hash, p: Profile, actions: seq<Action>)
    requires AdmissibleRun(sha, p, actions)
    ensures Staircase(Run(sha, p, actions).sends)
    ensures SentAfterPredecessors(Run(sha, p, actions).sends)
  {
    hide Run, TablesSound, GateSound, PhaseSound, Staircase, SentAfterPredecessors, AdmissibleRun;
    RunsAreSound(sha, p, actions);
  }

  /** Installation, namespace and stream type without NULs. */
  predicate PlainNames(installationId: string, ns: string, streamType: string) {
    NulFree(installationId) && NulFree(ns) && NulFree(streamType)
  }

  /** On such names the key hypothesis needs one direction only: that the raw key names the stream. */
  lemma {:induction false} RawKeyNamesStream(t: Tables, q: AcceptRequest)
    requires PlainNames(q.installationId, q.ns, q.streamType)
    requires forall e :: e in t.envelopes ==> PlainNames(e.installationId, e.ns, e.streamType)
    requires forall e :: e in t.envelopes && e.streamKey == q.streamKey ==> StreamOf(e) == RequestStream(q)
    ensures KeyFits(t, q)
  {
    hide ComposedKey;
    forall e | e in t.envelopes && StreamOf(e) == RequestStream(q) ensures e.streamKey == q.streamKey {
      ComposedKeyInjective(e.installationId, e.ns, e.streamType, e.streamKey, q.installationId, q.ns, q.streamType, q.streamKey);
    }
  }

  /** Read off a staircase: the sends of a stream never decrease, the first is 1, and every
      sequence above 1 follows an earlier send of its predecessor. */
  lemma {:induction false} StaircaseMeans(sends: seq<Send>, j: nat)
    requires Staircase(sends) && j < |sends|
    ensures sends[j].sequence >= 1
    ensures forall i :: 0 <= i < j && sends[i].stream == sends[j].stream ==> sends[i].sequence <= sends[j].sequence
    ensures sends[j].sequence > 1 ==>
      exists i :: 0 <= i < j && sends[i].stream == sends[j].stream && sends[i].sequence == sends[j].sequence - 1
  {
    var n := |sends| - 1;
    if j < n {
      StaircaseMeans(sends[..n], j);
    } else if LastSent(sends[..n], sends[n].stream) != 0 {
      var k := LastSentAt(sends[..n], sends[n].stream);
      StaircaseMeans(sends[..n], k);
      forall i | 0 <= i < n && sends[i].stream == sends[n].stream
        ensures sends[i].sequence <= sends[n].sequence
      {
        assert i <= k;
      }
    } else {
      forall i | 0 <= i < n
        ensures sends[i].stream != sends[n].stream
      {
        NotSent(sends[..n], sends[n].stream, i);
      }
    }
  }

  lemma {:induction false} LastSentAt(sends: seq<Send>, stream: string) returns (k: nat)
    requires LastSent(sends, stream) != 0
    ensures k < |sends| && sends[k].stream == stream && sends[k].sequence == LastSent(sends, stream)
    ensures forall i :: k < i < |sends| ==> sends[i].stream != stream
  {
    var n := |sends| - 1;
    if sends[n].stream == stream {
      k := n;
    } else {
      k := LastSentAt(sends[..n], stream);
    }
  }

  lemma {:induction false} NotSent(sends: seq<Send>, stream: string, i: nat)
    requires Staircase(sends) && LastSent(sends, stream) == 0 && i < |sends|
    ensures sends[i].stream != stream
  {
    var n := |sends| - 1;
    if i < n {
      NotSent(sends[..n], stream, i);
    }
  }

  // ---------------------------------------------------------------------------------------
  // The recovered gate agrees with the journal
  // ---------------------------------------------------------------------------------------

  /** f is the first unreplicated sequence of the raw key. */
  ghost predicate FirstUndone(t: Tables, key: string, f: int) {
    && f >= 1 && (f == 1 || Known(t, key, f - 1))
    && forall e :: e in t.envelopes && e.streamKey == key ==> (Done(t, e) <==> e.streamSequence < f)
  }

  ghost predicate DoneAt(t: Tables, key: string, h: int) {
    exists e :: e in t.envelopes && e.streamKey == key && Done(t, e) && e.streamSequence == h
  }

  lemma {:induction false} HighestDone(t: Tables, key: string, n: nat) returns (h: int)
    requires n <= |t.envelopes|
    ensures h >= 0 && (h == 0 || DoneAt(t, key, h))
    ensures forall i :: 0 <= i < n && t.envelopes[i].streamKey == key && Done(t, t.envelopes[i]) ==> t.envelopes[i].streamSequence <= h
  {
    hide Done;
    if n == 0 {
      h := 0;
    } else {
      h := HighestDone(t, key, n - 1);
      var e := t.envelopes[n - 1];
      if e.streamKey == key && Done(t, e) && e.streamSequence > h {
        h := e.streamSequence;
        assert DoneAt(t, key, h);
      }
    }
  }

  /** Every stream of sound tables has exactly one first unreplicated sequence. */
  lemma {:induction false} FirstUndoneExists(sha: Hash, t: Tables, key: string) returns (f: int)
    requires TablesSound(sha, t)
    ensures FirstUndone(t, key, f)
  {
    hide Consistent, Done, StreamOf;
    var h := HighestDone(t, key, |t.envelopes|);
    f := h + 1;
    forall e | e in t.envelopes && e.streamKey == key
      ensures Done(t, e) <==> e.streamSequence < f
    {
      var i :| 0 <= i < |t.envelopes| && t.envelopes[i] == e;
      SequencesArePositive(sha, t, e);
      if h != 0 {
        var d :| d in t.envelopes && d.streamKey == key && Done(t, d) && d.streamSequence == h;
        EventsAreUnique(sha, t, e, d);
        assert e.streamSequence < h ==> Precedes(t, e, d);
      }
    }
  }

  /** After a complete scan in any order the gate lets exactly the first unreplicated sequence
      through and names it to every other one. */
  lemma {:induction false} RecoveredGateAgrees(sha: Hash, t: Tables, states: seq<Recovered>, rows: seq<Envelope>, key: string, f: int)
    requires TablesSound(sha, t) && Represents(t, states, rows) && FirstUndone(t, key, f)
    requires forall e :: e in rows <==> e in t.envelopes && e.eventId in t.deliveries
    ensures forall n :: Check(RecoverFrom(states), key, n) == if n == f then Allowed else Held(f)
  {
    hide Consistent, StreamOf, RecoverFrom, KeysAgree, RowsInOrder, DoneFirst, FromJournal;
    StatesComeFromJournal(sha, t, states, rows);
    RecoveredEntry(states, key);
    var s := EntryOf(RecoverFrom(states), key);
    if s.blocking.Some? {
      assert s.blocking.value == f by { BlockingIsFirst(sha, t, states, rows, key, f, s.blocking.value); }
    } else {
      assert s.highestCompleted == f - 1 by { HighestIsLast(sha, t, states, rows, key, f, s.highestCompleted); }
    }
  }

  lemma HighestIsLast(sha: Hash, t: Tables, states: seq<Recovered>, rows: seq<Envelope>, key: string, f: int, h: int)
    requires Represents(t, states, rows) && FirstUndone(t, key, f) && h >= 0 && IsHighest(states, key, h)
    requires forall e :: e in rows <==> e in t.envelopes && e.eventId in t.deliveries
    ensures h == f - 1
  {
    if f > 1 {
      var e :| e in t.envelopes && e.streamKey == key && e.streamSequence == f - 1;
      assert ToRecovered(t, e) in states;
    }
    if h != 0 {
      var r :| r in states && r.key == key && r.replicated && r.sequence == h;
      var e :| e in rows && r == ToRecovered(t, e);
    }
  }

  lemma BlockingIsFirst(sha: Hash, t: Tables, states: seq<Recovered>, rows: seq<Envelope>, key: string, f: int, b: int)
    requires TablesSound(sha, t) && Represents(t, states, rows) && FirstUndone(t, key, f) && IsLowest(states, key, Some(b))
    requires forall e :: e in rows <==> e in t.envelopes && e.eventId in t.deliveries
    ensures b == f
  {
    hide Consistent, StreamOf, DoneFirst;
    var r :| r in states && r.key == key && r.blocking && r.sequence == b;
    var e :| e in rows && r == ToRecovered(t, e);
    var a := PredecessorAt(sha, t, e, f);
    assert a.eventId in t.deliveries by { assert a != e ==> Precedes(t, a, e); }
    assert ToRecovered(t, a) in states;
  }

  /** The event that holds a given lower sequence of the same stream. */
  lemma PredecessorAt(sha: Hash, t: Tables, e: Envelope, n: int) returns (a: Envelope)
    requires Consistent(sha, t) && KeysAgree(t) && e in t.envelopes && 1 <= n <= e.streamSequence
    ensures a in t.envelopes && StreamOf(a) == StreamOf(e) && a.streamKey == e.streamKey && a.streamSequence == n
    ensures n == e.streamSequence ==> a == e
  {
    hide Ordered, AllIntact, HeadsCount, Keyed, ProducersRise, LogsBounded, StreamOf, Count;
    var i :| 0 <= i < |t.envelopes| && t.envelopes[i] == e;
    StreamOrder(t.envelopes, i, i);
    var k := StreamDense(t.envelopes, StreamOf(e), n);
    a := t.envelopes[k];
    EventsAreUnique(sha, t, a, e);
  }

  /** A sound gate, in particular one recovered from a cut scan, lets nothing past the first
      unreplicated sequence through. */
  lemma {:induction false} SoundGateIsConservative(sha: Hash, t: Tables, g: Streams, key: string, f: int, n: int)
    requires TablesSound(sha, t) && GateSound(t, g) && FirstUndone(t, key, f) && Check(g, key, n) == Allowed
    ensures n <= f
  {
    hide Consistent, StreamOf, RowsInOrder, DoneFirst, Done;
    EntryIsSound(sha, t, g, key);
    var s := EntryOf(g, key);
    if n > f {
      var top := if s.blocking.Some? then s.blocking.value else s.highestCompleted;
      var e :| e in t.envelopes && e.streamKey == key && e.streamSequence == top;
      var a := PredecessorAt(sha, t, e, f);
    }
  }
}
