/** The two hypotheses of the ordering theorem are needed: without either of them the service
    sends a stream out of order. Both counterexamples are concrete runs, for any hash. */
module OrderingLimits {
  import opened Common
  import opened NulText
  import opened Records
  import opened Journal
  import opened JournalRuns
  import opened JournalTheorems
  import opened Gate
  import opened Delivery
  import opened DeliveryRuns

  const SITE := Site(false, true, 100)
  const PROFILE := Profile("p", 1, None)

  /** Requests that differ in namespace, event id and operation number only. */
  function Request(ns: string, id: string, n: int): AcceptRequest {
    AcceptRequest("i", id, "p", "x", n, ns, "t", "k", "e", 1, "", ZeroChecksum(), 1)
  }

  function AcceptIt(ns: string, id: string, n: int): (a: Action)
    ensures a.Other?
  {
    Other(OpAccept(SITE, Request(ns, id, n), 0, Healthy))
  }

  function Stored(sha: Hash, ns: string, id: string, journal: int, stream: int, op: int): Envelope {
    var e := Envelope(journal, id, "i", "p", "x", op, ns, "t", "k", "e", 1, stream, sha(""), ZeroChecksum(), ZeroChecksum(), "i" + "/" + id, 0, 1, 0);
    e.(checksum := EnvelopeChecksum(sha, e))
  }

  function RouteOf(sha: Hash, ns: string): Checksum {
    sha(RoutingText(Stored(sha, ns, "", 0, 0, 0)))
  }

  /** A delivery row as the router would ask for it. */
  function CreateIt(sha: Hash, ns: string, id: string): (a: Action)
    ensures a.Other?
  {
    Other(OpCreate(id, RouteOf(sha, ns), "p", 1, Topic("i", ns), 0, Healthy))
  }

  function Row(sha: Hash, ns: string, id: string): DeliveryRow {
    Seal(sha, id, PendingRow(RouteOf(sha, ns), "p", 1, Topic("i", ns), 0))
  }

  /** A PENDING row with the routing fields of a created one. */
  predicate PendingLike(sha: Hash, ns: string, row: DeliveryRow) {
    && row.status == Pending && row.routingFingerprint == Some(RouteOf(sha, ns))
    && row.profileId == Some("p") && row.profileVersion == Some(1) && row.kafkaTopic == Some(Topic("i", ns))
  }

  lemma RoutedAsCreated(sha: Hash, ns: string, id: string, journal: int, stream: int, op: int, row: DeliveryRow)
    requires ns != "" && PendingLike(sha, ns, row)
    ensures Refusal(sha, PROFILE, Candidate(Stored(sha, ns, id, journal, stream, op), row)).None?
  {
    hide Render, EnvelopeChecksum, DeliveryChecksum;
    assert RoutingText(Stored(sha, ns, id, journal, stream, op)) == RoutingText(Stored(sha, ns, "", 0, 0, 0));
  }

  lemma BeginAdmits(sha: Hash, w: World, c: Candidate)
    requires w.phase.Idle? && GetCandidate(sha, w.tables, c.envelope.eventId) == Ready(c) && c.row.status == Pending
    requires Check(w.gate, c.envelope.streamKey, c.envelope.streamSequence) == Allowed && Refusal(sha, PROFILE, c).None?
    ensures Step(sha, PROFILE, w, Begin(c.envelope.eventId, Healthy)) == w.(phase := Admitted(c, ResolveRouting(sha, c.envelope).route))
  {
    hide GetCandidate, Check, Refusal, ResolveRouting, MarkBlocking, MarkCompleted;
  }

  /** A stored event with a verified row is a candidate, and its payload reads back. */
  lemma StoredIsReady(sha: Hash, t: Tables, e: Envelope)
    requires Consistent(sha, t) && e in t.envelopes && Load(sha, t, e.eventId).Present?
    ensures e.eventId in t.deliveries
    ensures GetCandidate(sha, t, e.eventId) == Ready(Candidate(e, t.deliveries[e.eventId]))
    ensures ReadPayload(sha, t, e.eventId).Some?
  {
    hide EnvelopeChecksum, DeliveryChecksum, WellFormedRow, Ordered, HeadsCount, ProducersRise, LogsBounded, Find, Keyed, ProducerOf,
      LifecycleChecksum;
    var i :| 0 <= i < |t.envelopes| && t.envelopes[i] == e;
    FindStored(t.envelopes, i);
    assert Intact(sha, t, e);
  }

  /** From an idle service, an allowed pending event whose row was created as above gets sent. */
  lemma AllowedIsSent(sha: Hash, w: World, ns: string, e: Envelope) returns (v: World)
    requires w.phase.Idle? && Consistent(sha, w.tables) && e in w.tables.envelopes && ns != ""
    requires e == Stored(sha, ns, e.eventId, e.journalSequence, e.streamSequence, e.producerOpSeq)
    requires Load(sha, w.tables, e.eventId).Present?
    requires e.eventId in w.tables.deliveries && PendingLike(sha, ns, w.tables.deliveries[e.eventId])
    requires Check(w.gate, e.streamKey, e.streamSequence) == Allowed
    ensures v == Step(sha, PROFILE, Step(sha, PROFILE, w, Begin(e.eventId, Healthy)), SendPayload(Healthy))
    ensures ResolveRouting(sha, e).Routed? && ReadPayload(sha, w.tables, e.eventId).Some?
    ensures v == World(w.tables, MarkInFlight(w.gate, e.streamKey, e.streamSequence),
                       InFlight(Candidate(e, w.tables.deliveries[e.eventId]), ResolveRouting(sha, e).route),
                       w.sends + [Send(StreamOf(e), e.streamSequence, e, w.tables, ResolveRouting(sha, e).route.topic,
                                       ReadPayload(sha, w.tables, e.eventId).value)])
  {
    hide Consistent, Load, GetCandidate, ReadPayload, Stored, Check, Refusal, ResolveRouting, MarkInFlight, MarkBlocking, RouteOf,
      BeginStep, StreamOf, Topic, DeliveryChecksum;
    var c := Candidate(e, w.tables.deliveries[e.eventId]);
    StoredIsReady(sha, w.tables, e);
    RoutedAsCreated(sha, ns, e.eventId, e.journalSequence, e.streamSequence, e.producerOpSeq, c.row);
    BeginAdmits(sha, w, c);
    var x := Step(sha, PROFILE, w, Begin(e.eventId, Healthy));
    v := Step(sha, PROFILE, x, SendPayload(Healthy));
  }

  /** What an accepted request of this family stores. */
  lemma AcceptStores(sha: Hash, t: Tables, ns: string, id: string, n: int)
    requires id != "" && id !in t.dedup && Find(t.envelopes, id).None? && !ProducerConflict(t, Request(ns, id, n))
    ensures var q := Request(ns, id, n);
      var u := Apply(sha, t, AcceptIt(ns, id, n).op).0;
      && u == Insert(sha, t, q, 0)
      && u.envelopes == t.envelopes + [Stored(sha, ns, id, MaxSequence(t.envelopes) + 1, Head(t, RequestStream(q)) + 1, n)]
      && u.deliveries == t.deliveries && u.dedup == t.dedup[id := ZeroChecksum()]
      && u.streamHeads == t.streamHeads[RequestStream(q) := Head(t, RequestStream(q)) + 1]
      && u.producers == t.producers[RequestProducer(q) := ProducerHead(n, id)]
  {
    hide EnvelopeChecksum, LifecycleChecksum, ComposedKey, ProducerKey, Find, MaxSequence, ProducerConflict, Newest;
  }

  lemma CreateStores(sha: Hash, t: Tables, ns: string, id: string)
    requires Find(t.envelopes, id).Some? && id !in t.deliveries
    ensures Apply(sha, t, CreateIt(sha, ns, id).op).0 ==
      t.(deliveries := t.deliveries[id := Row(sha, ns, id)])
  {
    hide Find, DeliveryChecksum, Seal, RouteOf;
  }

  lemma RunStep(sha: Hash, actions: seq<Action>, i: nat)
    requires i < |actions|
    ensures Run(sha, PROFILE, actions[..i + 1]) == Step(sha, PROFILE, Run(sha, PROFILE, actions[..i]), actions[i])
  {
    hide Step;
    assert actions[..i + 1][..i] == actions[..i];
  }

  lemma OtherStep(sha: Hash, w: World, op: Op)
    ensures Step(sha, PROFILE, w, Other(op)) == w.(tables := Apply(sha, w.tables, op).0)
  {
    hide Apply;
  }

  lemma RunsFromStart(sha: Hash)
    ensures Run(sha, PROFILE, []) == START
  {
  }

  /** Journal operations between `i` and `i + 3` change the tables only. */
  lemma ThreeOthers(sha: Hash, acts: seq<Action>, i: nat)
    requires i + 3 <= |acts| && acts[i].Other? && acts[i + 1].Other? && acts[i + 2].Other?
    ensures var w := Run(sha, PROFILE, acts[..i]);
      Run(sha, PROFILE, acts[..i + 3]) ==
        w.(tables := Apply(sha, Apply(sha, Apply(sha, w.tables, acts[i].op).0, acts[i + 1].op).0, acts[i + 2].op).0)
  {
    hide Step, Apply, Run;
    RunStep(sha, acts, i);
    RunStep(sha, acts, i + 1);
    RunStep(sha, acts, i + 2);
    var w := Run(sha, PROFILE, acts[..i]);
    OtherStep(sha, w, acts[i].op);
    OtherStep(sha, Run(sha, PROFILE, acts[..i + 1]), acts[i + 1].op);
    OtherStep(sha, Run(sha, PROFILE, acts[..i + 2]), acts[i + 2].op);
  }

  function StreamName(ns: string): string {
    ComposedKey("i", ns, "t", "k")
  }

  lemma StoredFields(sha: Hash, ns: string, id: string, journal: int, stream: int, op: int)
    ensures var e := Stored(sha, ns, id, journal, stream, op);
      && e.eventId == id && e.streamKey == "k" && StreamOf(e) == StreamName(ns) && e.streamSequence == stream
      && e.journalSequence == journal && e.producerOpSeq == op && e.checksum == EnvelopeChecksum(sha, e)
  {
    hide Render, ComposedKey;
  }

  // ---------------------------------------------------------------------------------------
  // Rows created out of stream order
  // ---------------------------------------------------------------------------------------

  /** An accepted event is appended with the next sequences of journal and stream. */
  lemma AcceptAppends(sha: Hash, t: Tables, ns: string, id: string, n: int, last: string)
    requires Consistent(sha, t) && id != "" && Find(t.envelopes, id).None? && id !in t.dedup
    requires t.producers == map[] || t.producers == map[ProducerKey("i", "p", "x") := ProducerHead(n - 1, last)]
    ensures var u := Apply(sha, t, AcceptIt(ns, id, n).op).0;
      && u.envelopes == t.envelopes + [Stored(sha, ns, id, |t.envelopes| + 1, Count(t.envelopes, StreamName(ns)) + 1, n)]
      && u.deliveries == t.deliveries && u.dedup == t.dedup[id := ZeroChecksum()]
      && u.producers == map[ProducerKey("i", "p", "x") := ProducerHead(n, id)]
      && Consistent(sha, u)
  {
    hide Apply, Stored, ComposedKey, ProducerKey, Find, Ordered, AllIntact, Keyed, ProducersRise, LogsBounded, Count, Insert;
    AcceptStores(sha, t, ns, id, n);
    MaxIsLength(t.envelopes);
    assert Head(t, StreamName(ns)) == Count(t.envelopes, StreamName(ns));
    ApplyKeepsConsistent(sha, t, AcceptIt(ns, id, n).op);
  }

  /** Two events of one stream, a row for the second only, then a recovery and an attempt. */
  function OutOfOrderRows(sha: Hash, ns: string, b: string, c: string): seq<Action> {
    [ AcceptIt(ns, b, 1), AcceptIt(ns, c, 2), CreateIt(sha, ns, c), Recover(10_000, Healthy), Begin(c, Healthy), SendPayload(Healthy) ]
  }

  lemma EmptyIsConsistent(sha: Hash)
    ensures Consistent(sha, EMPTY)
  {
    hide Consistent;
    RunsAreConsistent(sha, []);
  }

  lemma CountOne(sha: Hash, e: Envelope, stream: string)
    ensures Count([e], stream) == if StreamOf(e) == stream then 1 else 0
    ensures forall id :: Find([e], id) == if e.eventId == id then Some(e) else None
  {
    hide StreamOf;
    assert [e][..0] == [];
  }

  /** Tables with two accepted events of one stream. */
  lemma TwoAccepted(sha: Hash, ns: string, b: string, c: string) returns (t: Tables)
    requires b != "" && c != "" && b != c
    ensures t == Apply(sha, Apply(sha, EMPTY, AcceptIt(ns, b, 1).op).0, AcceptIt(ns, c, 2).op).0
    ensures t.envelopes == [Stored(sha, ns, b, 1, 1, 1), Stored(sha, ns, c, 2, 2, 2)]
    ensures t.deliveries == map[] && Consistent(sha, t)
    ensures t.dedup.Keys == {b, c} && t.producers == map[ProducerKey("i", "p", "x") := ProducerHead(2, c)]
  {
    hide Apply, Stored, ComposedKey, ProducerKey, Consistent, Find, Count;
    EmptyIsConsistent(sha);
    EmptyLookups(b, StreamName(ns));
    AcceptAppends(sha, EMPTY, ns, b, 1, "");
    var t1 := Apply(sha, EMPTY, AcceptIt(ns, b, 1).op).0;
    var e := Stored(sha, ns, b, 1, 1, 1);
    StoredFields(sha, ns, b, 1, 1, 1);
    assert t1.envelopes == [e];
    CountOne(sha, e, StreamName(ns));
    AcceptAppends(sha, t1, ns, c, 2, b);
    t := Apply(sha, t1, AcceptIt(ns, c, 2).op).0;
  }

  lemma EmptyLookups(id: string, stream: string)
    ensures Find([], id).None? && Count([], stream) == 0
  {
  }

  /** A fresh row of this family verifies. */
  lemma CreatedLoads(sha: Hash, t: Tables, ns: string, id: string)
    requires id in t.deliveries && t.deliveries[id] == Row(sha, ns, id)
    ensures Load(sha, t, id).Present?
  {
    hide DeliveryChecksum, Load, Seal, RouteOf;
    assert |Topic("i", ns)| >= 11 && |"p"| == 1;
    SealVerifies(sha, t, id, PendingRow(RouteOf(sha, ns), "p", 1, Topic("i", ns), 0));
  }

  lemma RecoverOnlyRow(sha: Hash, w: World, b: Envelope, c: Envelope)
    requires w.phase.Idle? && c.streamSequence >= 1 && w.tables.envelopes == [b, c] && b.eventId !in w.tables.deliveries
    requires Load(sha, w.tables, c.eventId).Present? && c.checksum == EnvelopeChecksum(sha, c)
    requires c.eventId in w.tables.deliveries && w.tables.deliveries[c.eventId].status == Pending
    ensures Step(sha, PROFILE, w, Recover(10_000, Healthy)) == w.(gate := map[c.streamKey := StreamGate(0, None, Some(c.streamSequence))])
  {
    hide EnvelopeChecksum, Load, RecoverFrom;
    var t := w.tables;
    assert [b, c][..1] == [b] && [b][..0] == [];
    assert ScanRows(t, [b]) == [];
    assert ScanRows(t, [b, c]) == [c];
    assert Verified(sha, t, c);
    assert Scan(sha, t, 10_000, Healthy) == Some([c]);
    var states := ToRecoveredAll(t, [c]);
    assert states == [Recovered(c.streamKey, c.streamSequence, false, true, false)];
    RecoverOne(states[0]);
  }

  lemma RecoverOne(r: Recovered)
    requires FromJournal(r) && r.blocking
    ensures RecoverFrom([r]) == map[r.key := StreamGate(0, None, Some(r.sequence))]
  {
    assert [r][..0] == [];
    assert RecoverFrom([r]) == Absorb(map[], r);
  }

  /** The world after the first three actions. */
  lemma OnlyTheSecondHasARow(sha: Hash, ns: string, b: string, c: string) returns (w: World)
    requires ns != "" && b != "" && c != "" && b != c
    ensures w == Run(sha, PROFILE, OutOfOrderRows(sha, ns, b, c)[..3])
    ensures w.tables.envelopes == [Stored(sha, ns, b, 1, 1, 1), Stored(sha, ns, c, 2, 2, 2)]
    ensures w.tables.deliveries == map[c := Row(sha, ns, c)]
    ensures w.phase.Idle? && w.sends == [] && Consistent(sha, w.tables)
  {
    hide Step, Apply, Stored, Consistent, Find, Row, Run, AcceptIt, CreateIt;
    var acts := OutOfOrderRows(sha, ns, b, c);
    var t := TwoAccepted(sha, ns, b, c);
    ThreeOthers(sha, acts, 0);
    assert acts[..0] == [] && Run(sha, PROFILE, []) == START by { RunsFromStart(sha); }
    StoredFields(sha, ns, b, 1, 1, 1);
    StoredFields(sha, ns, c, 2, 2, 2);
    CreateStores(sha, t, ns, c);
    ApplyKeepsConsistent(sha, t, CreateIt(sha, ns, c).op);
    w := Run(sha, PROFILE, acts[..3]);
  }

  /** Without in-order row creation the theorem fails: the recovered gate takes the only row for
      the first of the stream, and sequence 2 is the first one sent. */
  lemma {:induction false} RowOrderIsNeeded(sha: Hash, ns: string, b: string, c: string)
    requires ns != "" && b != "" && c != "" && b != c
    ensures !Staircase(Run(sha, PROFILE, OutOfOrderRows(sha, ns, b, c)).sends)
  {
    hide Step, Stored, StreamOf, Consistent, Load, Topic, RouteOf, Check, MarkInFlight, ResolveRouting, Seal, Run, Staircase,
      PendingLike;
    var acts := OutOfOrderRows(sha, ns, b, c);
    var w := OnlyTheSecondHasARow(sha, ns, b, c);
    RunStep(sha, acts, 3);
    RunStep(sha, acts, 4);
    RunStep(sha, acts, 5);
    assert acts[..6] == acts;
    var e := Stored(sha, ns, c, 2, 2, 2);
    StoredFields(sha, ns, b, 1, 1, 1);
    StoredFields(sha, ns, c, 2, 2, 2);
    CreatedLoads(sha, w.tables, ns, c);
    SealedIsPending(sha, ns, c);
    RecoverOnlyRow(sha, w, Stored(sha, ns, b, 1, 1, 1), e);
    var recovered := Run(sha, PROFILE, acts[..4]);
    AllowedAtBlocking(recovered.gate, e.streamKey, 2);
    var v := AllowedIsSent(sha, recovered, ns, e);
    FirstSendMustBeOne(v.sends);
  }

  /** The run above does respect the key hypothesis. */
  lemma {:induction false} RowOrderRunFitsKeys(sha: Hash, ns: string, b: string, c: string)
    requires b != "" && c != "" && b != c
    ensures var acts := OutOfOrderRows(sha, ns, b, c);
      && KeyFits(Run(sha, PROFILE, acts[..0]).tables, Request(ns, b, 1))
      && KeyFits(Run(sha, PROFILE, acts[..1]).tables, Request(ns, c, 2))
  {
    hide Step, Apply, Stored, StreamOf, StreamName, Consistent, Find, Count, Run, AcceptIt, CreateIt, KeyFits, Request;
    var acts := OutOfOrderRows(sha, ns, b, c);
    assert acts[..0] == [];
    RunsFromStart(sha);
    RunStep(sha, acts, 0);
    OtherStep(sha, START, acts[0].op);
    EmptyIsConsistent(sha);
    EmptyLookups(b, StreamName(ns));
    AcceptAppends(sha, EMPTY, ns, b, 1, "");
    StoredFields(sha, ns, b, 1, 1, 1);
    var t := Apply(sha, EMPTY, acts[0].op).0;
    assert t.envelopes == [Stored(sha, ns, b, 1, 1, 1)];
    FitsAll(EMPTY, ns, b, 1);
    FitsAll(t, ns, c, 2);
  }

  lemma FitsAll(t: Tables, ns: string, id: string, n: int)
    requires forall e :: e in t.envelopes ==> e.streamKey == "k" && StreamOf(e) == StreamName(ns)
    ensures KeyFits(t, Request(ns, id, n))
  {
    hide StreamOf, ComposedKey;
  }

  lemma SealedIsPending(sha: Hash, ns: string, id: string)
    ensures Row(sha, ns, id).status == Pending && PendingLike(sha, ns, Row(sha, ns, id))
  {
    hide DeliveryChecksum, RouteOf, Topic;
  }

  lemma AllowedAtBlocking(g: Streams, key: string, n: int)
    requires key in g && g[key] == StreamGate(0, None, Some(n))
    ensures Check(g, key, n) == Allowed
  {
  }

  lemma FirstSendMustBeOne(sends: seq<Send>)
    requires |sends| == 1 && sends[0].sequence == 2
    ensures !Staircase(sends)
  {
    assert sends[..0] == [];
  }

  // ---------------------------------------------------------------------------------------
  // One raw key for two streams
  // ---------------------------------------------------------------------------------------

  /** Two streams share the raw key "k". Rows are created in order; the event of the second
      stream is delivered, then the second event of the first stream is attempted. */
  function SharedKey(sha: Hash, n: string, b: string, c: string, m: string, a: string): seq<Action> {
    [ AcceptIt(n, b, 1), AcceptIt(n, c, 2), AcceptIt(m, a, 3),
      CreateIt(sha, n, b), CreateIt(sha, n, c), CreateIt(sha, m, a),
      Begin(a, Healthy), SendPayload(Healthy), BrokerAccepts(Topic("i", m), 0, 0, 0, Healthy),
      Begin(c, Healthy), SendPayload(Healthy) ]
  }

  ghost predicate Apart(n: string, b: string, c: string, m: string, a: string) {
    && n != "" && m != "" && n != m && NulFree(n) && NulFree(m)
    && a != "" && b != "" && c != "" && a != b && a != c && b != c
  }

  lemma StreamsDiffer(n: string, m: string)
    requires n != m && NulFree(n) && NulFree(m)
    ensures StreamName(n) != StreamName(m)
  {
    hide ComposedKey;
    assert NulFree("i") && NulFree("t");
    if StreamName(n) == StreamName(m) {
      ComposedKeyInjective("i", n, "t", "k", "i", m, "t", "k");
    }
  }

  lemma CountTwo(e: Envelope, f: Envelope, stream: string, id: string)
    requires StreamOf(e) != stream && StreamOf(f) != stream && e.eventId != id && f.eventId != id
    ensures Count([e, f], stream) == 0 && Find([e, f], id).None?
  {
    hide StreamOf;
    assert [e, f][..1] == [e] && [e][..0] == [];
    assert Count([e], stream) == 0 && Find([e], id).None?;
  }

  lemma ThreeAccepted(sha: Hash, n: string, b: string, c: string, m: string, a: string) returns (t: Tables)
    requires Apart(n, b, c, m, a)
    ensures t == Apply(sha, Apply(sha, Apply(sha, EMPTY, AcceptIt(n, b, 1).op).0, AcceptIt(n, c, 2).op).0, AcceptIt(m, a, 3).op).0
    ensures t.envelopes == [Stored(sha, n, b, 1, 1, 1), Stored(sha, n, c, 2, 2, 2), Stored(sha, m, a, 3, 1, 3)]
    ensures t.deliveries == map[] && Consistent(sha, t)
  {
    hide Apply, Stored, ComposedKey, ProducerKey, Consistent, Find, Count, StreamOf, StreamName, AcceptIt, EnvelopeChecksum, NulFree;
    var two := TwoAccepted(sha, n, b, c);
    StoredFields(sha, n, b, 1, 1, 1);
    StoredFields(sha, n, c, 2, 2, 2);
    StreamsDiffer(n, m);
    CountTwo(two.envelopes[0], two.envelopes[1], StreamName(m), a);
    AcceptAppends(sha, two, m, a, 3, c);
    t := Apply(sha, two, AcceptIt(m, a, 3).op).0;
  }

  /** The world after all events are accepted and all rows are created. */
  lemma AllHaveRows(sha: Hash, n: string, b: string, c: string, m: string, a: string) returns (w: World)
    requires Apart(n, b, c, m, a)
    ensures w == Run(sha, PROFILE, SharedKey(sha, n, b, c, m, a)[..6])
    ensures w.tables.envelopes == [Stored(sha, n, b, 1, 1, 1), Stored(sha, n, c, 2, 2, 2), Stored(sha, m, a, 3, 1, 3)]
    ensures w.tables.deliveries == map[b := Row(sha, n, b), c := Row(sha, n, c), a := Row(sha, m, a)]
    ensures w.phase.Idle? && w.sends == [] && w.gate == map[] && Consistent(sha, w.tables)
  {
    hide Step, Apply, Stored, Consistent, Find, Row, Run, AcceptIt, CreateIt, SharedKey, StreamOf, StreamName, EnvelopeChecksum;
    var acts := SharedKey(sha, n, b, c, m, a);
    FirstActions(sha, n, b, c, m, a);
    var t := ThreeAccepted(sha, n, b, c, m, a);
    ThreeOthers(sha, acts, 0);
    ThreeOthers(sha, acts, 3);
    assert acts[..0] == [] && Run(sha, PROFILE, []) == START by { RunsFromStart(sha); }
    StoredFields(sha, n, b, 1, 1, 1);
    StoredFields(sha, n, c, 2, 2, 2);
    StoredFields(sha, m, a, 3, 1, 3);
    ThreeCreated(sha, t, n, b, c, m, a);
    w := Run(sha, PROFILE, acts[..6]);
  }

  lemma FirstActions(sha: Hash, n: string, b: string, c: string, m: string, a: string)
    ensures var acts := SharedKey(sha, n, b, c, m, a);
      && |acts| == 11 && acts[0] == AcceptIt(n, b, 1) && acts[1] == AcceptIt(n, c, 2) && acts[2] == AcceptIt(m, a, 3)
      && acts[3] == CreateIt(sha, n, b) && acts[4] == CreateIt(sha, n, c) && acts[5] == CreateIt(sha, m, a)
  {
    hide AcceptIt, CreateIt, Topic;
  }

  lemma ThreeCreated(sha: Hash, t: Tables, n: string, b: string, c: string, m: string, a: string)
    requires Consistent(sha, t) && t.deliveries == map[] && |t.envelopes| == 3 && a != b && a != c && b != c
    requires t.envelopes[0].eventId == b && t.envelopes[1].eventId == c && t.envelopes[2].eventId == a
    ensures var u := Apply(sha, Apply(sha, Apply(sha, t, CreateIt(sha, n, b).op).0, CreateIt(sha, n, c).op).0, CreateIt(sha, m, a).op).0;
      && u == t.(deliveries := map[b := Row(sha, n, b), c := Row(sha, n, c), a := Row(sha, m, a)])
      && Consistent(sha, u)
  {
    hide Apply, Consistent, Find, Seal, RouteOf, Topic, CreateIt;
    CreateStores(sha, t, n, b);
    var t1 := Apply(sha, t, CreateIt(sha, n, b).op).0;
    CreateStores(sha, t1, n, c);
    var t2 := Apply(sha, t1, CreateIt(sha, n, c).op).0;
    CreateStores(sha, t2, m, a);
    ApplyKeepsConsistent(sha, t, CreateIt(sha, n, b).op);
    ApplyKeepsConsistent(sha, t1, CreateIt(sha, n, c).op);
    ApplyKeepsConsistent(sha, t2, CreateIt(sha, m, a).op);
  }

  /** The broker's answer for an event sent at its created revision is persisted, and opens the
      raw key for sequence 2. */
  lemma AnswerIsPersisted(sha: Hash, w: World, m: string, e: Envelope, v: World)
    requires Consistent(sha, w.tables) && e in w.tables.envelopes && m != "" && e.streamSequence == 1
    requires e == Stored(sha, m, e.eventId, e.journalSequence, 1, e.producerOpSeq)
    requires e.eventId in w.tables.deliveries && w.tables.deliveries[e.eventId] == Row(sha, m, e.eventId)
    requires ResolveRouting(sha, e).Routed? && w.gate == MarkInFlight(map[], e.streamKey, 1)
    requires w.phase == InFlight(Candidate(e, Row(sha, m, e.eventId)), ResolveRouting(sha, e).route)
    requires v == Step(sha, PROFILE, w, BrokerAccepts(Topic("i", m), 0, 0, 0, Healthy))
    ensures v.phase.Idle? && v.sends == w.sends && v.gate == map[e.streamKey := StreamGate(1, None, None)]
    ensures Consistent(sha, v.tables) && v.tables.envelopes == w.tables.envelopes
    ensures forall id :: id in w.tables.deliveries && id != e.eventId ==>
      id in v.tables.deliveries && v.tables.deliveries[id] == w.tables.deliveries[id]
  {
    hide Consistent, Find, Load, GetStatus, Stored, ResolveRouting, Topic, Confirm, RouteOf, Seal;
    var id := e.eventId;
    var conf := Confirmation(ResolveRouting(sha, e).route.checksum, "p", 1, Topic("i", m), 0, 0);
    ConfirmsFresh(sha, w.tables, m, e, conf);
    var r := Confirm(sha, w.tables, id, 1, conf, 0, Healthy);
    SealedIsPending(sha, m, id);
    ConfirmEffect(sha, w.tables, id, 1, conf, 0, Healthy);
    assert r.0 == Apply(sha, w.tables, OpConfirm(id, 1, conf, 0, Healthy)).0;
    ApplyKeepsConsistent(sha, w.tables, OpConfirm(id, 1, conf, 0, Healthy));
  }

  lemma ConfirmsFresh(sha: Hash, t: Tables, m: string, e: Envelope, conf: Confirmation)
    requires Consistent(sha, t) && e in t.envelopes && m != ""
    requires e == Stored(sha, m, e.eventId, e.journalSequence, e.streamSequence, e.producerOpSeq)
    requires e.eventId in t.deliveries && t.deliveries[e.eventId] == Row(sha, m, e.eventId)
    requires ResolveRouting(sha, e).Routed?
    requires conf == Confirmation(ResolveRouting(sha, e).route.checksum, "p", 1, Topic("i", m), 0, 0)
    ensures Confirm(sha, t, e.eventId, 1, conf, 0, Healthy).1 == Updated
  {
    hide Find, GetStatus, Stored, ResolveRouting, Topic, RouteOf, Render, DeliveryChecksum, WellFormedRow, Ordered, Keyed, HeadsCount,
      ProducersRise, LogsBounded, AllIntact;
    CreatedLoads(sha, t, m, e.eventId);
    StatusIsFound(sha, t, e.eventId);
    RouteIsAsCreated(sha, m, e);
  }

  lemma RouteIsAsCreated(sha: Hash, m: string, e: Envelope)
    requires e == Stored(sha, m, e.eventId, e.journalSequence, e.streamSequence, e.producerOpSeq)
    requires ResolveRouting(sha, e).Routed?
    ensures ResolveRouting(sha, e).route.checksum == RouteOf(sha, m)
  {
    hide Render, EnvelopeChecksum;
    assert RoutingText(e) == RoutingText(Stored(sha, m, "", 0, 0, 0));
  }

  lemma StartsAtTwo(sends: seq<Send>)
    requires |sends| == 2 && sends[0].stream != sends[1].stream && sends[1].sequence == 2
    ensures !Staircase(sends)
  {
    assert sends[..1][..0] == [];
    assert LastSent(sends[..1], sends[1].stream) == 0;
  }

  /** Rows of the run below are created in stream order. */
  lemma {:induction false} KeyRunCreatesInOrder(sha: Hash, n: string, b: string, c: string, m: string, a: string)
    requires Apart(n, b, c, m, a)
    ensures var acts := SharedKey(sha, n, b, c, m, a);
      && CreatedInOrder(Run(sha, PROFILE, acts[..3]).tables, b)
      && CreatedInOrder(Run(sha, PROFILE, acts[..4]).tables, c)
      && CreatedInOrder(Run(sha, PROFILE, acts[..5]).tables, a)
  {
    hide Step, Apply, Stored, Consistent, Find, Row, Run, AcceptIt, CreateIt, SharedKey, StreamOf, StreamName, EnvelopeChecksum, CreatedInOrder;
    var acts := SharedKey(sha, n, b, c, m, a);
    FirstActions(sha, n, b, c, m, a);
    var t := ThreeAccepted(sha, n, b, c, m, a);
    ThreeOthers(sha, acts, 0);
    assert acts[..0] == [] && Run(sha, PROFILE, []) == START by { RunsFromStart(sha); }
    RunStep(sha, acts, 3);
    RunStep(sha, acts, 4);
    OtherStep(sha, Run(sha, PROFILE, acts[..3]), acts[3].op);
    OtherStep(sha, Run(sha, PROFILE, acts[..4]), acts[4].op);
    StoredFields(sha, n, b, 1, 1, 1);
    StoredFields(sha, n, c, 2, 2, 2);
    StoredFields(sha, m, a, 3, 1, 3);
    StreamsDiffer(n, m);
    CreateStores(sha, t, n, b);
    var t1 := Apply(sha, t, CreateIt(sha, n, b).op).0;
    CreateStores(sha, t1, n, c);
    var t2 := Apply(sha, t1, CreateIt(sha, n, c).op).0;
    ThreeInOrder(t);
    ThreeInOrder(t1);
    ThreeInOrder(t2);
  }

  /** Among two events of one stream and one of another, only the second of the first stream waits
      for a row. */
  lemma ThreeInOrder(t: Tables)
    requires |t.envelopes| == 3
    requires var b, c, a := t.envelopes[0], t.envelopes[1], t.envelopes[2];
      && StreamOf(a) != StreamOf(b) == StreamOf(c) && a.eventId != b.eventId && a.eventId != c.eventId && b.eventId != c.eventId
      && a.streamSequence == 1 && b.streamSequence == 1 && c.streamSequence == 2
    ensures CreatedInOrder(t, t.envelopes[0].eventId) && CreatedInOrder(t, t.envelopes[2].eventId)
    ensures t.envelopes[0].eventId in t.deliveries ==> CreatedInOrder(t, t.envelopes[1].eventId)
  {
    hide StreamOf, Find, CreatedInOrder;
    InOrderAt(t, 0);
    InOrderAt(t, 1);
    InOrderAt(t, 2);
  }

  ghost predicate EarlierHaveRows(t: Tables, k: nat)
    requires k < |t.envelopes|
  {
    forall i :: 0 <= i < |t.envelopes| ==>
      var e := t.envelopes[i];
      StreamOf(e) == StreamOf(t.envelopes[k]) && e.streamSequence < t.envelopes[k].streamSequence ==> e.eventId in t.deliveries
  }

  /** Rows are in order for the only event with this id when its predecessors have rows. */
  lemma InOrderAt(t: Tables, k: nat)
    requires k < |t.envelopes| && forall i :: 0 <= i < |t.envelopes| && i != k ==> t.envelopes[i].eventId != t.envelopes[k].eventId
    ensures EarlierHaveRows(t, k) ==> CreatedInOrder(t, t.envelopes[k].eventId)
  {
    hide StreamOf, Find;
  }

  /** Without the key hypothesis the theorem fails: the delivered event of one stream opens the
      shared key, and sequence 2 is the first one sent on the other stream. */
  lemma {:induction false} KeysAreNeeded(sha: Hash, n: string, b: string, c: string, m: string, a: string)
    requires Apart(n, b, c, m, a)
    ensures !Staircase(Run(sha, PROFILE, SharedKey(sha, n, b, c, m, a)).sends)
  {
    hide Step, Stored, StreamOf, StreamName, Consistent, Load, Topic, RouteOf, Check, MarkInFlight, ResolveRouting, Seal, Run, Staircase,
      AcceptIt, CreateIt, ComposedKey, PendingRow, PendingLike;
    var acts := SharedKey(sha, n, b, c, m, a);
    var w := AllHaveRows(sha, n, b, c, m, a);
    var ea, ec := Stored(sha, m, a, 3, 1, 3), Stored(sha, n, c, 2, 2, 2);
    StoredFields(sha, m, a, 3, 1, 3);
    StoredFields(sha, n, c, 2, 2, 2);
    CreatedLoads(sha, w.tables, m, a);
    SealedIsPending(sha, m, a);
    SealedIsPending(sha, n, c);
    AllowedAtStart("k");
    var sent := AllowedIsSent(sha, w, m, ea);
    var done := Step(sha, PROFILE, sent, acts[8]);
    AnswerIsPersisted(sha, sent, m, ea, done);
    CreatedLoads(sha, done.tables, n, c);
    AllowedNext(done.gate, "k", 1);
    var v := AllowedIsSent(sha, done, n, ec);
    StreamsDiffer(n, m);
    StartsAtTwo(v.sends);
    LastFive(sha, acts);
  }

  lemma LastFive(sha: Hash, acts: seq<Action>)
    requires |acts| == 11
    ensures Run(sha, PROFILE, acts) == Step(sha, PROFILE, Step(sha, PROFILE, Step(sha, PROFILE, Step(sha, PROFILE, Step(sha, PROFILE,
      Run(sha, PROFILE, acts[..6]), acts[6]), acts[7]), acts[8]), acts[9]), acts[10])
  {
    hide Step, Run;
    RunStep(sha, acts, 6);
    RunStep(sha, acts, 7);
    RunStep(sha, acts, 8);
    RunStep(sha, acts, 9);
    RunStep(sha, acts, 10);
    assert acts[..11] == acts;
  }

  lemma AllowedAtStart(key: string)
    ensures Check(map[], key, 1) == Allowed
  {
  }

  lemma AllowedNext(g: Streams, key: string, h: int)
    requires key in g && g[key] == StreamGate(h, None, None)
    ensures Check(g, key, h + 1) == Allowed
  {
  }
}
