/** Reachable inputs at which the journal breaks a property one might expect of it. Each is a run of a
    few operations on one event, for any hash, namespace and event id. */
module JournalLimits {
  import opened Common
  import opened Records
  import opened Journal
  import opened JournalRuns
  import opened JournalTheorems
  import opened ReloadTheorems
  import opened Delivery
  import opened RetryTheorems
  import opened OrderingLimits

  function OneRow(sha: Hash, ns: string, b: string): seq<Op> {
    [AcceptIt(ns, b, 1).op] + [CreateIt(sha, ns, b).op]
  }

  function BlockIt(b: string): Op {
    OpBlock(b, 1, "r", 0, Healthy)
  }

  function RetryIt(b: string): Op {
    OpRetry(b, 2, 0, 0, Healthy)
  }

  function Conf(sha: Hash, ns: string): Confirmation {
    Confirmation(RouteOf(sha, ns), "p", 1, Topic("i", ns), 0, 0)
  }

  function ConfirmIt(sha: Hash, ns: string, b: string, revision: int): Op {
    OpConfirm(b, revision, Conf(sha, ns), 0, Healthy)
  }

  lemma AfterMore(sha: Hash, ops: seq<Op>, op: Op)
    ensures After(sha, ops + [op]) == Apply(sha, After(sha, ops), op).0
  {
    hide Apply;
    assert (ops + [op])[..|ops|] == ops;
  }

  /** One accepted event with a PENDING row. */
  lemma OneRowTables(sha: Hash, ns: string, b: string) returns (t: Tables)
    requires ns != "" && b != ""
    ensures t == After(sha, OneRow(sha, ns, b)) && Consistent(sha, t)
    ensures Find(t.envelopes, b).Some? && b in t.deliveries && t.deliveries[b] == Row(sha, ns, b)
    ensures Load(sha, t, b).Present?
  {
    hide Apply, Stored, Consistent, Find, Row, AcceptIt, CreateIt, Count, StreamName, StreamOf, EnvelopeChecksum, ProducerKey, Load, After;
    var accept, create := AcceptIt(ns, b, 1).op, CreateIt(sha, ns, b).op;
    NoOps(sha);
    assert [] + [accept] == [accept];
    AfterMore(sha, [], accept);
    AfterMore(sha, [accept], create);
    EmptyIsConsistent(sha);
    EmptyLookups(b, StreamName(ns));
    AcceptAppends(sha, EMPTY, ns, b, 1, "");
    var first := Apply(sha, EMPTY, accept).0;
    StoredFields(sha, ns, b, 1, 1, 1);
    assert first.envelopes == [Stored(sha, ns, b, 1, 1, 1)];
    CountOne(sha, first.envelopes[0], "");
    CreateStores(sha, first, ns, b);
    ApplyKeepsConsistent(sha, first, create);
    t := Apply(sha, first, create).0;
    CreatedLoads(sha, t, ns, b);
  }

  lemma NoOps(sha: Hash)
    ensures After(sha, []) == EMPTY
  {
  }

  lemma RowFields(sha: Hash, ns: string, b: string)
    ensures Row(sha, ns, b).status == Pending && Row(sha, ns, b).revision == 1 && SameRoute(Row(sha, ns, b), Conf(sha, ns))
  {
    hide DeliveryChecksum, RouteOf, Topic;
  }

  /** The event blocked by the journal, with its routing fields in place. */
  lemma BlockedTables(sha: Hash, ns: string, b: string) returns (t: Tables)
    requires ns != "" && b != ""
    ensures t == After(sha, OneRow(sha, ns, b) + [BlockIt(b)]) && Consistent(sha, t)
    ensures Load(sha, t, b).Present? && t.deliveries[b].status == Blocked && t.deliveries[b].revision == 2
    ensures SameRoute(t.deliveries[b], Conf(sha, ns))
  {
    hide Apply, Consistent, Find, Row, Load, After, OneRow, Conf, Block, NextLifecycle, AllIntact, Keyed;
    var before := OneRowTables(sha, ns, b);
    RowFields(sha, ns, b);
    AfterMore(sha, OneRow(sha, ns, b), BlockIt(b));
    t := Apply(sha, before, BlockIt(b)).0;
    ConsistentParts(sha, before);
    HealthySettleSucceeds(sha, before, BlockIt(b));
    BlockCall(sha, before, b);
    BlockEffect(sha, before, b, 1, "r", 0, Healthy);
    ReloadBlock(sha, before, b, 1, "r", 0, Healthy);
    ApplyKeepsConsistent(sha, before, BlockIt(b));
  }

  lemma BlockCall(sha: Hash, t: Tables, b: string)
    ensures Apply(sha, t, BlockIt(b)).0 == Block(sha, t, b, 1, "r", 0, Healthy).0
    ensures Succeeds(sha, t, BlockIt(b)) ==> Block(sha, t, b, 1, "r", 0, Healthy).1 == Updated
  {
    hide Block;
  }

  lemma ConsistentParts(sha: Hash, t: Tables)
    requires Consistent(sha, t)
    ensures AllIntact(sha, t) && Keyed(t)
  {
    hide AllIntact, Keyed;
  }

  /** A run in which a BLOCKED row becomes REPLICATED. */
  lemma {:induction false} ConfirmOfBlockedHappens(sha: Hash, ns: string, b: string)
    requires ns != "" && b != ""
    ensures var t := After(sha, OneRow(sha, ns, b) + [BlockIt(b)]);
      var u := Apply(sha, t, ConfirmIt(sha, ns, b, 2));
      && u.1 == OfCas(Updated) && b in t.deliveries && b in u.0.deliveries
      && t.deliveries[b].status == Blocked && u.0.deliveries[b].status == Replicated && !Permitted(Blocked, Replicated)
  {
    hide Apply, Consistent, Load, After, OneRow, Conf, AllIntact, Keyed;
    var t := BlockedTables(sha, ns, b);
    ConsistentParts(sha, t);
    BlockedIsConfirmed(sha, t, b, Conf(sha, ns), 0);
  }

  /** A run in which a retry of a BLOCKED row succeeds and leaves a row that no longer verifies. */
  lemma {:induction false} RetryOfBlockedHappens(sha: Hash, ns: string, b: string)
    requires ns != "" && b != ""
    ensures var t := After(sha, OneRow(sha, ns, b) + [BlockIt(b)]);
      Succeeds(sha, t, RetryIt(b)) && Load(sha, Apply(sha, t, RetryIt(b)).0, b) == Damaged
  {
    hide Consistent, Load, After, OneRow, Retry;
    var t := BlockedTables(sha, ns, b);
    RetryFromBlockedDamages(sha, t, b, 0, 0);
  }

  /** The event confirmed. */
  lemma ConfirmedTables(sha: Hash, ns: string, b: string) returns (t: Tables)
    requires ns != "" && b != ""
    ensures t == After(sha, OneRow(sha, ns, b) + [ConfirmIt(sha, ns, b, 1)]) && Consistent(sha, t)
    ensures ConfirmedAt(t, b) && LifecycleReplicated(t, b)
  {
    hide Consistent, Find, Row, Load, After, OneRow, Conf, Confirm, AllIntact, Keyed, DeliveryChecksum, LifecycleChecksum;
    var before := OneRowTables(sha, ns, b);
    RowFields(sha, ns, b);
    AfterMore(sha, OneRow(sha, ns, b), ConfirmIt(sha, ns, b, 1));
    t := Apply(sha, before, ConfirmIt(sha, ns, b, 1)).0;
    ConsistentParts(sha, before);
    FreshIsConfirmed(sha, before, b, Conf(sha, ns));
    ConfirmEffect(sha, before, b, 1, Conf(sha, ns), 0, Healthy);
    ApplyKeepsConsistent(sha, before, ConfirmIt(sha, ns, b, 1));
  }

  lemma FreshIsConfirmed(sha: Hash, t: Tables, id: string, c: Confirmation)
    requires AllIntact(sha, t) && Keyed(t) && Load(sha, t, id).Present?
    requires t.deliveries[id].status == Pending && t.deliveries[id].revision == 1 && SameRoute(t.deliveries[id], c)
    ensures Confirm(sha, t, id, 1, c, 0, Healthy).1 == Updated
  {
    hide Load, GetStatus, Find, AllIntact, DeliveryChecksum, NextLifecycle;
    StatusIsFound(sha, t, id);
  }

  /** A run after which a duplicate of a REPLICATED event is told that it is BLOCKED. */
  lemma {:induction false} ReplicaIsToldBlocked(sha: Hash, ns: string, b: string)
    requires ns != "" && b != ""
    ensures var t := After(sha, OneRow(sha, ns, b) + [ConfirmIt(sha, ns, b, 1)]);
      var told := Accept(sha, t, SITE, Request(ns, b, 1), 0, Healthy).1;
      && LifecycleReplicated(t, b) && told.ExistingDuplicate? && told.event.status == Blocked
  {
    hide After, Consistent, Conf, AcceptIt, CreateIt, Answer, Accept;
    var ops := OneRow(sha, ns, b) + [ConfirmIt(sha, ns, b, 1)];
    var t := ConfirmedTables(sha, ns, b);
    FirstIsAccepted(sha, ns, b, ops);
    RetryIsIdempotent(sha, ops, 0, SITE, Request(ns, b, 1), 0, Healthy);
  }

  lemma FirstIsAccepted(sha: Hash, ns: string, b: string, ops: seq<Op>)
    requires ops != [] && ops[0] == AcceptIt(ns, b, 1).op && b != ""
    ensures ops[0].OpAccept? && ops[0].request == Request(ns, b, 1) && Answer(sha, ops, 0).accept.Accepted?
  {
    hide NewEnvelope, Insert;
    assert ops[..0] == [];
    NoOps(sha);
  }

  /** A run after which a REPLICATED row is hidden in the lifecycle table. */
  lemma {:induction false} OverwriteHappens(sha: Hash, ns: string, b: string, local: LocalStatus)
    requires ns != "" && b != ""
    ensures var t := After(sha, OneRow(sha, ns, b) + [ConfirmIt(sha, ns, b, 1)]);
      && b in t.lifecycles && RowsShown(t)
      && !RowsShown(Apply(sha, t, OpLifecycle(b, t.lifecycles[b].revision, local, 0, Healthy)).0)
  {
    hide After, Consistent, Conf, OneRow, Apply, ConfirmedAt, LifecycleBacked, AllIntact, Keyed, RowsShown;
    var ops := OneRow(sha, ns, b) + [ConfirmIt(sha, ns, b, 1)];
    var t := ConfirmedTables(sha, ns, b);
    TablesAgree(sha, ops);
    NoOverwriteYet(sha, ns, b);
    ConsistentParts(sha, t);
    BackedStep(sha, t, OpLifecycle(b, t.lifecycles[b].revision, local, 0, Healthy));
  }

  lemma NoOverwriteYet(sha: Hash, ns: string, b: string)
    ensures NeverOverwrites(sha, OneRow(sha, ns, b) + [ConfirmIt(sha, ns, b, 1)])
  {
    hide After, Request, SITE, Topic, RouteOf;
  }
}
