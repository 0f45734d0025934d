/** What the retry budget does not promise: each stop between a recorded failure and its settling
    costs one more failed send, without bound. The runs are concrete, for any hash. */
module RetryLimits {
  import opened Common
  import opened Records
  import opened Journal
  import opened JournalRuns
  import opened JournalTheorems
  import opened ReloadTheorems
  import opened Gate
  import opened Delivery
  import opened DeliveryRuns
  import opened ServiceTheorems
  import opened RetryTheorems
  import opened OrderingLimits

  const FAILS := BrokerFails(Timeout, 0, Healthy)

  /** An event is accepted and gets its row; then `m` times it is sent, fails, has its failure
      recorded, and the process stops before the retry is persisted. */
  function StoppedRuns(sha: Hash, ns: string, b: string, m: nat): seq<Action> {
    if m == 0 then [AcceptIt(ns, b, 1), CreateIt(sha, ns, b)]
    else StoppedRuns(sha, ns, b, m - 1) + [Begin(b, Healthy)] + [SendPayload(Healthy)] + [FAILS] + [Restart]
  }

  /** An idle service with an empty gate and the event's row open to it. */
  ghost predicate ReadyToSend(sha: Hash, ns: string, b: string, w: World) {
    && w.phase.Idle? && w.gate == map[] && Consistent(sha, w.tables)
    && w.tables.envelopes == [Stored(sha, ns, b, 1, 1, 1)]
    && Load(sha, w.tables, b).Present? && PendingLike(sha, ns, w.tables.deliveries[b])
  }

  lemma RunMore(sha: Hash, actions: seq<Action>, a: Action, id: string)
    ensures Run(sha, PROFILE, actions + [a]) == Step(sha, PROFILE, Run(sha, PROFILE, actions), a)
    ensures Failures(sha, PROFILE, actions + [a], id) ==
      Failures(sha, PROFILE, actions, id) + if FailsNow(Run(sha, PROFILE, actions), a, id) then 1 else 0
    ensures Settles(sha, PROFILE, actions + [a], id) ==
      Settles(sha, PROFILE, actions, id) + if SettlesNow(sha, PROFILE, Run(sha, PROFILE, actions), a, id) then 1 else 0
  {
    hide Step, FailsNow, SettlesNow;
    assert (actions + [a])[..|actions|] == actions;
  }

  /** Only a broker failure fails, only a settle settles. */
  lemma NeitherNow(sha: Hash, w: World, a: Action, id: string)
    ensures !a.BrokerFails? ==> !FailsNow(w, a, id)
    ensures !a.Settle? ==> !SettlesNow(sha, PROFILE, w, a, id)
  {
    hide Apply;
  }

  lemma StartIsReady(sha: Hash, ns: string, b: string)
    requires ns != "" && b != ""
    ensures var acts := StoppedRuns(sha, ns, b, 0);
      && ReadyToSend(sha, ns, b, Run(sha, PROFILE, acts))
      && Failures(sha, PROFILE, acts, b) == 0 && Settles(sha, PROFILE, acts, b) == 0
  {
    hide Step, Apply, Stored, Consistent, Find, Row, Run, AcceptIt, CreateIt, Failures, Settles, PendingLike, Count, StreamName, StreamOf,
      EnvelopeChecksum, ProducerKey, Load, SettlesNow;
    RunsFromStart(sha);
    NothingYet(sha, b);
    assert [] + [AcceptIt(ns, b, 1)] == [AcceptIt(ns, b, 1)];
    assert [AcceptIt(ns, b, 1)] + [CreateIt(sha, ns, b)] == StoppedRuns(sha, ns, b, 0);
    RunMore(sha, [], AcceptIt(ns, b, 1), b);
    RunMore(sha, [AcceptIt(ns, b, 1)], CreateIt(sha, ns, b), b);
    NeitherNow(sha, START, AcceptIt(ns, b, 1), b);
    NeitherNow(sha, Run(sha, PROFILE, [AcceptIt(ns, b, 1)]), CreateIt(sha, ns, b), b);
    OtherStep(sha, START, AcceptIt(ns, b, 1).op);
    OtherStep(sha, Run(sha, PROFILE, [AcceptIt(ns, b, 1)]), CreateIt(sha, ns, b).op);
    EmptyIsConsistent(sha);
    EmptyLookups(b, StreamName(ns));
    AcceptAppends(sha, EMPTY, ns, b, 1, "");
    var t := Apply(sha, EMPTY, AcceptIt(ns, b, 1).op).0;
    StoredFields(sha, ns, b, 1, 1, 1);
    assert t.envelopes == [Stored(sha, ns, b, 1, 1, 1)];
    CountOne(sha, t.envelopes[0], "");
    CreateStores(sha, t, ns, b);
    ApplyKeepsConsistent(sha, t, CreateIt(sha, ns, b).op);
    CreatedLoads(sha, Apply(sha, t, CreateIt(sha, ns, b).op).0, ns, b);
    SealedIsPending(sha, ns, b);
  }

  lemma NothingYet(sha: Hash, b: string)
    ensures Failures(sha, PROFILE, [], b) == 0 && Settles(sha, PROFILE, [], b) == 0
  {
  }

  /** A recorded attempt leaves the row as open as it was. */
  lemma RecordKeepsOpen(sha: Hash, ns: string, t: Tables, op: Op)
    requires op.OpRecord? && op.io.Healthy? && Load(sha, t, op.id).Present? && PendingLike(sha, ns, t.deliveries[op.id])
    ensures var u := Apply(sha, t, op).0;
      && Succeeds(sha, t, op) && u.envelopes == t.envelopes
      && Load(sha, u, op.id).Present? && PendingLike(sha, ns, u.deliveries[op.id])
  {
    hide Load, RecordAttempt, Newest, RouteOf, Topic;
    HealthyRecordSucceeds(sha, t, op);
    RecordEffect(sha, t, op.id, op.attempt, op.now, op.io);
    ReloadRecord(sha, t, op.id, op.attempt, op.now, op.io);
  }

  /** One more send, failure and stop. */
  lemma OneMoreStop(sha: Hash, ns: string, b: string, w: World) returns (sent: World)
    requires ns != "" && ReadyToSend(sha, ns, b, w)
    ensures sent == Step(sha, PROFILE, Step(sha, PROFILE, w, Begin(b, Healthy)), SendPayload(Healthy))
    ensures FailsNow(sent, FAILS, b)
    ensures ReadyToSend(sha, ns, b, Step(sha, PROFILE, Step(sha, PROFILE, sent, FAILS), Restart))
  {
    hide Apply, Stored, Consistent, Load, PendingLike, Check, MarkInFlight, ResolveRouting, StreamOf, BeginStep, SendStep, FailedStep, StepOp;
    var e := Stored(sha, ns, b, 1, 1, 1);
    StoredFields(sha, ns, b, 1, 1, 1);
    AllowedAtStart("k");
    sent := AllowedIsSent(sha, w, ns, e);
    FailRecords(sha, PROFILE, sent, FAILS);
    var op := StepOp(PROFILE, sent, FAILS).value;
    FailedOp(sent);
    RecordKeepsOpen(sha, ns, sent.tables, op);
    StepTables(sha, PROFILE, sent, FAILS);
    ApplyKeepsConsistent(sha, sent.tables, op);
  }

  lemma FailedOp(w: World)
    requires w.phase.InFlight?
    ensures StepOp(PROFILE, w, FAILS).Some? && StepOp(PROFILE, w, FAILS).value.io.Healthy?
  {
    hide FailedAttempt;
  }

  lemma {:induction false} StoppedRunsFail(sha: Hash, ns: string, b: string, m: nat)
    requires ns != "" && b != ""
    ensures var acts := StoppedRuns(sha, ns, b, m);
      && ReadyToSend(sha, ns, b, Run(sha, PROFILE, acts))
      && Failures(sha, PROFILE, acts, b) == m && Settles(sha, PROFILE, acts, b) == 0
  {
    hide Step, Run, ReadyToSend, Failures, Settles, FailsNow, SettlesNow, AcceptIt, CreateIt;
    if m == 0 {
      StartIsReady(sha, ns, b);
    } else {
      var acts := StoppedRuns(sha, ns, b, m - 1);
      StoppedRunsFail(sha, ns, b, m - 1);
      var w := Run(sha, PROFILE, acts);
      var sent := OneMoreStop(sha, ns, b, w);
      RunMore(sha, acts, Begin(b, Healthy), b);
      RunMore(sha, acts + [Begin(b, Healthy)], SendPayload(Healthy), b);
      RunMore(sha, acts + [Begin(b, Healthy)] + [SendPayload(Healthy)], FAILS, b);
      RunMore(sha, acts + [Begin(b, Healthy)] + [SendPayload(Healthy)] + [FAILS], Restart, b);
      NeitherNow(sha, w, Begin(b, Healthy), b);
      NeitherNow(sha, Step(sha, PROFILE, w, Begin(b, Healthy)), SendPayload(Healthy), b);
      NeitherNow(sha, sent, FAILS, b);
      NeitherNow(sha, Step(sha, PROFILE, sent, FAILS), Restart, b);
    }
  }

  /** Failed sends have no bound without persistence: in these runs `m` of them are lost to as many
      stops, so the bound of 32 plus the losses cannot be improved to 32; `m` = 33 is the first
      input beyond it. */
  lemma {:induction false} FailuresAreUnbounded(sha: Hash, ns: string, b: string, m: nat)
    requires ns != "" && b != ""
    ensures var acts := StoppedRuns(sha, ns, b, m);
      Failures(sha, PROFILE, acts, b) == m && Settles(sha, PROFILE, acts, b) == 0 && Losses(sha, PROFILE, acts, b) == m
  {
    hide Run, ReadyToSend, Failures, Settles, Losses, StoppedRuns;
    StoppedRunsFail(sha, ns, b, m);
    FailuresAreAccounted(sha, PROFILE, StoppedRuns(sha, ns, b, m), b);
    ReadyIsIdle(sha, ns, b, Run(sha, PROFILE, StoppedRuns(sha, ns, b, m)));
  }

  lemma ReadyIsIdle(sha: Hash, ns: string, b: string, w: World)
    requires ReadyToSend(sha, ns, b, w)
    ensures w.phase.Idle?
  {
  }
}
