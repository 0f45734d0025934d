/** When every delivery row of a run verifies again: the exact condition, over runs of the journal. */
module ReloadTheorems {
  import opened Common
  import opened Records
  import opened Journal
  import opened JournalRuns
  import opened JournalTheorems

  /** Every delivery row verifies when it is read back. */
  ghost predicate AllReload(sha: Hash, t: Tables) {
    forall id :: Reloads(sha, t, id)
  }

  predicate Reloads(sha: Hash, t: Tables, id: string) {
    id in t.deliveries ==> Load(sha, t, id).Present?
  }

  predicate BlockedAt(t: Tables, id: string, revision: int) {
    id in t.deliveries && t.deliveries[id].revision == revision && t.deliveries[id].status == Blocked
  }

  /** Arguments whose success leaves a row the loader accepts: filled fields, non-negative
      coordinates, a reason, and no retry of a BLOCKED row. */
  predicate WellFormedOp(t: Tables, op: Op) {
    match op
    case OpCreate(_, _, p, v, topic, _, _) => topic != "" && p != "" && v > 0
    case OpConfirm(_, _, c, _, _) => c.partition >= 0 && c.offset >= 0 && c.topic != "" && c.profileId != "" && c.profileVersion > 0
    case OpBlock(_, _, reason, _, _) => reason != ""
    case OpRetry(id, x, _, _, _) => !BlockedAt(t, id, x)
    case _ => true
  }

  predicate Succeeds(sha: Hash, t: Tables, op: Op) {
    Apply(sha, t, op).1 == OfCas(Updated)
  }

  /** A success with other arguments. */
  predicate Spoils(sha: Hash, t: Tables, op: Op) {
    !WellFormedOp(t, op) && Succeeds(sha, t, op)
  }

  predicate SpoilsRow(sha: Hash, t: Tables, op: Op, id: string) {
    !op.OpAccept? && op.id == id && Spoils(sha, t, op)
  }

  /** The loader's verdict on a row depends on that row alone. */
  lemma LoadLocal(sha: Hash, t: Tables, u: Tables, id: string)
    requires id in t.deliveries && id in u.deliveries && t.deliveries[id] == u.deliveries[id]
    ensures Load(sha, t, id) == Load(sha, u, id)
  {
    hide DeliveryChecksum, WellFormedRow;
  }

  /** Only a row that verifies is ever written again. */
  lemma UpdateNeedsLoad(sha: Hash, t: Tables, op: Op, id: string)
    requires Updates(op, Apply(sha, t, op).1, id) && !op.OpLifecycle? && id in t.deliveries
    ensures Load(sha, t, id).Present? && !op.OpCreate?
  {
    hide Load, GetStatus, Find, SameRoute, SameConfirmation, Seal, NextLifecycle;
  }

  /** A success leaves a row that verifies exactly when its arguments are well formed. */
  lemma WrittenReloads(sha: Hash, t: Tables, op: Op, id: string)
    requires Updates(op, Apply(sha, t, op).1, id) && !op.OpLifecycle?
    ensures var u := Apply(sha, t, op).0; id in u.deliveries && (Load(sha, u, id).Present? <==> WellFormedOp(t, op))
  {
    hide Load, CreatePending, RecordAttempt, Confirm, Block, Retry, Seal;
    match op
    case OpCreate(i, f, p, v, topic, now, io) =>
      CreateEffect(sha, t, i, f, p, v, topic, now, io);
      ReloadCreate(sha, t, i, f, p, v, topic, now, io);
    case OpRecord(i, a, now, io) =>
      RecordEffect(sha, t, i, a, now, io);
      ReloadRecord(sha, t, i, a, now, io);
    case OpConfirm(i, x, c, now, io) =>
      ConfirmEffect(sha, t, i, x, c, now, io);
      ReloadConfirm(sha, t, i, x, c, now, io);
    case OpBlock(i, x, reason, now, io) =>
      BlockEffect(sha, t, i, x, reason, now, io);
      ReloadBlock(sha, t, i, x, reason, now, io);
    case OpRetry(i, x, at, now, io) =>
      RetryEffect(sha, t, i, x, at, now, io);
      ReloadRetry(sha, t, i, x, at, now, io);
  }

  lemma RowReloadsExactlyWhen(sha: Hash, t: Tables, op: Op, id: string)
    ensures Reloads(sha, Apply(sha, t, op).0, id) <==> Reloads(sha, t, id) && !SpoilsRow(sha, t, op, id)
  {
    hide Apply, Load;
    var u := Apply(sha, t, op).0;
    RowStep(sha, t, op, id);
    if Updates(op, Apply(sha, t, op).1, id) && !op.OpLifecycle? {
      WrittenReloads(sha, t, op, id);
      if id in t.deliveries {
        UpdateNeedsLoad(sha, t, op, id);
      }
    } else if id in t.deliveries {
      if op.OpLifecycle? {
        LifecycleKeepsRows(sha, t, op);
      }
      LoadLocal(sha, t, u, id);
    }
  }

  lemma ReloadStep(sha: Hash, t: Tables, op: Op)
    ensures AllReload(sha, Apply(sha, t, op).0) <==> AllReload(sha, t) && !Spoils(sha, t, op)
  {
    hide Apply, Reloads, Spoils;
    forall id ensures Reloads(sha, Apply(sha, t, op).0, id) <==> Reloads(sha, t, id) && !SpoilsRow(sha, t, op, id) {
      RowReloadsExactlyWhen(sha, t, op, id);
    }
    AcceptSpoilsNothing(sha, t, op);
    if Spoils(sha, t, op) {
      assert SpoilsRow(sha, t, op, op.id);
    }
  }

  lemma AcceptSpoilsNothing(sha: Hash, t: Tables, op: Op)
    ensures Spoils(sha, t, op) ==> !op.OpAccept?
  {
  }

  ghost predicate NeverSpoils(sha: Hash, ops: seq<Op>) {
    forall i :: 0 <= i < |ops| ==> !Spoils(sha, After(sha, ops[..i]), ops[i])
  }

  lemma SpoilsSplit(sha: Hash, ops: seq<Op>)
    requires ops != []
    ensures var n := |ops| - 1;
      NeverSpoils(sha, ops) <==> NeverSpoils(sha, ops[..n]) && !Spoils(sha, After(sha, ops[..n]), ops[n])
  {
    hide After, Spoils;
    var n := |ops| - 1;
    assert forall i :: 0 <= i < n ==> ops[..n][..i] == ops[..i];
  }

  /** After any run all rows verify exactly when no operation of it succeeded with arguments that
      are not well formed: a row that fails to verify is never written again. */
  lemma {:induction false} ReloadExactlyWhen(sha: Hash, ops: seq<Op>)
    ensures AllReload(sha, After(sha, ops)) <==> NeverSpoils(sha, ops)
  {
    hide Apply, Spoils, NeverSpoils, AllReload;
    if ops == [] {
      EmptyReloads(sha);
    } else {
      var n := |ops| - 1;
      ReloadExactlyWhen(sha, ops[..n]);
      ReloadStep(sha, After(sha, ops[..n]), ops[n]);
      SpoilsSplit(sha, ops);
    }
  }

  lemma EmptyReloads(sha: Hash)
    ensures AllReload(sha, EMPTY) && NeverSpoils(sha, [])
  {
  }
}
