/** The client's view of an event's lifecycle: the newest snapshot wins. */
module Tracker {
  import opened Common

  /** `content` stands for the snapshot's other fields. */
  datatype Snapshot = Snapshot(revision: int, checksum: Checksum, content: string)

  datatype Decision = Applied | Duplicate | Stale | IntegrityConflict

  /** A conflict is thrown and leaves the tracker as it was. */
  function Next(current: Option<Snapshot>, s: Snapshot): (Option<Snapshot>, Decision) {
    if current.None? || s.revision > current.value.revision then (Some(s), Applied)
    else if s.revision < current.value.revision then (current, Stale)
    else if s.checksum == current.value.checksum then (current, Duplicate)
    else (current, IntegrityConflict)
  }

  class LifecycleSnapshotTracker {
    var current: Option<Snapshot>

    constructor ()
      ensures current == None
    {
      current := None;
    }

    method Apply(incoming: Snapshot) returns (d: Decision)
      modifies this
      ensures (current, d) == Next(old(current), incoming)
    {
      if current.None? || incoming.revision > current.value.revision {
        current := Some(incoming);
        return Applied;
      }
      if incoming.revision < current.value.revision {
        return Stale;
      }
      if incoming.checksum == current.value.checksum {
        return Duplicate;
      }
      return IntegrityConflict;
    }
  }

  /** The tracker after snapshots arrived in this order. */
  function After(arrivals: seq<Snapshot>): Option<Snapshot> {
    if arrivals == [] then None else Next(After(arrivals[..|arrivals| - 1]), arrivals[|arrivals| - 1]).0
  }

  /** The answer to the arrival at `i`. */
  function AnswerAt(arrivals: seq<Snapshot>, i: nat): Decision
    requires i < |arrivals|
  {
    Next(After(arrivals[..i]), arrivals[i]).1
  }

  /** One checksum per revision. */
  predicate Agreeing(snapshots: set<Snapshot>) {
    forall a, b :: a in snapshots && b in snapshots && a.revision == b.revision ==> a.checksum == b.checksum
  }

  function Members(arrivals: seq<Snapshot>): set<Snapshot> {
    set s <- arrivals
  }

  /** The first arrival of the highest revision. */
  ghost predicate FirstNewest(arrivals: seq<Snapshot>, i: int) {
    && 0 <= i < |arrivals|
    && (forall j :: 0 <= j < i ==> arrivals[j].revision < arrivals[i].revision)
    && (forall j :: i <= j < |arrivals| ==> arrivals[j].revision <= arrivals[i].revision)
  }

  /** The tracker holds the first arrival of the highest revision, whether the arrivals agree or
      not. */
  lemma {:induction false} HoldsFirstNewest(arrivals: seq<Snapshot>) returns (i: nat)
    requires arrivals != []
    ensures FirstNewest(arrivals, i) && After(arrivals) == Some(arrivals[i])
  {
    var n := |arrivals| - 1;
    var front := arrivals[..n];
    if n == 0 {
      assert front == [];
      i := 0;
    } else {
      i := HoldsFirstNewest(front);
      assert forall j :: 0 <= j < n ==> front[j] == arrivals[j] && front[j].revision <= front[i].revision;
      if arrivals[n].revision > front[i].revision {
        i := n;
      }
    }
  }

  lemma NewestIsHeld(arrivals: seq<Snapshot>)
    requires arrivals != []
    ensures After(arrivals).Some? && After(arrivals).value in Members(arrivals)
    ensures forall s :: s in Members(arrivals) ==> s.revision <= After(arrivals).value.revision
  {
    hide After;
    var i := HoldsFirstNewest(arrivals);
    assert arrivals[i] in arrivals;
  }

  /** Every arrival order of the same agreeing snapshots, with any repetitions, ends at the same
      revision and checksum. */
  lemma {:induction false} Converges(x: seq<Snapshot>, y: seq<Snapshot>)
    requires Members(x) == Members(y) && Agreeing(Members(x)) && x != []
    ensures After(x).Some? && After(y).Some?
    ensures After(x).value.revision == After(y).value.revision && After(x).value.checksum == After(y).value.checksum
  {
    hide After;
    assert x[0] in Members(y);
    NewestIsHeld(x);
    NewestIsHeld(y);
  }

  /** The revision never decreases along a run. */
  lemma {:induction false} RevisionNeverDecreases(arrivals: seq<Snapshot>, i: nat)
    requires i <= |arrivals|
    ensures After(arrivals[..i]).Some? ==>
      After(arrivals).Some? && After(arrivals[..i]).value.revision <= After(arrivals).value.revision
  {
    var n := |arrivals| - 1;
    if i == |arrivals| {
      assert arrivals[..i] == arrivals;
    } else {
      assert arrivals[..n][..i] == arrivals[..i];
      RevisionNeverDecreases(arrivals[..n], i);
    }
  }

  /** Some earlier arrival has a higher revision. */
  predicate Overtaken(arrivals: seq<Snapshot>, i: nat)
    requires i < |arrivals|
  {
    exists j :: 0 <= j < i && arrivals[j].revision > arrivals[i].revision
  }

  /** The first arrival of its revision, at or before `i`. */
  predicate FirstOfRevision(arrivals: seq<Snapshot>, i: nat, k: nat)
    requires k <= i < |arrivals|
  {
    && arrivals[k].revision == arrivals[i].revision
    && forall j :: 0 <= j < k ==> arrivals[j].revision != arrivals[i].revision
  }

  lemma {:induction false} FirstOfRevisionExists(arrivals: seq<Snapshot>, i: nat, from: nat) returns (k: nat)
    requires from <= i < |arrivals| && forall j :: 0 <= j < from ==> arrivals[j].revision != arrivals[i].revision
    ensures k <= i && FirstOfRevision(arrivals, i, k)
    decreases i - from
  {
    if arrivals[from].revision == arrivals[i].revision {
      k := from;
    } else {
      k := FirstOfRevisionExists(arrivals, i, from + 1);
    }
  }

  /** Every answer, from the arrivals alone: an arrival is applied exactly when it is newer than all
      before it, stale exactly when one before it is newer, and otherwise a duplicate or a conflict as
      its checksum is that of the first arrival of its revision. */
  lemma {:induction false} AnswersExactlyWhen(arrivals: seq<Snapshot>, i: nat, k: nat)
    requires k <= i < |arrivals| && FirstOfRevision(arrivals, i, k)
    ensures AnswerAt(arrivals, i) == Applied <==> forall j :: 0 <= j < i ==> arrivals[j].revision < arrivals[i].revision
    ensures AnswerAt(arrivals, i) == Stale <==> Overtaken(arrivals, i)
    ensures AnswerAt(arrivals, i) == Duplicate <==> k < i && !Overtaken(arrivals, i) && arrivals[k].checksum == arrivals[i].checksum
    ensures AnswerAt(arrivals, i) == IntegrityConflict <==> k < i && !Overtaken(arrivals, i) && arrivals[k].checksum != arrivals[i].checksum
  {
    hide After;
    var before := arrivals[..i];
    if i == 0 {
      FirstIsApplied(arrivals);
    } else {
      var n := HoldsFirstNewest(before);
      assert forall j :: 0 <= j < i ==> before[j] == arrivals[j];
      assert forall j :: 0 <= j < i ==> arrivals[j].revision <= arrivals[n].revision;
      assert arrivals[n].revision == arrivals[i].revision ==> n == k;
    }
  }

  /** No order of arrival can raise a conflict exactly when the snapshots agree. */
  lemma {:induction false} NoConflictExactlyWhen(snapshots: set<Snapshot>)
    ensures Agreeing(snapshots) <==>
      forall arrivals: seq<Snapshot>, i :: Members(arrivals) <= snapshots && 0 <= i < |arrivals| ==> AnswerAt(arrivals, i) != IntegrityConflict
  {
    hide After;
    if Agreeing(snapshots) {
      forall arrivals: seq<Snapshot>, i | Members(arrivals) <= snapshots && 0 <= i < |arrivals|
        ensures AnswerAt(arrivals, i) != IntegrityConflict
      {
        assert arrivals[i] in Members(arrivals);
        if i > 0 {
          NewestIsHeld(arrivals[..i]);
          assert Members(arrivals[..i]) <= Members(arrivals);
        } else {
          FirstIsApplied(arrivals);
        }
      }
    } else {
      var a, b :| a in snapshots && b in snapshots && a.revision == b.revision && a.checksum != b.checksum;
      PairConflicts(a, b);
      assert Members([a, b]) <= snapshots;
    }
  }

  lemma FirstIsApplied(arrivals: seq<Snapshot>)
    requires arrivals != []
    ensures AnswerAt(arrivals, 0) == Applied
  {
    assert arrivals[..0] == [];
  }

  lemma PairConflicts(a: Snapshot, b: Snapshot)
    requires a.revision == b.revision && a.checksum != b.checksum
    ensures AnswerAt([a, b], 1) == IntegrityConflict
  {
    assert [a, b][..1] == [a] && [a][..0] == [];
    assert After([a]) == Some(a);
  }
}
