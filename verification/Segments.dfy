/** The segmented candidate: the same group commit over a list of database files, with a new file
    once the active one holds `rollover` records. */
module Segments {
  import opened Common
  import opened GroupCommit

  datatype SegmentInfo = SegmentInfo(recordCount: int, firstJournalSeq: int, lastJournalSeq: int)

  /** The candidate's state. The last file is the active connection. */
  datatype State = State(segments: seq<SegmentInfo>, files: seq<Db>, globalJournalSeq: int, recordsInActive: int)

  const NO_SEGMENTS := State([], [], 0, 0)

  function Roll(s: State): State {
    s.(segments := s.segments + [SegmentInfo(0, s.globalJournalSeq + 1, s.globalJournalSeq)],
       files := s.files + [NO_ROWS],
       recordsInActive := 0)
  }

  function Full(s: State, rollover: Option<nat>): bool {
    rollover.Some? && s.recordsInActive >= rollover.value
  }

  function Opened(s: State, rollover: Option<nat>): State {
    if Full(s, rollover) then Roll(s) else s
  }

  // ---------------------------------------------------------------------------------------
  // The tiling invariant
  // ---------------------------------------------------------------------------------------

  /** Segment `k` describes its file, whose rows continue the journal after `firstJournalSeq - 1`. */
  ghost predicate SegmentFits(sha: Hash, s: State, k: nat)
    requires k < |s.segments| == |s.files|
  {
    var g := s.segments[k];
    && g.recordCount == |s.files[k].rows| == g.lastJournalSeq - g.firstJournalSeq + 1
    && g.firstJournalSeq == (if k == 0 then 1 else s.segments[k - 1].lastJournalSeq + 1)
    && Dense(sha, s.files[k], g.firstJournalSeq - 1)
  }

  /** Segment ranges tile 1..globalJournalSeq, and every segment but the last is exactly full. */
  ghost predicate Tiled(sha: Hash, s: State, rollover: Option<nat>) {
    && |s.segments| == |s.files| > 0
    && (forall k :: 0 <= k < |s.segments| ==> SegmentFits(sha, s, k))
    && s.segments[|s.segments| - 1].lastJournalSeq == s.globalJournalSeq
    && s.segments[|s.segments| - 1].recordCount == s.recordsInActive
    && (rollover.Some? ==> s.recordsInActive <= rollover.value)
    && (forall k :: 0 <= k < |s.segments| - 1 ==> rollover == Some(s.segments[k].recordCount))
  }

  lemma EmptyFile(sha: Hash, base: int)
    ensures Dense(sha, NO_ROWS, base)
  {
  }

  lemma RollKeepsTiling(sha: Hash, s: State, rollover: Option<nat>)
    requires Tiled(sha, s, rollover) && Full(s, rollover)
    ensures Tiled(sha, Roll(s), rollover) && Roll(s).recordsInActive == 0
  {
    hide Dense;
    var r, n := Roll(s), |s.segments|;
    EmptyFile(sha, s.globalJournalSeq);
    forall k | 0 <= k < n + 1 ensures SegmentFits(sha, r, k) {
      if k < n {
        assert SegmentFits(sha, s, k);
      }
    }
  }

  lemma FirstSegment(sha: Hash, rollover: Option<nat>)
    ensures Tiled(sha, Roll(NO_SEGMENTS), rollover)
  {
    hide Dense;
    EmptyFile(sha, 0);
  }

  // ---------------------------------------------------------------------------------------
  // One iteration
  // ---------------------------------------------------------------------------------------

  function Min(a: nat, b: nat): nat {
    if a <= b then a else b
  }

  /** How many of the next events may go to the active segment. */
  function Room(s: State, rollover: Option<nat>, n: nat): (r: nat)
    requires rollover.Some? ==> s.recordsInActive <= rollover.value
    ensures r <= n
  {
    if rollover.Some? then Min(rollover.value - s.recordsInActive, n) else n
  }

  /** The state after a transaction on the active file. */
  function Committed(s: State, db: Db, n: nat): State
    requires |s.segments| == |s.files| > 0
  {
    var last := |s.segments| - 1;
    var g := s.segments[last];
    State(s.segments[last := SegmentInfo(g.recordCount + n, g.firstJournalSeq, s.globalJournalSeq + n)],
          s.files[last := db], s.globalJournalSeq + n, s.recordsInActive + n)
  }

  /** The batch the next iteration takes from the remaining events. */
  function NextSize(sha: Hash, l: Limits, rollover: Option<nat>, s: State, events: seq<Event>): (k: nat)
    requires rollover.Some? ==> Opened(s, rollover).recordsInActive <= rollover.value
    ensures k <= Room(Opened(s, rollover), rollover, |events|)
  {
    BatchSize(events[..Room(Opened(s, rollover), rollover, |events|)], l)
  }

  function Iterate(sha: Hash, rollover: Option<nat>, s: State, batch: seq<Event>, faults: seq<bool>, now: int): (State, seq<Outcome>, Tally)
    requires |s.segments| == |s.files| > 0 && |faults| == |batch|
  {
    var o := Opened(s, rollover);
    var r := Transact(sha, o.files[|o.files| - 1], o.globalJournalSeq, batch, faults, now);
    (if r.2.committed == 1 then Committed(o, r.0, |batch|) else o, r.1, r.2)
  }

  lemma CommitKeepsTiling(sha: Hash, s: State, rollover: Option<nat>, db: Db, n: nat)
    requires Tiled(sha, s, rollover) && |db.rows| == |s.files[|s.files| - 1].rows| + n
    requires Dense(sha, db, s.segments[|s.segments| - 1].firstJournalSeq - 1)
    requires rollover.Some? ==> n <= rollover.value - s.recordsInActive
    ensures Tiled(sha, Committed(s, db, n), rollover)
  {
    hide Dense;
    var c, last := Committed(s, db, n), |s.segments| - 1;
    forall k | 0 <= k < |c.segments| ensures SegmentFits(sha, c, k) {
      assert SegmentFits(sha, s, k);
    }
  }

  /** Every iteration keeps the tiling, whatever the limit. */
  lemma {:induction false} IterateKeepsTiling(sha: Hash, rollover: Option<nat>, s: State, batch: seq<Event>, faults: seq<bool>, now: int)
    requires Tiled(sha, s, rollover) && |faults| == |batch|
    requires rollover.Some? ==> |batch| <= rollover.value - Opened(s, rollover).recordsInActive
    ensures var r := Iterate(sha, rollover, s, batch, faults, now);
      Tiled(sha, r.0, rollover) && r.0.globalJournalSeq == s.globalJournalSeq + r.2.writtenRecords
  {
    hide Dense, Transact, Stored;
    if Full(s, rollover) {
      RollKeepsTiling(sha, s, rollover);
    }
    var o := Opened(s, rollover);
    var last := |o.files| - 1;
    var base := o.segments[last].firstJournalSeq - 1;
    assert SegmentFits(sha, o, last);
    var r := Transact(sha, o.files[last], o.globalJournalSeq, batch, faults, now);
    TransactStores(sha, o.files[last], base, batch, faults, now);
    TransactTally(sha, o.files[last], o.globalJournalSeq, batch, faults, now);
    if r.2.committed == 1 {
      CommitLength(sha, o.files[last], o.globalJournalSeq, batch, faults, now);
      CommitKeepsTiling(sha, o, rollover, r.0, |batch|);
    }
  }

  lemma CommitLength(sha: Hash, db: Db, base: int, batch: seq<Event>, faults: seq<bool>, now: int)
    requires |faults| == |batch| && Transact(sha, db, base, batch, faults, now).2.committed == 1
    ensures |Transact(sha, db, base, batch, faults, now).0.rows| == |db.rows| + |batch|
  {
    hide WriteAll;
    WriteAllExtends(sha, db, base, batch, faults, now);
  }

  /** An iteration takes at least one event exactly when the rollover limit is not 0. */
  lemma {:induction false} Progress(sha: Hash, l: Limits, rollover: Option<nat>, s: State, events: seq<Event>)
    requires Tiled(sha, s, rollover) && events != []
    ensures rollover.Some? ==> Opened(s, rollover).recordsInActive <= rollover.value
    ensures NextSize(sha, l, rollover, s, events) > 0 <==> rollover != Some(0)
  {
    hide Dense, Legal;
    assert SegmentFits(sha, s, |s.segments| - 1);
  }

  // ---------------------------------------------------------------------------------------
  // The journal as a whole
  // ---------------------------------------------------------------------------------------

  function AllRows(files: seq<Db>): seq<Row> {
    if files == [] then [] else AllRows(files[..|files| - 1]) + files[|files| - 1].rows
  }

  lemma {:induction false} RowsOfFirst(sha: Hash, s: State, rollover: Option<nat>, k: nat)
    requires Tiled(sha, s, rollover) && k <= |s.files|
    ensures |AllRows(s.files[..k])| == if k == 0 then 0 else s.segments[k - 1].lastJournalSeq
    ensures forall i :: 0 <= i < |AllRows(s.files[..k])| ==> AllRows(s.files[..k])[i].journalSequence == i + 1
  {
    hide RowChecksum, LifecycleText, StreamCount, EventIds, UniqueIds;
    if k > 0 {
      RowsOfFirst(sha, s, rollover, k - 1);
      assert s.files[..k][..k - 1] == s.files[..k - 1];
      assert SegmentFits(sha, s, k - 1);
      var front, file := AllRows(s.files[..k - 1]), s.files[k - 1];
      forall i | 0 <= i < |file.rows| ensures file.rows[i].journalSequence == |front| + i + 1 {
        assert RowIntact(sha, file, |front|, i);
      }
    }
  }

  /** Read in order, the segments hold the journal sequences 1..globalJournalSeq. */
  lemma {:induction false} TilingMeans(sha: Hash, s: State, rollover: Option<nat>)
    requires Tiled(sha, s, rollover)
    ensures |AllRows(s.files)| == s.globalJournalSeq
    ensures forall i :: 0 <= i < |AllRows(s.files)| ==> AllRows(s.files)[i].journalSequence == i + 1
  {
    hide Dense;
    RowsOfFirst(sha, s, rollover, |s.files|);
    assert s.files[..|s.files|] == s.files;
  }

  /** All files read as one table. */
  function Whole(files: seq<Db>): Db {
    NO_ROWS.(rows := AllRows(files))
  }

  lemma StoredBehind(front: seq<Row>, a: Db, b: Db, events: seq<Event>, outcomes: seq<Outcome>, base: int)
    requires Stored(a, b, events, outcomes, base)
    ensures Stored(NO_ROWS.(rows := front + a.rows), NO_ROWS.(rows := front + b.rows), events, outcomes, base)
  {
    hide Kept, WrittenOnly;
    assert (front + b.rows)[|front + a.rows|..] == b.rows[|a.rows|..];
    assert forall i :: |front| + |a.rows| <= i < |front| + |b.rows| ==> (front + b.rows)[i] == b.rows[i - |front|];
  }

  lemma IterateStores(sha: Hash, rollover: Option<nat>, s: State, batch: seq<Event>, faults: seq<bool>, now: int)
    requires Tiled(sha, s, rollover) && |faults| == |batch|
    ensures var r := Iterate(sha, rollover, s, batch, faults, now);
      Stored(Whole(s.files), Whole(r.0.files), batch, r.1, s.globalJournalSeq)
  {
    hide Dense, Transact, Stored;
    if Full(s, rollover) {
      RollKeepsTiling(sha, s, rollover);
      assert Roll(s).files[..|s.files|] == s.files;
      assert AllRows(Roll(s).files) == AllRows(s.files);
    }
    var o := Opened(s, rollover);
    var last := |o.files| - 1;
    assert SegmentFits(sha, o, last);
    var file := o.files[last];
    var r := Transact(sha, file, o.globalJournalSeq, batch, faults, now);
    TransactStores(sha, file, o.segments[last].firstJournalSeq - 1, batch, faults, now);
    TransactKeepsFailed(sha, file, o.globalJournalSeq, batch, faults, now);
    StoredBehind(AllRows(o.files[..last]), file, r.0, batch, r.1, o.globalJournalSeq);
    assert o.files[last := r.0][..last] == o.files[..last];
    assert o.files[last := file] == o.files;
  }

  lemma TransactKeepsFailed(sha: Hash, db: Db, base: int, batch: seq<Event>, faults: seq<bool>, now: int)
    requires |faults| == |batch|
    ensures var r := Transact(sha, db, base, batch, faults, now); r.2.committed != 1 ==> r.0 == db
  {
    hide WriteAll;
  }

  // ---------------------------------------------------------------------------------------
  // Whole lists
  // ---------------------------------------------------------------------------------------

  /** What `write_batch` does; with a limit of at least 1 every iteration takes an event. */
  function WriteSegments(sha: Hash, l: Limits, rollover: Option<nat>, s: State, events: seq<Event>, faults: seq<bool>, now: int)
    : (r: (State, seq<Outcome>, Tally))
    requires Tiled(sha, s, rollover) && rollover != Some(0) && |faults| == |events|
    ensures Tiled(sha, r.0, rollover)
    decreases |events|
  {
    if events == [] then (s, [], NO_TALLY)
    else
      Progress(sha, l, rollover, s, events);
      var k := NextSize(sha, l, rollover, s, events);
      IterateKeepsTiling(sha, rollover, s, events[..k], faults[..k], now);
      var first := Iterate(sha, rollover, s, events[..k], faults[..k], now);
      var rest := WriteSegments(sha, l, rollover, first.0, events[k..], faults[k..], now);
      (rest.0, first.1 + rest.1, MergeTally(first.2, rest.2))
  }

  /** Every event is accounted for, the rows of all segments grow by exactly the events with a
      receipt, and the global sequence by as many. */
  lemma {:induction false} SegmentsAccount(sha: Hash, l: Limits, rollover: Option<nat>, s: State, events: seq<Event>, faults: seq<bool>, now: int)
    requires Tiled(sha, s, rollover) && rollover != Some(0) && |faults| == |events|
    ensures var r := WriteSegments(sha, l, rollover, s, events, faults, now);
      && Accounts(events, r.1, r.2)
      && Stored(Whole(s.files), Whole(r.0.files), events, r.1, s.globalJournalSeq)
      && r.0.globalJournalSeq == s.globalJournalSeq + r.2.writtenRecords
    decreases |events|
  {
    hide SegmentFits, Accounts, Stored, Iterate, NextSize;
    TilingMeans(sha, s, rollover);
    if events == [] {
      EmptyAccounts();
      NothingStored(Whole(s.files));
    } else {
      Progress(sha, l, rollover, s, events);
      var k := NextSize(sha, l, rollover, s, events);
      IterateKeepsTiling(sha, rollover, s, events[..k], faults[..k], now);
      IterateStores(sha, rollover, s, events[..k], faults[..k], now);
      IterateAccounts(sha, rollover, s, events[..k], faults[..k], now);
      var first := Iterate(sha, rollover, s, events[..k], faults[..k], now);
      var rest := WriteSegments(sha, l, rollover, first.0, events[k..], faults[k..], now);
      SegmentsAccount(sha, l, rollover, first.0, events[k..], faults[k..], now);
      TilingMeans(sha, first.0, rollover);
      MergeAccounts(events[..k], first.1, first.2, events[k..], rest.1, rest.2);
      StoredAdds(Whole(s.files), Whole(first.0.files), Whole(rest.0.files), events[..k], first.1, events[k..], rest.1, s.globalJournalSeq);
      assert events == events[..k] + events[k..];
    }
  }

  lemma IterateAccounts(sha: Hash, rollover: Option<nat>, s: State, batch: seq<Event>, faults: seq<bool>, now: int)
    requires Tiled(sha, s, rollover) && |faults| == |batch| && batch != []
    ensures var r := Iterate(sha, rollover, s, batch, faults, now); Accounts(batch, r.1, r.2)
  {
    hide Transact, Accounts;
    var o := Opened(s, rollover);
    TransactAccounts(sha, o.files[|o.files| - 1], o.globalJournalSeq, batch, faults, now);
  }

  // ---------------------------------------------------------------------------------------
  // Which events are written
  // ---------------------------------------------------------------------------------------

  /** What decides the fate of a batch: the ids and the number of records of the active segment. */
  datatype Active = Active(ids: set<string>, records: nat)

  function Refreshed(a: Active, rollover: Option<nat>): (r: Active)
    ensures rollover.Some? && rollover.value > 0 && a.records <= rollover.value ==> r.records < rollover.value
  {
    if rollover.Some? && a.records >= rollover.value then Active({}, 0) else a
  }

  /** The largest legal batch that fits the segment. */
  function Fitting(l: Limits, rollover: Option<nat>, b: Active, events: seq<Event>): (k: nat)
    requires rollover.Some? ==> b.records < rollover.value
    ensures k <= |events| && (events != [] ==> k > 0) && (rollover.Some? ==> b.records + k <= rollover.value)
  {
    BatchSize(events[..if rollover.Some? then Min(rollover.value - b.records, |events|) else |events|], l)
  }

  function Grown(b: Active, batch: seq<Event>, written: bool): Active {
    if written then Active(b.ids + IdsOf(batch), b.records + |batch|) else b
  }

  /** The fate of every event, from ids and counts alone: a full segment is left behind, the next batch
      is the largest legal one that fits, and it is written exactly when it is welcome to the segment. */
  function SegmentFates(l: Limits, rollover: Option<nat>, a: Active, events: seq<Event>, faults: seq<bool>): (r: seq<bool>)
    requires |faults| == |events| && rollover != Some(0) && (rollover.Some? ==> a.records <= rollover.value)
    ensures |r| == |events|
    decreases |events|
  {
    if events == [] then []
    else
      var b := Refreshed(a, rollover);
      var k := Fitting(l, rollover, b, events);
      var written := Welcome(b.ids, events[..k], faults[..k]);
      seq(k, _ => written) + SegmentFates(l, rollover, Grown(b, events[..k], written), events[k..], faults[k..])
  }

  function ActiveOf(s: State): Active
    requires s.files != [] && s.recordsInActive >= 0
  {
    Active(EventIds(s.files[|s.files| - 1].rows), s.recordsInActive)
  }

  lemma TiledIsActive(sha: Hash, s: State, rollover: Option<nat>)
    requires Tiled(sha, s, rollover)
    ensures s.files != [] && s.recordsInActive >= 0 && (rollover.Some? ==> s.recordsInActive <= rollover.value)
    ensures ActiveOf(Opened(s, rollover)) == Refreshed(ActiveOf(s), rollover)
  {
    hide Dense;
    assert SegmentFits(sha, s, |s.segments| - 1);
  }

  lemma IterateWritesExactlyWhen(sha: Hash, rollover: Option<nat>, s: State, batch: seq<Event>, faults: seq<bool>, now: int)
    requires Tiled(sha, s, rollover) && |faults| == |batch| && s.recordsInActive >= 0
    ensures var b := Refreshed(ActiveOf(s), rollover);
      var r := Iterate(sha, rollover, s, batch, faults, now);
      var written := Welcome(b.ids, batch, faults);
      && |r.1| == |batch| && (forall i :: 0 <= i < |batch| ==> r.1[i].Written? == written)
      && r.0.files != [] && r.0.recordsInActive >= 0
      && ActiveOf(r.0) == if written then Active(b.ids + IdsOf(batch), b.records + |batch|) else b
  {
    hide Dense, Transact, Welcome, EventIds, SegmentFits;
    OpenedIsTiled(sha, s, rollover);
    TiledIsActive(sha, s, rollover);
    var o := Opened(s, rollover);
    var last := |o.files| - 1;
    SegmentBase(sha, o, rollover);
    TransactWritesExactlyWhen(sha, o.files[last], o.segments[last].firstJournalSeq - 1, batch, faults, now);
  }

  lemma SegmentBase(sha: Hash, s: State, rollover: Option<nat>)
    requires Tiled(sha, s, rollover)
    ensures var last := |s.files| - 1;
      && Dense(sha, s.files[last], s.segments[last].firstJournalSeq - 1)
      && s.globalJournalSeq == s.segments[last].firstJournalSeq - 1 + |s.files[last].rows|
  {
    hide Dense;
    assert SegmentFits(sha, s, |s.files| - 1);
  }

  lemma SameFit(sha: Hash, l: Limits, rollover: Option<nat>, s: State, events: seq<Event>)
    requires Tiled(sha, s, rollover) && rollover != Some(0)
    ensures s.files != [] && s.recordsInActive >= 0 && (rollover.Some? ==> s.recordsInActive <= rollover.value)
    ensures rollover.Some? ==> Opened(s, rollover).recordsInActive <= rollover.value
    ensures NextSize(sha, l, rollover, s, events) == Fitting(l, rollover, Refreshed(ActiveOf(s), rollover), events)
  {
    hide SegmentFits, EventIds, BatchSize;
    TiledIsActive(sha, s, rollover);
  }

  /** Every event gets a receipt exactly as the ids and the number of records of its segment decide. */
  lemma {:induction false} SegmentsWriteExactlyWhen(sha: Hash, l: Limits, rollover: Option<nat>, s: State, events: seq<Event>, faults: seq<bool>, now: int)
    requires Tiled(sha, s, rollover) && rollover != Some(0) && |faults| == |events|
    ensures s.files != [] && s.recordsInActive >= 0 && (rollover.Some? ==> s.recordsInActive <= rollover.value)
    ensures var r := WriteSegments(sha, l, rollover, s, events, faults, now);
      var fates := SegmentFates(l, rollover, ActiveOf(s), events, faults);
      |r.1| == |events| && forall i :: 0 <= i < |events| ==> r.1[i].Written? == fates[i]
    decreases |events|
  {
    hide SegmentFits, Iterate, Welcome, EventIds, Opened, NextSize, Fitting, Refreshed, MergeTally, IdsOf;
    SameFit(sha, l, rollover, s, events);
    if events != [] {
      Progress(sha, l, rollover, s, events);
      var k := NextSize(sha, l, rollover, s, events);
      IterateKeepsTiling(sha, rollover, s, events[..k], faults[..k], now);
      IterateWritesExactlyWhen(sha, rollover, s, events[..k], faults[..k], now);
      var first := Iterate(sha, rollover, s, events[..k], faults[..k], now);
      SegmentsWriteExactlyWhen(sha, l, rollover, first.0, events[k..], faults[k..], now);
    }
  }

  lemma RefreshedIds(a: Active, rollover: Option<nat>)
    ensures Refreshed(a, rollover).ids <= a.ids
  {
  }

  lemma FewerIds(ids: set<string>, more: set<string>, events: seq<Event>, faults: seq<bool>)
    requires Welcome(more, events, faults) && ids <= more
    ensures Welcome(ids, events, faults)
  {
  }

  /** With distinct ids new to the active segment and no faults every event is written. */
  lemma {:induction false} WelcomeSegmentFates(l: Limits, rollover: Option<nat>, a: Active, events: seq<Event>, faults: seq<bool>)
    requires |faults| == |events| && rollover != Some(0) && (rollover.Some? ==> a.records <= rollover.value)
    requires Welcome(a.ids, events, faults)
    ensures forall i :: 0 <= i < |events| ==> SegmentFates(l, rollover, a, events, faults)[i]
    decreases |events|
  {
    hide Fitting, Refreshed, Welcome, IdsOf;
    if events != [] {
      var b := Refreshed(a, rollover);
      var k := Fitting(l, rollover, b, events);
      RefreshedIds(a, rollover);
      FewerIds(b.ids, a.ids, events, faults);
      WelcomeSplits(b.ids, events, faults, k);
      WelcomeSegmentFates(l, rollover, Grown(b, events[..k], true), events[k..], faults[k..]);
    }
  }

  lemma {:induction false} FreshSegmentsAreWritten(sha: Hash, l: Limits, rollover: Option<nat>, s: State, events: seq<Event>, faults: seq<bool>, now: int)
    requires Tiled(sha, s, rollover) && rollover != Some(0) && |faults| == |events|
    requires Welcome(EventIds(s.files[|s.files| - 1].rows), events, faults)
    ensures var r := WriteSegments(sha, l, rollover, s, events, faults, now);
      |r.1| == |events| && forall i :: 0 <= i < |events| ==> r.1[i].Written?
  {
    hide SegmentFits, WriteSegments, Welcome, EventIds, SegmentFates;
    SegmentsWriteExactlyWhen(sha, l, rollover, s, events, faults, now);
    WelcomeSegmentFates(l, rollover, ActiveOf(s), events, faults);
  }

  // ---------------------------------------------------------------------------------------
  // A rollover limit of 0
  // ---------------------------------------------------------------------------------------

  /** The state after `m` iterations that take no event. */
  function Spin(sha: Hash, s: State, now: int, m: nat): (r: State)
    requires Tiled(sha, s, Some(0))
    ensures Tiled(sha, r, Some(0))
  {
    if m == 0 then s
    else
      var before := Spin(sha, s, now, m - 1);
      assert Full(before, Some(0)) by { assert SegmentFits(sha, before, |before.segments| - 1); }
      RollKeepsTiling(sha, before, Some(0));
      IterateKeepsTiling(sha, Some(0), before, [], [], now);
      Iterate(sha, Some(0), before, [], [], now).0
  }

  /** With a limit of 0 no iteration ever takes an event; each only opens one more segment. */
  lemma {:induction false} ZeroLimitSpins(sha: Hash, l: Limits, s: State, events: seq<Event>, now: int, m: nat)
    requires Tiled(sha, s, Some(0)) && events != []
    ensures var r := Spin(sha, s, now, m);
      && Opened(r, Some(0)).recordsInActive <= 0
      && NextSize(sha, l, Some(0), r, events) == 0
      && |r.segments| == |s.segments| + m && r.globalJournalSeq == s.globalJournalSeq
  {
    hide Dense, Transact;
    var r := Spin(sha, s, now, m);
    Progress(sha, l, Some(0), r, events);
    if m > 0 {
      ZeroLimitSpins(sha, l, s, events, now, m - 1);
      var before := Spin(sha, s, now, m - 1);
      assert SegmentFits(sha, before, |before.segments| - 1);
      assert Full(before, Some(0));
    }
  }

  // ---------------------------------------------------------------------------------------
  // What restarts with a segment
  // ---------------------------------------------------------------------------------------

  /** The stream has rows in two segments. */
  ghost predicate Crosses(files: seq<Db>, stream: string) {
    exists j, k :: 0 <= j < k < |files| && StreamCount(files[j].rows, stream) > 0 && StreamCount(files[k].rows, stream) > 0
  }

  /** The file holds this stream sequence. */
  ghost predicate HoldsAt(db: Db, stream: string, n: int) {
    exists i :: 0 <= i < |db.rows| && db.rows[i].event.logicalStream == stream && db.rows[i].streamSequence == n
  }

  ghost predicate Repeats(files: seq<Db>, stream: string) {
    exists j, k, n :: 0 <= j < k < |files| && HoldsAt(files[j], stream, n) && HoldsAt(files[k], stream, n)
  }

  lemma {:induction false} FirstOfStream(rows: seq<Row>, stream: string) returns (i: nat)
    requires StreamCount(rows, stream) > 0
    ensures i < |rows| && rows[i].event.logicalStream == stream && StreamCount(rows[..i], stream) == 0
  {
    var n := |rows| - 1;
    if StreamCount(rows[..n], stream) > 0 {
      i := FirstOfStream(rows[..n], stream);
      assert rows[..n][..i] == rows[..i];
    } else {
      i := n;
    }
  }

  lemma {:induction false} StreamIsPresent(rows: seq<Row>, stream: string, i: nat)
    requires i < |rows| && rows[i].event.logicalStream == stream
    ensures StreamCount(rows, stream) > 0
  {
    if i < |rows| - 1 {
      StreamIsPresent(rows[..|rows| - 1], stream, i);
    }
  }

  lemma StartsAtOne(sha: Hash, db: Db, base: int, stream: string)
    requires Dense(sha, db, base)
    ensures StreamCount(db.rows, stream) > 0 <==> HoldsAt(db, stream, 1)
    ensures forall n :: HoldsAt(db, stream, n) ==> StreamCount(db.rows, stream) > 0
  {
    hide RowChecksum, LifecycleText, StreamCount, EventIds, UniqueIds;
    if StreamCount(db.rows, stream) > 0 {
      var i := FirstOfStream(db.rows, stream);
      assert RowIntact(sha, db, base, i);
    }
    forall i | 0 <= i < |db.rows| && db.rows[i].event.logicalStream == stream ensures StreamCount(db.rows, stream) > 0 {
      StreamIsPresent(db.rows, stream, i);
    }
  }

  /** A stream sequence repeats across segments exactly when its stream crosses a rollover. */
  lemma {:induction false} SequencesRepeatExactlyWhen(sha: Hash, s: State, rollover: Option<nat>, stream: string)
    requires Tiled(sha, s, rollover)
    ensures Repeats(s.files, stream) <==> Crosses(s.files, stream)
  {
    hide Dense, StreamCount, HoldsAt;
    forall k | 0 <= k < |s.files|
      ensures StreamCount(s.files[k].rows, stream) > 0 <==> HoldsAt(s.files[k], stream, 1)
      ensures forall n :: HoldsAt(s.files[k], stream, n) ==> StreamCount(s.files[k].rows, stream) > 0
    {
      assert SegmentFits(sha, s, k);
      StartsAtOne(sha, s.files[k], s.segments[k].firstJournalSeq - 1, stream);
    }
    if Crosses(s.files, stream) {
      var j, k :| 0 <= j < k < |s.files| && StreamCount(s.files[j].rows, stream) > 0 && StreamCount(s.files[k].rows, stream) > 0;
      assert HoldsAt(s.files[j], stream, 1) && HoldsAt(s.files[k], stream, 1);
    }
  }

  /** Uniqueness of event ids ends at a segment too: after a rollover any id is written again. */
  lemma {:induction false} RolloverForgetsIds(sha: Hash, s: State, rollover: Option<nat>, e: Event, now: int)
    requires Tiled(sha, s, rollover) && Full(s, rollover)
    ensures var r := Iterate(sha, rollover, s, [e], [false], now); |r.1| == 1 && r.1[0].Written?
  {
    hide WriteAll, RowIntact, SegmentFits;
    EmptyFile(sha, s.globalJournalSeq);
    assert Fresh(NO_ROWS, [e]);
    CommitsExactlyWhen(sha, NO_ROWS, s.globalJournalSeq, [e], [false], now);
    WriteAllExtends(sha, NO_ROWS, s.globalJournalSeq, [e], [false], now);
  }

  // ---------------------------------------------------------------------------------------
  // The candidate
  // ---------------------------------------------------------------------------------------

  class SegmentedCandidate {
    const limits: Limits
    const rollover: Option<nat>
    var segments: seq<SegmentInfo>
    var files: seq<Db>
    var globalJournalSeq: int
    var recordsInActive: int

    ghost function View(): State
      reads this
    {
      State(segments, files, globalJournalSeq, recordsInActive)
    }

    constructor (sha: Hash, limits: Limits, rollover: Option<nat>)
      ensures this.limits == limits && this.rollover == rollover && View() == Roll(NO_SEGMENTS) && Tiled(sha, View(), rollover)
    {
      this.limits, this.rollover := limits, rollover;
      segments, files, globalJournalSeq, recordsInActive := [], [], 0, 0;
      new;
      RollSegment();
      FirstSegment(sha, rollover);
    }

    method RollSegment()
      modifies this
      ensures View() == Roll(old(View()))
    {
      files := files + [NO_ROWS];
      recordsInActive := 0;
      segments := segments + [SegmentInfo(0, globalJournalSeq + 1, globalJournalSeq)];
    }

    method NeedsRollover() returns (r: bool)
      ensures r == Full(View(), rollover)
    {
      if rollover.Some? {
        r := recordsInActive >= rollover.value;
      } else {
        r := false;
      }
    }

    /** One transaction on the active file. */
    method WriteTransaction(sha: Hash, batch: seq<Event>, faults: seq<bool>, now: int) returns (results: seq<Outcome>, batchOk: bool)
      requires Tiled(sha, View(), rollover) && |faults| == |batch|
      modifies this
      ensures var file := old(files)[|old(files)| - 1];
        var r := Transact(sha, file, old(globalJournalSeq), batch, faults, now);
        && results == r.1 && batchOk == (r.2.committed == 1)
        && View() == if batchOk then Committed(old(View()), r.0, |batch|) else old(View())
    {
      hide Dense, Receipts, WriteEvent, Extends, Lost, SegmentFits;
      batchOk := true;
      var active := |files| - 1;
      var file := files[active];
      var tx, localSeq, i := file, globalJournalSeq, 0;
      results := [];
      NoReceipts(file);
      while i < |batch| && batchOk
        invariant 0 <= i <= |batch| && View() == old(View())
        invariant batchOk ==> localSeq == globalJournalSeq + i
        invariant batchOk ==> WriteAll(sha, file, globalJournalSeq, batch[..i], faults[..i], now) == Some(tx)
        invariant batchOk ==> |file.rows| <= |tx.rows| && results == Receipts(tx.rows[|file.rows|..]) && |results| == i
        invariant !batchOk ==> WriteAll(sha, file, globalJournalSeq, batch[..i], faults[..i], now).None?
      {
        assert batch[..i + 1][..i] == batch[..i] && faults[..i + 1][..i] == faults[..i];
        localSeq := localSeq + 1;
        var next := WriteEvent(sha, tx, localSeq, batch[i], now, faults[i]);
        if next.Some? {
          ReceiptsGrow(sha, tx, next.value, |file.rows|, localSeq, batch[i], now, faults[i]);
          var row := next.value.rows[|tx.rows|];
          results := results + [Written(row.journalSequence, row.streamSequence, row.checksum)];
          tx := next.value;
        } else {
          batchOk := false;
        }
        i := i + 1;
      }
      if batchOk {
        assert batch[..i] == batch && faults[..i] == faults;
        var n := |results|;
        files := files[active := tx];
        globalJournalSeq := localSeq;
        recordsInActive := recordsInActive + n;
        segments := segments[active := SegmentInfo(segments[active].recordCount + n, segments[active].firstJournalSeq, globalJournalSeq)];
      } else {
        FailureSticks(sha, file, globalJournalSeq, batch, faults, now, i);
        results := Discard(batch);
      }
    }

    /** Room left in the active segment; the subtraction never underflows. */
    method RemainingInSegment(sha: Hash, left: nat) returns (n: nat)
      requires Tiled(sha, View(), rollover)
      ensures Min(n, left) == Room(View(), rollover, left)
    {
      hide Dense;
      if rollover.Some? {
        n := rollover.value - recordsInActive;
      } else {
        n := left;
      }
    }

    /** Terminates because a limit of at least 1 leaves room for an event in every iteration. */
    method WriteBatch(sha: Hash, events: seq<Event>, faults: seq<bool>, now: int) returns (results: seq<Outcome>, metrics: Tally)
      requires Tiled(sha, View(), rollover) && rollover != Some(0) && |faults| == |events|
      modifies this
      ensures var r := WriteSegments(sha, limits, rollover, old(View()), events, faults, now);
        View() == r.0 && results == r.1 && metrics == r.2
      ensures Tiled(sha, View(), rollover) && Accounts(events, results, metrics)
      ensures Stored(Whole(old(files)), Whole(files), events, results, old(globalJournalSeq))
      ensures globalJournalSeq == old(globalJournalSeq) + metrics.writtenRecords
    {
      hide Tiled, Transact, Stored, Accounts, WriteSegments, BatchSize, MergeTally;
      results := [];
      metrics := NO_TALLY;
      var i := 0;
      assert events[0..] == events && faults[0..] == faults;
      AfterNothing(WriteSegments(sha, limits, rollover, View(), events, faults, now));
      while i < |events|
        invariant 0 <= i <= |events| && Tiled(sha, View(), rollover)
        invariant WriteSegments(sha, limits, rollover, old(View()), events, faults, now) ==
          After(results, metrics, WriteSegments(sha, limits, rollover, View(), events[i..], faults[i..], now))
      {
        ghost var was := View();
        OpenedIsTiled(sha, was, rollover);
        var full := NeedsRollover();
        if full {
          RollSegment();
        }
        var remaining := RemainingInSegment(sha, |events| - i);
        var hardEnd := Min(i + remaining, |events|);
        var batchEnd := NextBatchEnd(events, i, limits, hardEnd);
        SegmentsUnfold(sha, limits, rollover, was, events, faults, now, i, hardEnd, batchEnd);
        ghost var r := Iterate(sha, rollover, was, events[i..batchEnd], faults[i..batchEnd], now);
        var outcomes, ok := WriteTransaction(sha, events[i..batchEnd], faults[i..batchEnd], now);
        IterateTally(sha, rollover, was, events[i..batchEnd], faults[i..batchEnd], now);
        AfterTwice(results, metrics, r.1, r.2, WriteSegments(sha, limits, rollover, View(), events[batchEnd..], faults[batchEnd..], now));
        metrics := CountTransaction(metrics, ok, |outcomes|);
        results := results + outcomes;
        i := batchEnd;
      }
      SegmentsEnd(sha, limits, rollover, View(), now);
      assert events[i..] == [] && faults[i..] == [];
      AfterEnd(results, metrics, View());
      SegmentsAccount(sha, limits, rollover, old(View()), events, faults, now);
    }
  }

  lemma OpenedIsTiled(sha: Hash, s: State, rollover: Option<nat>)
    requires Tiled(sha, s, rollover)
    ensures Tiled(sha, Opened(s, rollover), rollover)
  {
    hide Dense;
    if Full(s, rollover) {
      RollKeepsTiling(sha, s, rollover);
    }
  }

  lemma SegmentsUnfold(sha: Hash, l: Limits, rollover: Option<nat>, s: State, events: seq<Event>, faults: seq<bool>, now: int,
                       i: nat, hardEnd: nat, j: nat)
    requires Tiled(sha, s, rollover) && Tiled(sha, Opened(s, rollover), rollover) && rollover != Some(0)
    requires |faults| == |events| && i < |events| && hardEnd == i + Room(Opened(s, rollover), rollover, |events| - i)
    requires j == i + BatchSize(events[i..hardEnd], l) <= hardEnd
    ensures i < j && |s.segments| == |s.files| > 0
    ensures var first := Iterate(sha, rollover, s, events[i..j], faults[i..j], now);
      && Tiled(sha, first.0, rollover)
      && WriteSegments(sha, l, rollover, s, events[i..], faults[i..], now) ==
         After(first.1, first.2, WriteSegments(sha, l, rollover, first.0, events[j..], faults[j..], now))
  {
    hide SegmentFits, Iterate, Opened, Legal, MergeTally;
    var left, k := events[i..], j - i;
    Progress(sha, l, rollover, s, left);
    assert left[..hardEnd - i] == events[i..hardEnd];
    assert k == NextSize(sha, l, rollover, s, left);
    IterateKeepsTiling(sha, rollover, s, left[..k], faults[i..][..k], now);
    assert events[i..j] == left[..k] && faults[i..j] == faults[i..][..k];
    assert left[k..] == events[j..] && faults[i..][k..] == faults[j..];
  }

  lemma IterateTally(sha: Hash, rollover: Option<nat>, s: State, batch: seq<Event>, faults: seq<bool>, now: int)
    requires |s.segments| == |s.files| > 0 && |faults| == |batch|
    ensures var r := Iterate(sha, rollover, s, batch, faults, now);
      && |r.1| == |batch|
      && r.2 == if r.2.committed == 1 then Tally(1, 0, |batch|, 0, |batch|, |batch|) else Tally(0, 1, 0, |batch|, 0, 0)
  {
    hide Transact;
    var o := Opened(s, rollover);
    TransactTally(sha, o.files[|o.files| - 1], o.globalJournalSeq, batch, faults, now);
  }

  lemma SegmentsEnd(sha: Hash, l: Limits, rollover: Option<nat>, s: State, now: int)
    requires Tiled(sha, s, rollover) && rollover != Some(0)
    ensures WriteSegments(sha, l, rollover, s, [], [], now) == (s, [], NO_TALLY)
  {
  }
}
