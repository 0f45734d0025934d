/** Group commit of the journal bench: an event list is cut into transactions greedily, and each
    transaction is written whole or rolled back whole. */
module GroupCommit {
  import opened Common
  import opened NulText

  datatype Event = Event(eventId: string, installationId: string, producerId: string, ns: string, logicalStream: string,
                         schemaVersion: int, payload: seq<Byte>, payloadDigest: Checksum, requestFingerprint: Checksum,
                         payloadRefId: string)

  datatype Limits = Limits(maxRecords: nat, maxBytes: nat)

  const PER_EVENT_OVERHEAD_BYTES := 512

  function EstimatedBytes(e: Event): nat {
    |e.payload| + PER_EVENT_OVERHEAD_BYTES
  }

  function TotalBytes(events: seq<Event>): nat {
    if events == [] then 0 else TotalBytes(events[..|events| - 1]) + EstimatedBytes(events[|events| - 1])
  }

  /** A transaction is one event of any size, or several within both limits. */
  predicate Legal(batch: seq<Event>, l: Limits) {
    |batch| == 1 || (1 < |batch| <= l.maxRecords && TotalBytes(batch) <= l.maxBytes)
  }

  // ---------------------------------------------------------------------------------------
  // Batch boundaries
  // ---------------------------------------------------------------------------------------

  lemma {:induction false} PrefixIsLighter(events: seq<Event>, i: nat, j: nat)
    requires i <= j <= |events|
    ensures TotalBytes(events[..i]) <= TotalBytes(events[..j])
  {
    if i < j {
      assert events[..j][..j - 1] == events[..j - 1];
      PrefixIsLighter(events, i, j - 1);
    }
  }

  lemma {:induction false} BytesSplit(a: seq<Event>, b: seq<Event>)
    ensures TotalBytes(a + b) == TotalBytes(a) + TotalBytes(b)
  {
    if b == [] {
      assert a + b == a;
    } else {
      var n := |b| - 1;
      assert (a + b)[..|a + b| - 1] == a + b[..n];
      BytesSplit(a, b[..n]);
    }
  }

  /** A non-empty piece of a legal batch is legal. */
  lemma PieceIsLegal(batch: seq<Event>, l: Limits, i: nat, j: nat)
    requires Legal(batch, l) && i < j <= |batch|
    ensures Legal(batch[i..j], l)
  {
    BytesSplit(batch[..i], batch[i..j]);
    assert batch[..i] + batch[i..j] == batch[..j];
    PrefixIsLighter(batch, j, |batch|);
    assert batch[..|batch|] == batch;
  }

  /** The largest legal batch at the head of the list. */
  function BatchSize(events: seq<Event>, l: Limits, k: nat := 0): (r: nat)
    requires k <= |events| && (k > 0 ==> Legal(events[..k], l))
    ensures k <= r <= |events| && (events != [] ==> 0 < r && Legal(events[..r], l))
    ensures forall j :: r < j <= |events| ==> !Legal(events[..j], l)
    decreases |events| - k
  {
    if k == |events| then k
    else
      assert events[..k + 1][..k] == events[..k];
      if k > 0 && (k >= l.maxRecords || TotalBytes(events[..k]) + EstimatedBytes(events[k]) > l.maxBytes) then
        assert forall j :: k < j <= |events| ==> !Legal(events[..j], l) by {
          forall j | k < j <= |events| ensures !Legal(events[..j], l) {
            PrefixIsLighter(events, k + 1, j);
          }
        }
        k
      else
        BatchSize(events, l, k + 1)
  }

  method NextBatchEnd(events: seq<Event>, start: nat, l: Limits, hardEnd: nat) returns (pos: nat)
    requires start <= hardEnd <= |events|
    ensures start <= pos <= hardEnd && pos == start + BatchSize(events[start..hardEnd], l)
  {
    var count, bytes := 0, 0;
    pos := start;
    ghost var window := events[start..hardEnd];
    while pos < hardEnd
      invariant start <= pos <= hardEnd && count == pos - start
      invariant bytes == TotalBytes(window[..count])
      invariant count > 0 ==> Legal(window[..count], l)
      invariant BatchSize(window, l) == BatchSize(window, l, count)
    {
      var eventBytes := EstimatedBytes(events[pos]);
      assert window[..count + 1][..count] == window[..count];
      if count > 0 && (count >= l.maxRecords || bytes + eventBytes > l.maxBytes) {
        break;
      }
      count := count + 1;
      bytes := bytes + eventBytes;
      pos := pos + 1;
    }
  }

  // ---------------------------------------------------------------------------------------
  // The greedy cut is optimal
  // ---------------------------------------------------------------------------------------

  function Flatten<T>(parts: seq<seq<T>>): seq<T> {
    if parts == [] then [] else parts[0] + Flatten(parts[1..])
  }

  ghost predicate LegalCut(events: seq<Event>, cut: seq<seq<Event>>, l: Limits) {
    Flatten(cut) == events && forall i :: 0 <= i < |cut| ==> Legal(cut[i], l)
  }

  function GreedyCut(events: seq<Event>, l: Limits): (cut: seq<seq<Event>>)
    ensures LegalCut(events, cut, l)
    decreases |events|
  {
    if events == [] then []
    else
      var k := BatchSize(events, l);
      var rest := GreedyCut(events[k..], l);
      assert ([events[..k]] + rest)[1..] == rest;
      [events[..k]] + rest
  }

  /** What follows the first batch of a legal cut is cut legally by the other batches. */
  lemma CutTail(events: seq<Event>, cut: seq<seq<Event>>, l: Limits)
    requires LegalCut(events, cut, l) && cut != []
    ensures Legal(cut[0], l) && cut[0] <= events && LegalCut(events[|cut[0]|..], cut[1..], l)
  {
    hide Legal;
    assert events[|cut[0]|..] == Flatten(cut[1..]);
  }

  /** From inside a legal batch the greedy batch reaches at least its end. */
  lemma GreedyReaches(events: seq<Event>, from: nat, batch: seq<Event>, l: Limits)
    requires Legal(batch, l) && batch <= events && from < |batch|
    ensures BatchSize(events[from..], l) >= |batch| - from
  {
    hide Legal;
    var window := events[from..];
    PieceIsLegal(batch, l, from, |batch|);
    assert batch[from..|batch|] == window[..|batch| - from];
  }

  /** Greedy stays ahead: from any point of the list on, it needs no more batches than a legal
      cut of the whole list. */
  lemma {:induction false} GreedyStaysAhead(events: seq<Event>, from: nat, cut: seq<seq<Event>>, l: Limits)
    requires LegalCut(events, cut, l) && from <= |events|
    ensures |GreedyCut(events[from..], l)| <= |cut|
    decreases |cut|
  {
    hide Legal, LegalCut;
    if cut == [] {
      EmptyCut(events, l);
    } else {
      CutTail(events, cut, l);
      var size, window := |cut[0]|, events[from..];
      var rest := events[size..];
      if from >= size {
        assert window == rest[from - size..];
        GreedyStaysAhead(rest, from - size, cut[1..], l);
      } else {
        GreedyReaches(events, from, cut[0], l);
        var k := BatchSize(window, l);
        assert window[k..] == rest[from + k - size..];
        GreedyStaysAhead(rest, from + k - size, cut[1..], l);
      }
    }
  }

  lemma EmptyCut(events: seq<Event>, l: Limits)
    requires LegalCut(events, [], l)
    ensures events == []
  {
  }

  lemma {:induction false} GreedyIsOptimal(events: seq<Event>, cut: seq<seq<Event>>, l: Limits)
    requires LegalCut(events, cut, l)
    ensures |GreedyCut(events, l)| <= |cut|
  {
    GreedyStaysAhead(events, 0, cut, l);
    assert events[0..] == events;
  }

  // ---------------------------------------------------------------------------------------
  // One transaction
  // ---------------------------------------------------------------------------------------

  datatype Row = Row(journalSequence: int, streamSequence: int, event: Event, checksum: Checksum, receivedAtMs: int)

  /** The tables of one database file; payload and lifecycle rows are keyed by event id. */
  datatype Db = Db(rows: seq<Row>, payloads: map<string, seq<Byte>>, lifecycles: map<string, Checksum>, heads: map<string, int>)

  const NO_ROWS := Db([], map[], map[], map[])

  function EventIds(rows: seq<Row>): set<string> {
    set r <- rows :: r.event.eventId
  }

  function HeadOf(db: Db, stream: string): int {
    if stream in db.heads then db.heads[stream] else 0
  }

  function ByteText(bytes: seq<Byte>): string {
    seq(|bytes|, i requires 0 <= i < |bytes| => bytes[i] as char)
  }

  function RowChecksum(sha: Hash, e: Event, journal: int, stream: int): Checksum {
    sha(e.installationId + [NUL] + e.eventId + [NUL] + BigEndian(journal, 8) + BigEndian(stream, 8) + ByteText(e.payloadDigest))
  }

  function LifecycleText(journal: int): string {
    Decimal(journal) + [NUL] + "LOCAL_ACCEPTED_SYNTHETIC"
  }

  function NewRow(sha: Hash, db: Db, journal: int, e: Event, now: int): Row {
    var stream := HeadOf(db, e.logicalStream) + 1;
    Row(journal, stream, e, RowChecksum(sha, e, journal, stream), now)
  }

  /** The three inserts of one event; a constraint or a storage fault fails the transaction. */
  function WriteEvent(sha: Hash, db: Db, journal: int, e: Event, now: int, fault: bool): Option<Db> {
    if fault || e.eventId in EventIds(db.rows) || e.eventId in db.payloads || e.eventId in db.lifecycles then None
    else
      var row := NewRow(sha, db, journal, e, now);
      Some(Db(db.rows + [row],
              db.payloads[e.eventId := e.payload],
              db.lifecycles[e.eventId := sha(LifecycleText(journal))],
              db.heads[e.logicalStream := row.streamSequence]))
  }

  /** All events of a batch, numbered from `base + 1`. */
  function WriteAll(sha: Hash, db: Db, base: int, batch: seq<Event>, faults: seq<bool>, now: int): Option<Db>
    requires |faults| == |batch|
  {
    if batch == [] then Some(db)
    else
      var n := |batch| - 1;
      var before := WriteAll(sha, db, base, batch[..n], faults[..n], now);
      if before.None? then None else WriteEvent(sha, before.value, base + n + 1, batch[n], now, faults[n])
  }

  /** The rows of a database extended by a batch numbered from `base + 1`. */
  ghost predicate Extends(rows: seq<Row>, earlier: seq<Row>, base: int, batch: seq<Event>) {
    && |rows| == |earlier| + |batch| && earlier <= rows
    && forall i :: |earlier| <= i < |rows| ==>
         rows[i].event == batch[i - |earlier|] && rows[i].journalSequence == base + i - |earlier| + 1
  }

  lemma {:induction false} WriteAllExtends(sha: Hash, db: Db, base: int, batch: seq<Event>, faults: seq<bool>, now: int)
    requires |faults| == |batch| && WriteAll(sha, db, base, batch, faults, now).Some?
    ensures Extends(WriteAll(sha, db, base, batch, faults, now).value.rows, db.rows, base, batch)
  {
    hide RowChecksum, LifecycleText, EventIds;
    if batch != [] {
      var n := |batch| - 1;
      WriteAllExtends(sha, db, base, batch[..n], faults[..n], now);
    }
  }

  datatype Outcome = Written(journalSequence: int, streamSequence: int, checksum: Checksum) | RolledBack(eventId: string)

  /** WriteBatchMetrics. */
  datatype Tally = Tally(committed: nat, failed: nat, writtenRecords: nat, failedRecords: nat, maxBatch: nat, totalRecords: nat)

  const NO_TALLY := Tally(0, 0, 0, 0, 0, 0)

  function MergeTally(a: Tally, b: Tally): Tally {
    Tally(a.committed + b.committed, a.failed + b.failed, a.writtenRecords + b.writtenRecords, a.failedRecords + b.failedRecords,
          if b.maxBatch > a.maxBatch then b.maxBatch else a.maxBatch, a.totalRecords + b.totalRecords)
  }

  function Receipts(rows: seq<Row>): seq<Outcome> {
    seq(|rows|, i requires 0 <= i < |rows| => Written(rows[i].journalSequence, rows[i].streamSequence, rows[i].checksum))
  }

  function Lost(batch: seq<Event>): seq<Outcome> {
    seq(|batch|, i requires 0 <= i < |batch| => RolledBack(batch[i].eventId))
  }

  /** A transaction commits all its events or leaves the database as it was. */
  function Transact(sha: Hash, db: Db, base: int, batch: seq<Event>, faults: seq<bool>, now: int): (Db, seq<Outcome>, Tally)
    requires |faults| == |batch|
  {
    var written := WriteAll(sha, db, base, batch, faults, now);
    var n := |batch|;
    if written.Some? then
      WriteAllExtends(sha, db, base, batch, faults, now);
      (written.value, Receipts(written.value.rows[|db.rows|..]), Tally(1, 0, n, 0, n, n))
    else (db, Lost(batch), Tally(0, 1, 0, n, 0, 0))
  }

  function StreamCount(rows: seq<Row>, stream: string): nat {
    if rows == [] then 0
    else StreamCount(rows[..|rows| - 1], stream) + if rows[|rows| - 1].event.logicalStream == stream then 1 else 0
  }

  predicate UniqueIds(rows: seq<Row>) {
    forall i, j :: 0 <= i < j < |rows| ==> rows[i].event.eventId != rows[j].event.eventId
  }

  ghost predicate RowIntact(sha: Hash, db: Db, base: int, i: nat)
    requires i < |db.rows|
  {
    var r := db.rows[i];
    && r.journalSequence == base + i + 1
    && r.streamSequence == StreamCount(db.rows[..i], r.event.logicalStream) + 1
    && r.checksum == RowChecksum(sha, r.event, r.journalSequence, r.streamSequence)
    && r.event.eventId in db.payloads && db.payloads[r.event.eventId] == r.event.payload
    && r.event.eventId in db.lifecycles && db.lifecycles[r.event.eventId] == sha(LifecycleText(r.journalSequence))
  }

  /** A database file whose rows follow journal sequence `base`: journal and stream sequences
      have no gaps, ids are unique and the three tables and the heads agree. */
  ghost predicate Dense(sha: Hash, db: Db, base: int) {
    && UniqueIds(db.rows)
    && db.payloads.Keys == EventIds(db.rows) && db.lifecycles.Keys == EventIds(db.rows)
    && (forall s :: HeadOf(db, s) == StreamCount(db.rows, s))
    && forall i :: 0 <= i < |db.rows| ==> RowIntact(sha, db, base, i)
  }

  lemma AppendKeepsRow(sha: Hash, db: Db, d: Db, base: int, i: nat)
    requires i < |db.rows| && RowIntact(sha, db, base, i) && db.rows <= d.rows
    requires forall id :: id in db.payloads ==> id in d.payloads && d.payloads[id] == db.payloads[id]
    requires forall id :: id in db.lifecycles ==> id in d.lifecycles && d.lifecycles[id] == db.lifecycles[id]
    ensures RowIntact(sha, d, base, i)
  {
    hide RowChecksum, LifecycleText;
    assert d.rows[..i] == db.rows[..i];
  }

  lemma AppendCounts(rows: seq<Row>, r: Row, stream: string)
    ensures StreamCount(rows + [r], stream) == StreamCount(rows, stream) + if r.event.logicalStream == stream then 1 else 0
    ensures EventIds(rows + [r]) == EventIds(rows) + {r.event.eventId}
  {
    assert (rows + [r])[..|rows|] == rows;
  }

  lemma WriteEventKeeps(sha: Hash, db: Db, base: int, e: Event, now: int)
    requires Dense(sha, db, base) && WriteEvent(sha, db, base + |db.rows| + 1, e, now, false).Some?
    ensures Dense(sha, WriteEvent(sha, db, base + |db.rows| + 1, e, now, false).value, base)
  {
    hide RowChecksum, LifecycleText, StreamCount, EventIds;
    var n := |db.rows|;
    var d := WriteEvent(sha, db, base + n + 1, e, now, false).value;
    var row := NewRow(sha, db, base + n + 1, e, now);
    forall s ensures HeadOf(d, s) == StreamCount(d.rows, s) {
      AppendCounts(db.rows, row, s);
    }
    AppendCounts(db.rows, row, "");
    forall i | 0 <= i < |d.rows| ensures RowIntact(sha, d, base, i) {
      if i < n {
        AppendKeepsRow(sha, db, d, base, i);
      } else {
        assert d.rows[..n] == db.rows;
      }
    }
    assert UniqueIds(d.rows) by {
      forall i | 0 <= i < n ensures db.rows[i].event.eventId != e.eventId {
        IdIsStored(db.rows, i);
      }
    }
  }

  lemma IdIsStored(rows: seq<Row>, i: nat)
    requires i < |rows|
    ensures rows[i].event.eventId in EventIds(rows)
  {
  }

  lemma {:induction false} WriteAllKeeps(sha: Hash, db: Db, base: int, batch: seq<Event>, faults: seq<bool>, now: int)
    requires |faults| == |batch| && Dense(sha, db, base)
    requires WriteAll(sha, db, base + |db.rows|, batch, faults, now).Some?
    ensures Dense(sha, WriteAll(sha, db, base + |db.rows|, batch, faults, now).value, base)
  {
    hide Dense, NewRow, LifecycleText, EventIds;
    if batch != [] {
      var n := |batch| - 1;
      WriteAllKeeps(sha, db, base, batch[..n], faults[..n], now);
      WriteAllExtends(sha, db, base + |db.rows|, batch[..n], faults[..n], now);
      WriteEventKeeps(sha, WriteAll(sha, db, base + |db.rows|, batch[..n], faults[..n], now).value, base, batch[n], now);
    }
  }

  /** The ids of a batch are new to the database and to each other. */
  predicate Fresh(db: Db, batch: seq<Event>) {
    && (forall i :: 0 <= i < |batch| ==> batch[i].eventId !in EventIds(db.rows))
    && forall i, j :: 0 <= i < j < |batch| ==> batch[i].eventId != batch[j].eventId
  }

  /** A transaction commits exactly when no event of it repeats an id and no write fails. */
  lemma {:induction false} CommitsExactlyWhen(sha: Hash, db: Db, base: int, batch: seq<Event>, faults: seq<bool>, now: int)
    requires |faults| == |batch| && Dense(sha, db, base)
    ensures WriteAll(sha, db, base + |db.rows|, batch, faults, now).Some?
       <==> Fresh(db, batch) && forall i :: 0 <= i < |faults| ==> !faults[i]
  {
    hide Dense, WriteEvent, EventIds, Fresh, Among, Extends;
    if batch == [] {
      NothingFails(db);
    } else {
      var n := |batch| - 1;
      CommitsExactlyWhen(sha, db, base, batch[..n], faults[..n], now);
      FreshStep(db, batch);
      var before := WriteAll(sha, db, base + |db.rows|, batch[..n], faults[..n], now);
      if before.Some? {
        WriteAllKeeps(sha, db, base, batch[..n], faults[..n], now);
        WriteAllExtends(sha, db, base + |db.rows|, batch[..n], faults[..n], now);
        StoredIds(before.value.rows, db.rows, base + |db.rows|, batch[..n], batch[n].eventId);
        EventFailsWhen(sha, before.value, base, base + |db.rows| + n + 1, batch[n], now, faults[n]);
      }
    }
  }

  lemma NothingFails(db: Db)
    ensures Fresh(db, [])
  {
  }

  lemma EventFailsWhen(sha: Hash, db: Db, base: int, journal: int, e: Event, now: int, fault: bool)
    requires Dense(sha, db, base)
    ensures WriteEvent(sha, db, journal, e, now, fault).Some? <==> !fault && e.eventId !in EventIds(db.rows)
  {
    hide RowIntact, NewRow, LifecycleText, EventIds, StreamCount, UniqueIds;
  }

  predicate Among(batch: seq<Event>, id: string) {
    exists i :: 0 <= i < |batch| && batch[i].eventId == id
  }

  lemma FreshStep(db: Db, batch: seq<Event>)
    requires batch != []
    ensures var n := |batch| - 1;
      Fresh(db, batch) <==> Fresh(db, batch[..n]) && batch[n].eventId !in EventIds(db.rows) && !Among(batch[..n], batch[n].eventId)
  {
    hide EventIds;
    var n := |batch| - 1;
    if Fresh(db, batch[..n]) && !Among(batch[..n], batch[n].eventId) {
      forall i | 0 <= i < n ensures batch[i].eventId != batch[n].eventId {
        assert batch[..n][i] == batch[i];
      }
    }
  }

  lemma StoredIds(rows: seq<Row>, earlier: seq<Row>, base: int, batch: seq<Event>, id: string)
    requires Extends(rows, earlier, base, batch)
    ensures id in EventIds(rows) <==> id in EventIds(earlier) || Among(batch, id)
  {
    if Among(batch, id) {
      var i :| 0 <= i < |batch| && batch[i].eventId == id;
      assert rows[|earlier| + i].event == batch[i];
    }
  }

  // ---------------------------------------------------------------------------------------
  // Whole lists
  // ---------------------------------------------------------------------------------------

  /** What `write_batch` does to a database whose rows are numbered from 1. */
  function WriteList(sha: Hash, l: Limits, db: Db, events: seq<Event>, faults: seq<bool>, now: int): (Db, seq<Outcome>, Tally)
    requires |faults| == |events|
    decreases |events|
  {
    if events == [] then (db, [], NO_TALLY)
    else
      var k := BatchSize(events, l);
      var first := Transact(sha, db, |db.rows|, events[..k], faults[..k], now);
      var rest := WriteList(sha, l, first.0, events[k..], faults[k..], now);
      (rest.0, first.1 + rest.1, MergeTally(first.2, rest.2))
  }

  function WrittenCount(outcomes: seq<Outcome>): nat {
    if outcomes == [] then 0
    else WrittenCount(outcomes[..|outcomes| - 1]) + if outcomes[|outcomes| - 1].Written? then 1 else 0
  }

  /** Outcomes and counters account for every event: none is lost and none counted twice. */
  ghost predicate Accounts(events: seq<Event>, outcomes: seq<Outcome>, t: Tally) {
    && |outcomes| == |events|
    && (forall i :: 0 <= i < |outcomes| && outcomes[i].RolledBack? ==> outcomes[i].eventId == events[i].eventId)
    && t.writtenRecords == t.totalRecords == WrittenCount(outcomes)
    && t.failedRecords == |outcomes| - WrittenCount(outcomes)
    && t.failed <= t.failedRecords
    && t.committed <= t.writtenRecords <= t.committed * t.maxBatch
  }

  lemma {:induction false} CountsAdd(a: seq<Outcome>, b: seq<Outcome>)
    ensures WrittenCount(a + b) == WrittenCount(a) + WrittenCount(b)
  {
    if b == [] {
      assert a + b == a;
    } else {
      assert (a + b)[..|a + b| - 1] == a + b[..|b| - 1];
      CountsAdd(a, b[..|b| - 1]);
    }
  }

  lemma {:induction false} Uniform(outcomes: seq<Outcome>, written: bool)
    requires forall i :: 0 <= i < |outcomes| ==> outcomes[i].Written? == written
    ensures WrittenCount(outcomes) == if written then |outcomes| else 0
  {
    if outcomes != [] {
      Uniform(outcomes[..|outcomes| - 1], written);
    }
  }

  lemma WiderBatch(c: nat, d: nat, m: nat, n: nat)
    ensures m <= n ==> c * m + d * n <= (c + d) * n
  {
    if m <= n {
      assert c * m <= c * n;
    }
  }

  /** `merge_metrics` keeps the account of two lists written one after the other. */
  lemma {:induction false} MergeAccounts(e1: seq<Event>, o1: seq<Outcome>, t1: Tally, e2: seq<Event>, o2: seq<Outcome>, t2: Tally)
    requires Accounts(e1, o1, t1) && Accounts(e2, o2, t2)
    ensures Accounts(e1 + e2, o1 + o2, MergeTally(t1, t2))
  {
    CountsAdd(o1, o2);
    WiderBatch(t1.committed, t2.committed, t1.maxBatch, t2.maxBatch);
    WiderBatch(t2.committed, t1.committed, t2.maxBatch, t1.maxBatch);
  }

  lemma TransactAccounts(sha: Hash, db: Db, base: int, batch: seq<Event>, faults: seq<bool>, now: int)
    requires |faults| == |batch| && batch != []
    ensures var r := Transact(sha, db, base, batch, faults, now);
      && Accounts(batch, r.1, r.2) && r.2.committed + r.2.failed == 1
      && forall i :: 0 <= i < |r.1| ==> r.1[i].Written? == (r.2.committed == 1)
  {
    hide WriteAll;
    var r := Transact(sha, db, base, batch, faults, now);
    if WriteAll(sha, db, base, batch, faults, now).Some? {
      WriteAllExtends(sha, db, base, batch, faults, now);
      Uniform(r.1, true);
    } else {
      Uniform(r.1, false);
    }
  }

  lemma EmptyAccounts()
    ensures Accounts([], [], NO_TALLY)
  {
  }

  /** Every event is accounted for, in the fewest transactions a legal cut allows. */
  lemma {:induction false} ListAccounts(sha: Hash, l: Limits, db: Db, events: seq<Event>, faults: seq<bool>, now: int)
    requires |faults| == |events|
    ensures var r := WriteList(sha, l, db, events, faults, now);
      Accounts(events, r.1, r.2) && r.2.committed + r.2.failed == |GreedyCut(events, l)|
    decreases |events|
  {
    hide Accounts, Transact;
    if events == [] {
      EmptyAccounts();
    } else {
      var k := BatchSize(events, l);
      var first := Transact(sha, db, |db.rows|, events[..k], faults[..k], now);
      var rest := WriteList(sha, l, first.0, events[k..], faults[k..], now);
      TransactAccounts(sha, db, |db.rows|, events[..k], faults[..k], now);
      ListAccounts(sha, l, first.0, events[k..], faults[k..], now);
      MergeAccounts(events[..k], first.1, first.2, events[k..], rest.1, rest.2);
      assert events == events[..k] + events[k..];
    }
  }

  /** The events with a receipt, in order. */
  function Kept(events: seq<Event>, outcomes: seq<Outcome>): seq<Event>
    requires |events| == |outcomes|
  {
    if events == [] then []
    else
      var n := |events| - 1;
      var front := Kept(events[..n], outcomes[..n]);
      if outcomes[n].Written? then front + [events[n]] else front
  }

  function WrittenOnly(outcomes: seq<Outcome>): seq<Outcome> {
    if outcomes == [] then []
    else
      var n := |outcomes| - 1;
      var front := WrittenOnly(outcomes[..n]);
      if outcomes[n].Written? then front + [outcomes[n]] else front
  }

  lemma {:induction false} KeptAdds(e1: seq<Event>, o1: seq<Outcome>, e2: seq<Event>, o2: seq<Outcome>)
    requires |e1| == |o1| && |e2| == |o2|
    ensures Kept(e1 + e2, o1 + o2) == Kept(e1, o1) + Kept(e2, o2)
    ensures WrittenOnly(o1 + o2) == WrittenOnly(o1) + WrittenOnly(o2)
  {
    if e2 == [] {
      assert e1 + e2 == e1 && o1 + o2 == o1;
    } else {
      var n := |e2| - 1;
      assert (e1 + e2)[..|e1 + e2| - 1] == e1 + e2[..n] && (o1 + o2)[..|o1 + o2| - 1] == o1 + o2[..n];
      KeptAdds(e1, o1, e2[..n], o2[..n]);
    }
  }

  lemma {:induction false} KeptUniform(events: seq<Event>, outcomes: seq<Outcome>, written: bool)
    requires |events| == |outcomes| && forall i :: 0 <= i < |outcomes| ==> outcomes[i].Written? == written
    ensures Kept(events, outcomes) == if written then events else []
    ensures WrittenOnly(outcomes) == if written then outcomes else []
  {
    if events != [] {
      var n := |events| - 1;
      KeptUniform(events[..n], outcomes[..n], written);
      assert events[..n] + [events[n]] == events;
      assert outcomes[..n] + [outcomes[n]] == outcomes;
    }
  }

  /** The rows hold exactly the events with a receipt, in order, and each receipt is its row's. */
  ghost predicate Stored(before: Db, after: Db, events: seq<Event>, outcomes: seq<Outcome>, base: int) {
    && |events| == |outcomes|
    && Extends(after.rows, before.rows, base, Kept(events, outcomes))
    && Receipts(after.rows[|before.rows|..]) == WrittenOnly(outcomes)
  }

  lemma TransactStores(sha: Hash, db: Db, base: int, batch: seq<Event>, faults: seq<bool>, now: int)
    requires |faults| == |batch| && Dense(sha, db, base)
    ensures var r := Transact(sha, db, base + |db.rows|, batch, faults, now);
      Dense(sha, r.0, base) && Stored(db, r.0, batch, r.1, base + |db.rows|)
  {
    hide WriteAll, Dense, Kept, WrittenOnly;
    var r := Transact(sha, db, base + |db.rows|, batch, faults, now);
    if WriteAll(sha, db, base + |db.rows|, batch, faults, now).Some? {
      WriteAllExtends(sha, db, base + |db.rows|, batch, faults, now);
      WriteAllKeeps(sha, db, base, batch, faults, now);
      KeptUniform(batch, r.1, true);
    } else {
      KeptUniform(batch, r.1, false);
    }
  }

  lemma StoredAdds(a: Db, b: Db, c: Db, e1: seq<Event>, o1: seq<Outcome>, e2: seq<Event>, o2: seq<Outcome>, base: int)
    requires Stored(a, b, e1, o1, base) && Stored(b, c, e2, o2, base + |b.rows| - |a.rows|)
    ensures Stored(a, c, e1 + e2, o1 + o2, base)
  {
    hide Kept, WrittenOnly;
    KeptAdds(e1, o1, e2, o2);
    assert c.rows[|a.rows|..] == b.rows[|a.rows|..] + c.rows[|b.rows|..];
  }

  /** The database keeps its order, with exactly the events that got a receipt added to it. */
  lemma {:induction false} ListStores(sha: Hash, l: Limits, db: Db, events: seq<Event>, faults: seq<bool>, now: int)
    requires |faults| == |events| && Dense(sha, db, 0)
    ensures var r := WriteList(sha, l, db, events, faults, now);
      Dense(sha, r.0, 0) && Stored(db, r.0, events, r.1, |db.rows|)
    decreases |events|
  {
    hide Dense, Stored, Transact;
    if events == [] {
      NothingStored(db);
    } else {
      var k := BatchSize(events, l);
      var first := Transact(sha, db, |db.rows|, events[..k], faults[..k], now);
      var rest := WriteList(sha, l, first.0, events[k..], faults[k..], now);
      TransactStores(sha, db, 0, events[..k], faults[..k], now);
      ListStores(sha, l, first.0, events[k..], faults[k..], now);
      StoredAdds(db, first.0, rest.0, events[..k], first.1, events[k..], rest.1, |db.rows|);
      assert events == events[..k] + events[k..];
    }
  }

  lemma NothingStored(db: Db)
    ensures Stored(db, db, [], [], |db.rows|)
  {
    assert db.rows[|db.rows|..] == [];
  }

  /** The outcomes of one transaction. */
  ghost predicate AllOrNothing(batch: seq<Event>, outcomes: seq<Outcome>) {
    && |outcomes| == |batch|
    && forall i, j :: 0 <= i < |outcomes| && 0 <= j < |outcomes| ==> outcomes[i].Written? == outcomes[j].Written?
  }

  predicate AllWritten(part: seq<Outcome>) {
    part != [] && part[0].Written?
  }

  /** The largest committed part, and how many parts were committed. */
  function LargestWritten(parts: seq<seq<Outcome>>): nat {
    if parts == [] then 0
    else
      var rest, n := LargestWritten(parts[1..]), if AllWritten(parts[0]) then |parts[0]| else 0;
      if rest > n then rest else n
  }

  function WrittenParts(parts: seq<seq<Outcome>>): nat {
    if parts == [] then 0 else (if AllWritten(parts[0]) then 1 else 0) + WrittenParts(parts[1..])
  }

  /** The outcomes fall into one all-or-nothing part for each batch of the greedy cut, and the
      metrics name the committed parts and the largest of them. */
  lemma {:induction false} ListIsAtomic(sha: Hash, l: Limits, db: Db, events: seq<Event>, faults: seq<bool>, now: int)
    returns (parts: seq<seq<Outcome>>)
    requires |faults| == |events|
    ensures Flatten(parts) == WriteList(sha, l, db, events, faults, now).1
    ensures |parts| == |GreedyCut(events, l)|
    ensures forall i :: 0 <= i < |parts| ==> AllOrNothing(GreedyCut(events, l)[i], parts[i])
    ensures var t := WriteList(sha, l, db, events, faults, now).2;
      t.maxBatch == LargestWritten(parts) && t.committed == WrittenParts(parts) && t.failed == |parts| - WrittenParts(parts)
    decreases |events|
  {
    hide Transact, Accounts;
    parts := [];
    if events != [] {
      var k := BatchSize(events, l);
      var first := Transact(sha, db, |db.rows|, events[..k], faults[..k], now);
      TransactAccounts(sha, db, |db.rows|, events[..k], faults[..k], now);
      TransactTally(sha, db, |db.rows|, events[..k], faults[..k], now);
      var rest := ListIsAtomic(sha, l, first.0, events[k..], faults[k..], now);
      parts := [first.1] + rest;
      assert parts[1..] == rest;
    }
  }

  // ---------------------------------------------------------------------------------------
  // Which events are written
  // ---------------------------------------------------------------------------------------

  function IdsOf(batch: seq<Event>): set<string> {
    set e <- batch :: e.eventId
  }

  /** The ids are new and distinct and no write of the batch fails. */
  predicate Welcome(ids: set<string>, batch: seq<Event>, faults: seq<bool>) {
    && (forall i :: 0 <= i < |batch| ==> batch[i].eventId !in ids)
    && (forall i, j :: 0 <= i < j < |batch| ==> batch[i].eventId != batch[j].eventId)
    && forall i :: 0 <= i < |faults| ==> !faults[i]
  }

  /** The fate of every event of a cut, from the ids kept so far alone: a batch is written exactly when
      it is welcome, and then its ids are kept. */
  function Fates(ids: set<string>, cut: seq<seq<Event>>, faults: seq<bool>): (r: seq<bool>)
    requires |faults| == |Flatten(cut)|
    ensures |r| == |Flatten(cut)|
    decreases |cut|
  {
    if cut == [] then []
    else
      var k := |cut[0]|;
      var written := Welcome(ids, cut[0], faults[..k]);
      seq(k, _ => written) + Fates(if written then ids + IdsOf(cut[0]) else ids, cut[1..], faults[k..])
  }

  /** A transaction writes all its events when they are welcome and none otherwise. */
  lemma TransactWritesExactlyWhen(sha: Hash, db: Db, base: int, batch: seq<Event>, faults: seq<bool>, now: int)
    requires |faults| == |batch| && Dense(sha, db, base)
    ensures var r := Transact(sha, db, base + |db.rows|, batch, faults, now);
      var written := Welcome(EventIds(db.rows), batch, faults);
      && |r.1| == |batch| && (forall i :: 0 <= i < |batch| ==> r.1[i].Written? == written)
      && (r.2.committed == 1 <==> written)
      && EventIds(r.0.rows) == if written then EventIds(db.rows) + IdsOf(batch) else EventIds(db.rows)
  {
    hide WriteAll, Dense, EventIds;
    CommitsExactlyWhen(sha, db, base, batch, faults, now);
    if WriteAll(sha, db, base + |db.rows|, batch, faults, now).Some? {
      WriteAllExtends(sha, db, base + |db.rows|, batch, faults, now);
      var rows := WriteAll(sha, db, base + |db.rows|, batch, faults, now).value.rows;
      forall id ensures id in EventIds(rows) <==> id in EventIds(db.rows) || id in IdsOf(batch) {
        StoredIds(rows, db.rows, base + |db.rows|, batch, id);
      }
    }
  }

  /** Every event of a list gets a receipt exactly when its batch of the greedy cut is welcome to the
      rows kept before it. */
  lemma {:induction false} ListWritesExactlyWhen(sha: Hash, l: Limits, db: Db, events: seq<Event>, faults: seq<bool>, now: int)
    requires |faults| == |events| && Dense(sha, db, 0)
    ensures var r := WriteList(sha, l, db, events, faults, now);
      var fates := Fates(EventIds(db.rows), GreedyCut(events, l), faults);
      |r.1| == |events| && forall i :: 0 <= i < |events| ==> r.1[i].Written? == fates[i]
    decreases |events|
  {
    hide Dense, Transact, EventIds, Welcome, Stored;
    if events != [] {
      var k := BatchSize(events, l);
      var first := Transact(sha, db, |db.rows|, events[..k], faults[..k], now);
      TransactWritesExactlyWhen(sha, db, 0, events[..k], faults[..k], now);
      TransactStores(sha, db, 0, events[..k], faults[..k], now);
      ListWritesExactlyWhen(sha, l, first.0, events[k..], faults[k..], now);
      assert GreedyCut(events, l)[1..] == GreedyCut(events[k..], l) && GreedyCut(events, l)[0] == events[..k];
    }
  }

  lemma WelcomeSplits(ids: set<string>, events: seq<Event>, faults: seq<bool>, k: nat)
    requires Welcome(ids, events, faults) && k <= |events| == |faults|
    ensures Welcome(ids, events[..k], faults[..k]) && Welcome(ids + IdsOf(events[..k]), events[k..], faults[k..])
  {
    assert forall i, j :: 0 <= i < k <= j < |events| ==> events[i].eventId != events[j].eventId;
  }

  /** With fresh distinct ids and no faults every event is written, however the list is cut. */
  lemma {:induction false} WelcomeFates(ids: set<string>, cut: seq<seq<Event>>, faults: seq<bool>)
    requires |faults| == |Flatten(cut)| && Welcome(ids, Flatten(cut), faults)
    ensures forall i :: 0 <= i < |faults| ==> Fates(ids, cut, faults)[i]
    decreases |cut|
  {
    hide Welcome;
    if cut != [] {
      var k := |cut[0]|;
      WelcomeSplits(ids, Flatten(cut), faults, k);
      assert Flatten(cut)[..k] == cut[0] && Flatten(cut)[k..] == Flatten(cut[1..]);
      WelcomeFates(ids + IdsOf(cut[0]), cut[1..], faults[k..]);
    }
  }

  lemma {:induction false} FreshListIsWritten(sha: Hash, l: Limits, db: Db, events: seq<Event>, faults: seq<bool>, now: int)
    requires |faults| == |events| && Dense(sha, db, 0) && Welcome(EventIds(db.rows), events, faults)
    ensures var r := WriteList(sha, l, db, events, faults, now);
      |r.1| == |events| && forall i :: 0 <= i < |events| ==> r.1[i].Written?
  {
    hide Dense, WriteList, EventIds, Welcome, Fates;
    ListWritesExactlyWhen(sha, l, db, events, faults, now);
    WelcomeFates(EventIds(db.rows), GreedyCut(events, l), faults);
  }

  // ---------------------------------------------------------------------------------------
  // The monolithic candidate
  // ---------------------------------------------------------------------------------------

  function MaxJournal(rows: seq<Row>): int {
    if rows == [] then 0
    else
      var m, last := MaxJournal(rows[..|rows| - 1]), rows[|rows| - 1].journalSequence;
      if last > m then last else m
  }

  lemma {:induction false} MaxJournalIsLength(rows: seq<Row>)
    requires forall i :: 0 <= i < |rows| ==> rows[i].journalSequence == i + 1
    ensures MaxJournal(rows) == |rows|
  {
    if rows != [] {
      MaxJournalIsLength(rows[..|rows| - 1]);
    }
  }

  /** Under the invariant, the sequence read from the table inside a transaction is the next one. */
  lemma NextJournal(sha: Hash, db: Db, tx: Db, batch: seq<Event>, faults: seq<bool>, now: int)
    requires |faults| == |batch| && Dense(sha, db, 0) && WriteAll(sha, db, |db.rows|, batch, faults, now) == Some(tx)
    ensures Extends(tx.rows, db.rows, |db.rows|, batch) && MaxJournal(tx.rows) == |db.rows| + |batch|
  {
    hide WriteAll, MaxJournal;
    WriteAllExtends(sha, db, |db.rows|, batch, faults, now);
    WriteAllKeeps(sha, db, 0, batch, faults, now);
    forall i | 0 <= i < |tx.rows| ensures tx.rows[i].journalSequence == i + 1 {
      assert RowIntact(sha, tx, 0, i);
    }
    MaxJournalIsLength(tx.rows);
  }

  lemma {:induction false} FailureSticks(sha: Hash, db: Db, base: int, batch: seq<Event>, faults: seq<bool>, now: int, i: nat)
    requires |faults| == |batch| && i <= |batch| && WriteAll(sha, db, base, batch[..i], faults[..i], now).None?
    ensures WriteAll(sha, db, base, batch, faults, now).None?
  {
    hide WriteEvent;
    var n := |batch| - 1;
    if i == |batch| {
      assert batch[..i] == batch && faults[..i] == faults;
    } else {
      assert batch[..n][..i] == batch[..i] && faults[..n][..i] == faults[..i];
      FailureSticks(sha, db, base, batch[..n], faults[..n], now, i);
    }
  }

  method Discard(batch: seq<Event>) returns (results: seq<Outcome>)
    ensures results == Lost(batch)
  {
    results := [];
    for i := 0 to |batch|
      invariant results == Lost(batch)[..i]
    {
      results := results + [RolledBack(batch[i].eventId)];
    }
  }

  /** A written event adds its receipt. */
  lemma ReceiptsGrow(sha: Hash, tx: Db, next: Db, n: nat, journal: int, e: Event, now: int, fault: bool)
    requires n <= |tx.rows| && WriteEvent(sha, tx, journal, e, now, fault) == Some(next)
    ensures |next.rows| == |tx.rows| + 1
    ensures var row := next.rows[|tx.rows|];
      Receipts(next.rows[n..]) == Receipts(tx.rows[n..]) + [Written(row.journalSequence, row.streamSequence, row.checksum)]
  {
    hide NewRow, EventIds, LifecycleText;
    assert next.rows[n..] == tx.rows[n..] + [next.rows[|tx.rows|]];
  }

  class MonolithicCandidate {
    const limits: Limits
    var db: Db

    constructor (limits: Limits)
      ensures this.limits == limits && db == NO_ROWS
    {
      this.limits := limits;
      db := NO_ROWS;
    }

    /** One transaction; the next journal sequence is read from the table for every event. */
    method WriteTransaction(sha: Hash, batch: seq<Event>, faults: seq<bool>, now: int) returns (results: seq<Outcome>, batchOk: bool)
      requires Dense(sha, db, 0) && |faults| == |batch|
      modifies this
      ensures var r := Transact(sha, old(db), |old(db).rows|, batch, faults, now);
        db == r.0 && results == r.1 && batchOk == (r.2.committed == 1)
    {
      hide Dense, Receipts, WriteEvent, MaxJournal, Extends, Lost;
      batchOk := true;
      var tx, i := db, 0;
      results := [];
      NoReceipts(db);
      while i < |batch| && batchOk
        invariant 0 <= i <= |batch| && db == old(db)
        invariant batchOk ==> WriteAll(sha, db, |db.rows|, batch[..i], faults[..i], now) == Some(tx)
        invariant batchOk ==> |db.rows| <= |tx.rows| && results == Receipts(tx.rows[|db.rows|..])
        invariant !batchOk ==> WriteAll(sha, db, |db.rows|, batch[..i], faults[..i], now).None?
      {
        NextJournal(sha, db, tx, batch[..i], faults[..i], now);
        assert batch[..i + 1][..i] == batch[..i] && faults[..i + 1][..i] == faults[..i];
        var journal := MaxJournal(tx.rows) + 1;
        var next := WriteEvent(sha, tx, journal, batch[i], now, faults[i]);
        if next.Some? {
          ReceiptsGrow(sha, tx, next.value, |db.rows|, journal, batch[i], now, faults[i]);
          var row := next.value.rows[|tx.rows|];
          results := results + [Written(row.journalSequence, row.streamSequence, row.checksum)];
          tx := next.value;
        } else {
          batchOk := false;
        }
        i := i + 1;
      }
      if batchOk {
        assert batch[..i] == batch && faults[..i] == faults;
        db := tx;
      } else {
        FailureSticks(sha, db, |db.rows|, batch, faults, now, i);
        results := Discard(batch);
      }
    }

    method WriteBatch(sha: Hash, events: seq<Event>, faults: seq<bool>, now: int) returns (results: seq<Outcome>, metrics: Tally)
      requires Dense(sha, db, 0) && |faults| == |events|
      modifies this
      ensures var r := WriteList(sha, limits, old(db), events, faults, now);
        db == r.0 && results == r.1 && metrics == r.2
      ensures Dense(sha, db, 0) && Stored(old(db), db, events, results, |old(db).rows|)
      ensures Accounts(events, results, metrics)
      ensures forall cut :: LegalCut(events, cut, limits) ==> metrics.committed + metrics.failed <= |cut|
    {
      hide Dense, Transact, Stored, Accounts, WriteList, BatchSize, LegalCut, MergeTally;
      results := [];
      metrics := NO_TALLY;
      var i := 0;
      assert events[0..] == events && faults[0..] == faults;
      AfterNothing(WriteList(sha, limits, db, events, faults, now));
      while i < |events|
        invariant 0 <= i <= |events| && Dense(sha, db, 0)
        invariant WriteList(sha, limits, old(db), events, faults, now) ==
          After(results, metrics, WriteList(sha, limits, db, events[i..], faults[i..], now))
      {
        var batchEnd := NextBatchEnd(events, i, limits, |events|);
        ghost var was := db;
        ListUnfold(sha, limits, db, events, faults, now, i, batchEnd);
        var outcomes, ok := WriteTransaction(sha, events[i..batchEnd], faults[i..batchEnd], now);
        ghost var tally := Transact(sha, was, |was.rows|, events[i..batchEnd], faults[i..batchEnd], now).2;
        AfterTwice(results, metrics, outcomes, tally, WriteList(sha, limits, db, events[batchEnd..], faults[batchEnd..], now));
        TransactTally(sha, was, |was.rows|, events[i..batchEnd], faults[i..batchEnd], now);
        metrics := CountTransaction(metrics, ok, |outcomes|);
        results := results + outcomes;
        i := batchEnd;
      }
      ListEnd(sha, limits, db, now);
      assert events[i..] == [] && faults[i..] == [];
      AfterEnd(results, metrics, db);
      ListSummary(sha, limits, old(db), events, faults, now);
    }
  }

  /** The metric updates after one transaction of `n` records. */
  method CountTransaction(metrics: Tally, ok: bool, n: nat) returns (m: Tally)
    ensures m == MergeTally(metrics, if ok then Tally(1, 0, n, 0, n, n) else Tally(0, 1, 0, n, 0, 0))
  {
    m := metrics;
    if ok {
      m := m.(committed := m.committed + 1, writtenRecords := m.writtenRecords + n, totalRecords := m.totalRecords + n);
      if n > m.maxBatch {
        m := m.(maxBatch := n);
      }
    } else {
      m := m.(failed := m.failed + 1, failedRecords := m.failedRecords + n);
    }
  }

  lemma ListUnfold(sha: Hash, l: Limits, db: Db, events: seq<Event>, faults: seq<bool>, now: int, i: nat, j: nat)
    requires |faults| == |events| && i < |events| && j == i + BatchSize(events[i..|events|], l) <= |events|
    requires Dense(sha, db, 0)
    ensures var first := Transact(sha, db, |db.rows|, events[i..j], faults[i..j], now);
      && WriteList(sha, l, db, events[i..], faults[i..], now) ==
         After(first.1, first.2, WriteList(sha, l, first.0, events[j..], faults[j..], now))
      && Dense(sha, first.0, 0) && i < j
  {
    hide Transact, Dense, Stored;
    TransactStores(sha, db, 0, events[i..j], faults[i..j], now);
    var k := j - i;
    assert events[i..|events|] == events[i..];
    assert events[i..j] == events[i..][..k] && faults[i..j] == faults[i..][..k];
    assert events[i..][k..] == events[j..] && faults[i..][k..] == faults[j..];
  }

  lemma ListEnd(sha: Hash, l: Limits, db: Db, now: int)
    ensures WriteList(sha, l, db, [], [], now) == (db, [], NO_TALLY)
  {
  }

  lemma AfterEnd<T>(results: seq<Outcome>, metrics: Tally, db: T)
    ensures After(results, metrics, (db, [], NO_TALLY)) == (db, results, metrics)
  {
    assert results + [] == results;
  }

  lemma ListSummary(sha: Hash, l: Limits, db: Db, events: seq<Event>, faults: seq<bool>, now: int)
    requires |faults| == |events| && Dense(sha, db, 0)
    ensures var r := WriteList(sha, l, db, events, faults, now);
      && Dense(sha, r.0, 0) && Stored(db, r.0, events, r.1, |db.rows|) && Accounts(events, r.1, r.2)
      && forall cut :: LegalCut(events, cut, l) ==> r.2.committed + r.2.failed <= |cut|
  {
    hide Dense, Stored, Accounts, LegalCut, WriteList;
    ListStores(sha, l, db, events, faults, now);
    ListAccounts(sha, l, db, events, faults, now);
    forall cut | LegalCut(events, cut, l) ensures |GreedyCut(events, l)| <= |cut| {
      GreedyIsOptimal(events, cut, l);
    }
  }

  lemma NoReceipts(db: Db)
    ensures Receipts(db.rows[|db.rows|..]) == []
  {
  }

  /** Earlier outcomes and counters put in front of what follows. */
  function After<T>(results: seq<Outcome>, metrics: Tally, rest: (T, seq<Outcome>, Tally)): (T, seq<Outcome>, Tally) {
    (rest.0, results + rest.1, MergeTally(metrics, rest.2))
  }

  lemma AfterNothing<T>(rest: (T, seq<Outcome>, Tally))
    ensures After([], NO_TALLY, rest) == rest
  {
    assert [] + rest.1 == rest.1;
  }

  lemma AfterTwice<T>(r1: seq<Outcome>, t1: Tally, r2: seq<Outcome>, t2: Tally, rest: (T, seq<Outcome>, Tally))
    ensures After(r1, t1, After(r2, t2, rest)) == After(r1 + r2, MergeTally(t1, t2), rest)
  {
    assert r1 + (r2 + rest.1) == r1 + r2 + rest.1;
  }

  lemma TransactTally(sha: Hash, db: Db, base: int, batch: seq<Event>, faults: seq<bool>, now: int)
    requires |faults| == |batch|
    ensures var r := Transact(sha, db, base, batch, faults, now);
      && |r.1| == |batch|
      && r.2 == if r.2.committed == 1 then Tally(1, 0, |batch|, 0, |batch|, |batch|) else Tally(0, 1, 0, |batch|, 0, 0)
  {
    hide WriteAll;
    if WriteAll(sha, db, base, batch, faults, now).Some? {
      WriteAllExtends(sha, db, base, batch, faults, now);
    }
  }
}
