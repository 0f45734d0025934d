/** The bench pipeline: a producer thread, a bounded channel and a writer thread, as a transition
    system over the steps of both threads. */
module Pipeline {
  import opened Common
  import opened GroupCommit
  import opened Segments

  /** `generate` is the producer's i-th event; `prefix` starts the candidate's rollback message. */
  datatype Config = Config(total: nat, capacity: nat, maxRecords: nat, prefix: string, generate: nat -> Event)

  datatype Writer =
    | Receiving // in or about to enter recv()
    | Filling   // in the try_recv loop
    | Running   // about to call the runner
    | Draining  // past the loop with a non-empty batch
    | Finished

  /** `accepted` holds the indices of the events the channel took, `handled` the events given to
      the runner, `outcomes` its answers and `rows` what the store holds. */
  datatype Pipe = Pipe(next: nat, submitted: nat, rejected: nat, accepted: seq<nat>, queue: seq<Event>, batch: seq<Event>,
                       writer: Writer, handled: seq<Event>, outcomes: seq<Outcome>, rows: seq<Row>, metrics: Tally, errors: seq<string>)

  const START := Pipe(0, 0, 0, [], [], [], Receiving, [], [], [], NO_TALLY, [])

  /** `blocked` says whether a receiving writer already waits inside recv(), which is what a
      channel without a buffer needs to take an event. */
  datatype Action =
    | Produce(blocked: bool)
    | Receive
    | Disconnect
    | Fill
    | StopFilling
    | RunBatch(outcomes: seq<Outcome>, metrics: Tally, rows: seq<Row>)

  // ---------------------------------------------------------------------------------------
  // What the writer collects
  // ---------------------------------------------------------------------------------------

  const MAX_BOUNDED_ERRORS := 64

  function ErrorTexts(prefix: string, outcomes: seq<Outcome>): seq<string> {
    if outcomes == [] then []
    else
      var n := |outcomes| - 1;
      ErrorTexts(prefix, outcomes[..n]) + if outcomes[n].RolledBack? then [prefix + outcomes[n].eventId] else []
  }

  function Bounded(errors: seq<string>): seq<string> {
    if |errors| <= MAX_BOUNDED_ERRORS then errors else errors[..MAX_BOUNDED_ERRORS]
  }

  method CollectErrors(prefix: string, results: seq<Outcome>, collected: seq<string>) returns (errors: seq<string>)
    requires |collected| <= MAX_BOUNDED_ERRORS
    ensures errors == Bounded(collected + ErrorTexts(prefix, results))
  {
    errors := collected;
    for i := 0 to |results|
      invariant errors == Bounded(collected + ErrorTexts(prefix, results[..i]))
    {
      assert results[..i + 1][..i] == results[..i];
      if results[i].RolledBack? {
        assert collected + ErrorTexts(prefix, results[..i + 1]) == collected + ErrorTexts(prefix, results[..i]) + [prefix + results[i].eventId];
        if |errors| < MAX_BOUNDED_ERRORS {
          errors := errors + [prefix + results[i].eventId];
        }
      }
    }
    assert results[..|results|] == results;
  }

  method MergeMetrics(total: Tally, batch: Tally) returns (acc: Tally)
    ensures acc == MergeTally(total, batch)
  {
    acc := total;
    acc := acc.(committed := acc.committed + batch.committed);
    acc := acc.(failed := acc.failed + batch.failed);
    acc := acc.(writtenRecords := acc.writtenRecords + batch.writtenRecords);
    acc := acc.(failedRecords := acc.failedRecords + batch.failedRecords);
    acc := acc.(totalRecords := acc.totalRecords + batch.totalRecords);
    if batch.maxBatch > acc.maxBatch {
      acc := acc.(maxBatch := batch.maxBatch);
    }
  }

  lemma {:induction false} ErrorTextsAdd(prefix: string, a: seq<Outcome>, b: seq<Outcome>)
    ensures ErrorTexts(prefix, a + b) == ErrorTexts(prefix, a) + ErrorTexts(prefix, b)
  {
    if b == [] {
      assert a + b == a;
    } else {
      assert (a + b)[..|a + b| - 1] == a + b[..|b| - 1];
      ErrorTextsAdd(prefix, a, b[..|b| - 1]);
    }
  }

  /** Cutting after every batch keeps the same errors as cutting once at the end. */
  lemma {:induction false} BoundedAdds(a: seq<string>, b: seq<string>)
    ensures Bounded(Bounded(a) + b) == Bounded(a + b)
  {
  }

  // ---------------------------------------------------------------------------------------
  // Steps
  // ---------------------------------------------------------------------------------------

  function Table(rows: seq<Row>): Db {
    NO_ROWS.(rows := rows)
  }

  /** What the writer may expect of either candidate's `write_batch`. */
  ghost predicate RunnerKeeps(before: seq<Row>, after: seq<Row>, batch: seq<Event>, outcomes: seq<Outcome>, t: Tally) {
    Accounts(batch, outcomes, t) && Stored(Table(before), Table(after), batch, outcomes, |before|)
  }

  ghost predicate Enabled(c: Config, s: Pipe, a: Action) {
    match a
    case Produce(_) => s.next < c.total
    case Receive => s.writer == Receiving && s.queue != []
    case Disconnect => s.writer == Receiving && s.queue == [] && s.next >= c.total
    case Fill => s.writer == Filling && |s.batch| < c.maxRecords && s.queue != []
    case StopFilling => s.writer == Filling && (|s.batch| >= c.maxRecords || s.queue == [])
    case RunBatch(o, t, rows) => (s.writer == Running || s.writer == Draining) && RunnerKeeps(s.rows, rows, s.batch, o, t)
  }

  /** `try_send`: a full channel refuses, and one without a buffer needs a waiting receiver. */
  function Offer(c: Config, s: Pipe, blocked: bool): Pipe {
    var e := c.generate(s.next);
    var sent := s.(next := s.next + 1, submitted := s.submitted + 1);
    if c.capacity == 0 && s.writer == Receiving && blocked then
      sent.(accepted := s.accepted + [s.next], batch := s.batch + [e], writer := Filling)
    else if |s.queue| < c.capacity then
      sent.(accepted := s.accepted + [s.next], queue := s.queue + [e])
    else
      sent.(rejected := s.rejected + 1)
  }

  ghost function Step(c: Config, s: Pipe, a: Action): Pipe
    requires Enabled(c, s, a)
  {
    match a
    case Produce(blocked) => Offer(c, s, blocked)
    case Receive => s.(batch := s.batch + [s.queue[0]], queue := s.queue[1..], writer := Filling)
    case Disconnect => s.(writer := if s.batch == [] then Finished else Draining)
    case Fill => s.(batch := s.batch + [s.queue[0]], queue := s.queue[1..])
    case StopFilling => s.(writer := Running)
    case RunBatch(o, t, rows) =>
      s.(handled := s.handled + s.batch, outcomes := s.outcomes + o, rows := rows, metrics := MergeTally(s.metrics, t),
         errors := Bounded(s.errors + ErrorTexts(c.prefix, o)), batch := [], writer := if s.writer == Draining then Finished else Receiving)
  }

  // ---------------------------------------------------------------------------------------
  // Invariant
  // ---------------------------------------------------------------------------------------

  function Generated(c: Config, indices: seq<nat>): seq<Event> {
    seq(|indices|, i requires 0 <= i < |indices| => c.generate(indices[i]))
  }

  /** Each index at most once, in the order of generation. */
  predicate Rising(indices: seq<nat>, bound: nat) {
    && (forall i :: 0 <= i < |indices| ==> indices[i] < bound)
    && forall i, j :: 0 <= i < j < |indices| ==> indices[i] < indices[j]
  }

  /** No event is lost, duplicated or reordered between the producer and the store. */
  ghost predicate Flows(c: Config, s: Pipe) {
    && s.submitted == s.next == |s.accepted| + s.rejected <= c.total
    && Rising(s.accepted, s.next)
    && s.handled + s.batch + s.queue == Generated(c, s.accepted)
    && RunnerKeeps([], s.rows, s.handled, s.outcomes, s.metrics)
    && s.errors == Bounded(ErrorTexts(c.prefix, s.outcomes))
  }

  /** Memory is bounded, and the batch is empty whenever the writer waits, so nothing is left for
      the run after the loop. */
  ghost predicate WithinBounds(c: Config, s: Pipe) {
    && |s.queue| <= c.capacity
    && (|s.batch| <= c.maxRecords || |s.batch| == 1)
    && (s.writer == Receiving || s.writer == Finished ==> s.batch == [])
    && (s.writer == Filling || s.writer == Running ==> s.batch != [])
    && s.writer != Draining
    && (s.writer == Finished ==> s.queue == [] && s.next == c.total)
  }

  lemma RunKeepsFlow(c: Config, s: Pipe, a: Action)
    requires Flows(c, s) && a.RunBatch? && Enabled(c, s, a)
    ensures Flows(c, Step(c, s, a))
  {
    hide Accounts, Stored, MergeTally, Bounded, ErrorTexts, Rising;
    MergeAccounts(s.handled, s.outcomes, s.metrics, s.batch, a.outcomes, a.metrics);
    StoredAdds(Table([]), Table(s.rows), Table(a.rows), s.handled, s.outcomes, s.batch, a.outcomes, 0);
    ErrorTextsAdd(c.prefix, s.outcomes, a.outcomes);
    BoundedAdds(ErrorTexts(c.prefix, s.outcomes), ErrorTexts(c.prefix, a.outcomes));
    assert s.handled + s.batch + [] + s.queue == s.handled + s.batch + s.queue;
  }

  lemma OfferKeepsFlow(c: Config, s: Pipe, blocked: bool)
    requires Flows(c, s) && s.next < c.total && |s.queue| <= c.capacity
    ensures Flows(c, Offer(c, s, blocked))
  {
    hide RunnerKeeps, Bounded, ErrorTexts;
    var e := c.generate(s.next);
    assert Generated(c, s.accepted + [s.next]) == Generated(c, s.accepted) + [e];
    assert s.handled + s.batch + (s.queue + [e]) == s.handled + s.batch + s.queue + [e];
    assert s.queue == [] ==> s.handled + (s.batch + [e]) + s.queue == s.handled + s.batch + s.queue + [e];
  }

  lemma TakeKeepsFlow(c: Config, s: Pipe, writer: Writer)
    requires Flows(c, s) && s.queue != []
    ensures Flows(c, s.(batch := s.batch + [s.queue[0]], queue := s.queue[1..], writer := writer))
  {
    hide RunnerKeeps, Bounded, ErrorTexts, Generated, Rising;
    assert s.handled + (s.batch + [s.queue[0]]) + s.queue[1..] == s.handled + s.batch + s.queue;
  }

  lemma StepKeepsBounds(c: Config, s: Pipe, a: Action)
    requires WithinBounds(c, s) && s.next <= c.total && Enabled(c, s, a)
    ensures WithinBounds(c, Step(c, s, a))
  {
    hide RunnerKeeps, Bounded, ErrorTexts, MergeTally;
  }

  lemma StepKeeps(c: Config, s: Pipe, a: Action)
    requires Flows(c, s) && WithinBounds(c, s) && Enabled(c, s, a)
    ensures Flows(c, Step(c, s, a)) && WithinBounds(c, Step(c, s, a))
  {
    hide RunnerKeeps, Bounded, ErrorTexts, Generated, Rising, MergeTally, Offer;
    StepKeepsBounds(c, s, a);
    match a
    case Produce(blocked) => OfferKeepsFlow(c, s, blocked);
    case Receive => TakeKeepsFlow(c, s, Filling);
    case Fill => TakeKeepsFlow(c, s, s.writer);
    case RunBatch(_, _, _) => RunKeepsFlow(c, s, a);
    case _ =>
  }

  // ---------------------------------------------------------------------------------------
  // Runs
  // ---------------------------------------------------------------------------------------

  /** The actions are a schedule of the two threads that leads from `START` to `s`. */
  ghost predicate Reaches(c: Config, actions: seq<Action>, s: Pipe) {
    if actions == [] then s == START
    else
      var n := |actions| - 1;
      exists before :: Reaches(c, actions[..n], before) && Enabled(c, before, actions[n]) && s == Step(c, before, actions[n])
  }

  lemma {:induction false} EveryScheduleKeeps(c: Config, actions: seq<Action>, s: Pipe)
    requires Reaches(c, actions, s)
    ensures Flows(c, s) && WithinBounds(c, s)
  {
    hide Flows, WithinBounds, Step, Enabled;
    if actions == [] {
      StartFlows(c);
    } else {
      var n := |actions| - 1;
      var before :| Reaches(c, actions[..n], before) && Enabled(c, before, actions[n]) && s == Step(c, before, actions[n]);
      EveryScheduleKeeps(c, actions[..n], before);
      StepKeeps(c, before, actions[n]);
    }
  }

  lemma StartFlows(c: Config)
    ensures Flows(c, START) && WithinBounds(c, START)
  {
    hide Stored, Accounts;
    EmptyAccounts();
    NothingStored(Table([]));
  }

  /** When the writer has finished, every submitted event was accepted or rejected, every accepted
      one written or failed, and the store holds those written in the order of acceptance. */
  lemma {:induction false} Conservation(c: Config, actions: seq<Action>, s: Pipe)
    requires Reaches(c, actions, s) && s.writer == Finished
    ensures s.submitted == c.total == |s.accepted| + s.rejected
    ensures s.metrics.writtenRecords + s.metrics.failedRecords == |s.accepted|
    ensures Rising(s.accepted, c.total) && s.handled == Generated(c, s.accepted)
    ensures |s.outcomes| == |s.handled| && Extends(s.rows, [], 0, Kept(s.handled, s.outcomes))
    ensures s.errors == Bounded(ErrorTexts(c.prefix, s.outcomes))
  {
    hide Reaches, Kept, WrittenOnly, ErrorTexts, Bounded;
    EveryScheduleKeeps(c, actions, s);
    assert s.handled + [] + [] == s.handled;
  }

  // ---------------------------------------------------------------------------------------
  // Which events the channel takes
  // ---------------------------------------------------------------------------------------

  /** Accepted events the writer has not received yet. */
  function Unreceived(s: Pipe): int {
    |s.accepted| - |s.handled| - |s.batch|
  }

  /** No room: the buffer holds `capacity` unreceived events, or, without a buffer, nobody waits. */
  predicate Full(c: Config, s: Pipe, blocked: bool) {
    if c.capacity == 0 then !(s.writer == Receiving && blocked) else Unreceived(s) == c.capacity
  }

  lemma UnreceivedIsQueue(c: Config, s: Pipe)
    requires Flows(c, s) && WithinBounds(c, s)
    ensures Unreceived(s) == |s.queue| <= c.capacity
  {
    hide RunnerKeeps, Rising, Bounded, ErrorTexts;
    assert |s.handled + s.batch + s.queue| == |s.accepted|;
  }

  /** An offered event is rejected exactly when there is no room, and otherwise accepted. */
  lemma {:induction false} OfferExactlyWhen(c: Config, actions: seq<Action>, s: Pipe, blocked: bool)
    requires Reaches(c, actions, s) && s.next < c.total
    ensures var t := Step(c, s, Produce(blocked));
      if Full(c, s, blocked) then t.rejected == s.rejected + 1 && t.accepted == s.accepted
      else t.rejected == s.rejected && t.accepted == s.accepted + [s.next]
  {
    hide Reaches, Flows, WithinBounds;
    EveryScheduleKeeps(c, actions, s);
    UnreceivedIsQueue(c, s);
  }

  /** The state a schedule leads to. */
  ghost function Play(c: Config, actions: seq<Action>): Pipe {
    if actions == [] then START
    else
      var n := |actions| - 1;
      var before := Play(c, actions[..n]);
      if Enabled(c, before, actions[n]) then Step(c, before, actions[n]) else before
  }

  lemma {:induction false} ReachesWhatItPlays(c: Config, actions: seq<Action>, s: Pipe)
    requires Reaches(c, actions, s)
    ensures s == Play(c, actions)
  {
    hide Enabled, Step;
    if actions != [] {
      var n := |actions| - 1;
      var before :| Reaches(c, actions[..n], before) && Enabled(c, before, actions[n]) && s == Step(c, before, actions[n]);
      ReachesWhatItPlays(c, actions[..n], before);
    }
  }

  /** How often the producer met a channel without room. */
  ghost function FullOffers(c: Config, actions: seq<Action>): nat {
    if actions == [] then 0
    else
      var n := |actions| - 1;
      FullOffers(c, actions[..n]) + if actions[n].Produce? && Full(c, Play(c, actions[..n]), actions[n].blocked) then 1 else 0
  }

  /** Along every schedule exactly the events offered to a full channel are rejected. */
  lemma {:induction false} RejectedExactlyWhenFull(c: Config, actions: seq<Action>, s: Pipe)
    requires Reaches(c, actions, s)
    ensures s.rejected == FullOffers(c, actions)
  {
    hide Enabled, Step, Full, Play;
    if actions != [] {
      var n := |actions| - 1;
      var before :| Reaches(c, actions[..n], before) && Enabled(c, before, actions[n]) && s == Step(c, before, actions[n]);
      RejectedExactlyWhenFull(c, actions[..n], before);
      ReachesWhatItPlays(c, actions[..n], before);
      if actions[n].Produce? {
        ProduceIsOpen(c, before, actions[n]);
        OfferExactlyWhen(c, actions[..n], before, actions[n].blocked);
      } else {
        OnlyOffersReject(c, before, actions[n]);
      }
    }
  }

  lemma ProduceIsOpen(c: Config, s: Pipe, a: Action)
    requires a.Produce? && Enabled(c, s, a)
    ensures s.next < c.total
  {
  }

  lemma OnlyOffersReject(c: Config, s: Pipe, a: Action)
    requires !a.Produce? && Enabled(c, s, a)
    ensures Step(c, s, a).rejected == s.rejected
  {
    hide RunnerKeeps, MergeTally, Bounded, ErrorTexts;
  }

  /** A channel with room for all events rejects none. */
  lemma {:induction false} RoomForAll(c: Config, actions: seq<Action>, s: Pipe)
    requires Reaches(c, actions, s) && c.total <= c.capacity
    ensures s.rejected == 0
  {
    hide Enabled, Step, Full;
    if actions != [] {
      var n := |actions| - 1;
      var before :| Reaches(c, actions[..n], before) && Enabled(c, before, actions[n]) && s == Step(c, before, actions[n]);
      RoomForAll(c, actions[..n], before);
      if actions[n].Produce? {
        ProduceIsOpen(c, before, actions[n]);
        OfferExactlyWhen(c, actions[..n], before, actions[n].blocked);
        RoomLeft(c, actions[..n], before, actions[n].blocked);
      } else {
        OnlyOffersReject(c, before, actions[n]);
      }
    }
  }

  lemma RoomLeft(c: Config, actions: seq<Action>, s: Pipe, blocked: bool)
    requires Reaches(c, actions, s) && s.next < c.total <= c.capacity
    ensures !Full(c, s, blocked)
  {
    hide Reaches, RunnerKeeps;
    EveryScheduleKeeps(c, actions, s);
  }

  /** Steps left at most. */
  function Measure(c: Config, s: Pipe): nat
    requires s.next <= c.total
  {
    5 * (c.total - s.next) + 4 * |s.queue| +
    match s.writer
    case Filling => 4
    case Running => 3
    case Receiving => 2
    case Draining => 1
    case Finished => 0
  }

  lemma MeasureFalls(c: Config, s: Pipe, a: Action)
    requires s.next <= c.total && Enabled(c, s, a)
    ensures Step(c, s, a).next <= c.total && Measure(c, Step(c, s, a)) < Measure(c, s)
  {
    hide RunnerKeeps, MergeTally, Bounded, ErrorTexts;
  }

  lemma {:induction false} SchedulesEnd(c: Config, actions: seq<Action>, s: Pipe)
    requires Reaches(c, actions, s)
    ensures s.next <= c.total && |actions| + Measure(c, s) <= 5 * c.total + 2
  {
    hide Enabled, Step;
    if actions != [] {
      var n := |actions| - 1;
      var before :| Reaches(c, actions[..n], before) && Enabled(c, before, actions[n]) && s == Step(c, before, actions[n]);
      SchedulesEnd(c, actions[..n], before);
      MeasureFalls(c, before, actions[n]);
    }
  }

  /** Neither thread can get stuck: until the writer finishes, some step is possible. */
  lemma {:induction false} NoDeadlock(c: Config, actions: seq<Action>, s: Pipe) returns (a: Action)
    requires Reaches(c, actions, s) && s.writer != Finished
    ensures Enabled(c, s, a)
  {
    hide Reaches, Accounts, Stored;
    EveryScheduleKeeps(c, actions, s);
    if s.next < c.total {
      a := Produce(false);
    } else if s.writer == Receiving {
      a := if s.queue == [] then Disconnect else Receive;
    } else if s.writer == Filling {
      a := if |s.batch| < c.maxRecords && s.queue != [] then Fill else StopFilling;
    } else {
      a := RunBatch(Lost(s.batch), Tally(0, 1, 0, |s.batch|, 0, 0), s.rows);
      LosingIsAllowed(s.rows, s.batch);
    }
  }

  lemma LosingIsAllowed(rows: seq<Row>, batch: seq<Event>)
    requires batch != []
    ensures RunnerKeeps(rows, rows, batch, Lost(batch), Tally(0, 1, 0, |batch|, 0, 0))
  {
    Uniform(Lost(batch), false);
    KeptUniform(batch, Lost(batch), false);
    assert Receipts(rows[|rows|..]) == [];
  }

  // ---------------------------------------------------------------------------------------
  // Both candidates are such runners
  // ---------------------------------------------------------------------------------------

  lemma {:induction false} MonolithicRuns(sha: Hash, l: Limits, db: Db, events: seq<Event>, faults: seq<bool>, now: int)
    requires |faults| == |events| && Dense(sha, db, 0)
    ensures var r := WriteList(sha, l, db, events, faults, now); RunnerKeeps(db.rows, r.0.rows, events, r.1, r.2)
  {
    hide Dense, Accounts, WriteList, Kept, WrittenOnly;
    ListStores(sha, l, db, events, faults, now);
    ListAccounts(sha, l, db, events, faults, now);
  }

  lemma {:induction false} SegmentedRuns(sha: Hash, l: Limits, rollover: Option<nat>, s: State, events: seq<Event>, faults: seq<bool>, now: int)
    requires |faults| == |events| && Tiled(sha, s, rollover) && rollover != Some(0)
    ensures var r := WriteSegments(sha, l, rollover, s, events, faults, now);
      RunnerKeeps(AllRows(s.files), AllRows(r.0.files), events, r.1, r.2)
  {
    hide Tiled, Accounts, Stored, WriteSegments;
    SegmentsAccount(sha, l, rollover, s, events, faults, now);
    TilingMeans(sha, s, rollover);
  }

  // ---------------------------------------------------------------------------------------
  // Whole schedules over a candidate's own tables
  // ---------------------------------------------------------------------------------------

  /** `CandidateRunner`. */
  datatype Runner =
    | Monolithic(limits: Limits, db: Db)
    | Segmented(limits: Limits, rollover: Option<nat>, state: State)

  function RowsOf(r: Runner): seq<Row> {
    match r
    case Monolithic(_, db) => db.rows
    case Segmented(_, _, state) => AllRows(state.files)
  }

  function PrefixOf(r: Runner): string {
    match r
    case Monolithic(_, _) => "batch rolled back for event "
    case Segmented(_, _, _) => "segment batch rolled back for event "
  }

  ghost predicate SoundRunner(sha: Hash, r: Runner) {
    match r
    case Monolithic(_, db) => Dense(sha, db, 0)
    case Segmented(_, rollover, state) => Tiled(sha, state, rollover) && rollover != Some(0)
  }

  /** A candidate as it is opened. */
  predicate JustOpened(r: Runner) {
    match r
    case Monolithic(_, db) => db == NO_ROWS
    case Segmented(_, rollover, state) => state == Roll(NO_SEGMENTS) && rollover != Some(0)
  }

  function Call(sha: Hash, r: Runner, batch: seq<Event>, faults: seq<bool>, now: int): (Runner, seq<Outcome>, Tally)
    requires SoundRunner(sha, r) && |faults| == |batch|
  {
    match r
    case Monolithic(l, db) =>
      var w := WriteList(sha, l, db, batch, faults, now);
      (r.(db := w.0), w.1, w.2)
    case Segmented(l, rollover, state) =>
      var w := WriteSegments(sha, l, rollover, state, batch, faults, now);
      (r.(state := w.0), w.1, w.2)
  }

  lemma CallKeeps(sha: Hash, r: Runner, batch: seq<Event>, faults: seq<bool>, now: int)
    requires SoundRunner(sha, r) && |faults| == |batch|
    ensures var w := Call(sha, r, batch, faults, now);
      && SoundRunner(sha, w.0) && PrefixOf(w.0) == PrefixOf(r)
      && RunnerKeeps(RowsOf(r), RowsOf(w.0), batch, w.1, w.2)
  {
    hide RunnerKeeps, Dense, Tiled, WriteList, AllRows;
    match r
    case Monolithic(l, db) =>
      MonolithicRuns(sha, l, db, batch, faults, now);
      MonolithicStaysDense(sha, l, db, batch, faults, now);
    case Segmented(l, rollover, state) =>
      SegmentedRuns(sha, l, rollover, state, batch, faults, now);
  }

  lemma MonolithicStaysDense(sha: Hash, l: Limits, db: Db, events: seq<Event>, faults: seq<bool>, now: int)
    requires |faults| == |events| && Dense(sha, db, 0)
    ensures Dense(sha, WriteList(sha, l, db, events, faults, now).0, 0)
  {
    hide Dense, WriteList, Stored;
    ListStores(sha, l, db, events, faults, now);
  }

  /** A step of a thread, or the runner's call with the storage faults and the clock it meets. */
  datatype Move = Thread(a: Action) | Write(faults: seq<bool>, now: int)

  ghost predicate Moves(c: Config, sha: Hash, s: Pipe, r: Runner, m: Move, t: Pipe, q: Runner) {
    match m
    case Thread(a) => !a.RunBatch? && Enabled(c, s, a) && t == Step(c, s, a) && q == r
    case Write(faults, now) =>
      && |faults| == |s.batch| && SoundRunner(sha, r)
      && var w := Call(sha, r, s.batch, faults, now);
         var a := RunBatch(w.1, w.2, RowsOf(w.0));
         Enabled(c, s, a) && t == Step(c, s, a) && q == w.0
  }

  /** The moves lead from the start, with a candidate just opened, to `s` and `r`. */
  ghost predicate Drives(c: Config, sha: Hash, moves: seq<Move>, s: Pipe, r: Runner) {
    if moves == [] then s == START && JustOpened(r) && PrefixOf(r) == c.prefix
    else
      var n := |moves| - 1;
      exists t, q :: Drives(c, sha, moves[..n], t, q) && Moves(c, sha, t, q, moves[n], s, r)
  }

  lemma OneEmptyFile(files: seq<Db>)
    requires |files| == 1 && files[0].rows == []
    ensures AllRows(files) == []
  {
    var front := files[..0];
    assert AllRows(front) == [];
  }

  lemma OpenedIsSound(sha: Hash, r: Runner)
    requires JustOpened(r)
    ensures SoundRunner(sha, r) && RowsOf(r) == []
  {
    hide Dense, Tiled, AllRows;
    match r
    case Monolithic(_, _) => EmptyFile(sha, 0);
    case Segmented(_, rollover, state) =>
      FirstSegment(sha, rollover);
      OneEmptyFile(state.files);
  }

  /** A driven schedule is a schedule of the pipeline whose store is the candidate's own tables. */
  lemma {:induction false} DrivenIsReached(c: Config, sha: Hash, moves: seq<Move>, s: Pipe, r: Runner) returns (actions: seq<Action>)
    requires Drives(c, sha, moves, s, r)
    ensures Reaches(c, actions, s) && |actions| == |moves|
    ensures SoundRunner(sha, r) && s.rows == RowsOf(r) && PrefixOf(r) == c.prefix
  {
    hide Step, Enabled, SoundRunner, Call, RowsOf;
    if moves == [] {
      OpenedIsSound(sha, r);
      actions := [];
    } else {
      var n := |moves| - 1;
      var t, q :| Drives(c, sha, moves[..n], t, q) && Moves(c, sha, t, q, moves[n], s, r);
      var before := DrivenIsReached(c, sha, moves[..n], t, q);
      var a := MoveIsStep(c, sha, t, q, moves[n], s, r);
      actions := before + [a];
      assert actions[..|before|] == before;
    }
  }

  lemma MoveIsStep(c: Config, sha: Hash, t: Pipe, q: Runner, m: Move, s: Pipe, r: Runner) returns (a: Action)
    requires Moves(c, sha, t, q, m, s, r) && SoundRunner(sha, q) && t.rows == RowsOf(q)
    ensures Enabled(c, t, a) && s == Step(c, t, a)
    ensures SoundRunner(sha, r) && s.rows == RowsOf(r) && PrefixOf(r) == PrefixOf(q)
  {
    hide RunnerKeeps, SoundRunner, Call, RowsOf, MergeTally, Bounded, ErrorTexts;
    match m
    case Thread(b) => a := b;
    case Write(faults, now) =>
      CallKeeps(sha, q, t.batch, faults, now);
      var w := Call(sha, q, t.batch, faults, now);
      a := RunBatch(w.1, w.2, RowsOf(w.0));
  }

  /** Conservation with the candidate's tables as the store: when the writer has finished, the tables
      hold exactly the accepted events that got a receipt, in acceptance order, numbered from 1, in a
      database that is still sound. */
  lemma {:induction false} StoreConservation(c: Config, sha: Hash, moves: seq<Move>, s: Pipe, r: Runner)
    requires Drives(c, sha, moves, s, r) && s.writer == Finished
    ensures s.submitted == c.total == |s.accepted| + s.rejected
    ensures s.metrics.writtenRecords + s.metrics.failedRecords == |s.accepted|
    ensures Rising(s.accepted, c.total) && s.handled == Generated(c, s.accepted)
    ensures SoundRunner(sha, r) && |s.outcomes| == |s.handled|
    ensures Extends(RowsOf(r), [], 0, Kept(s.handled, s.outcomes))
    ensures s.errors == Bounded(ErrorTexts(PrefixOf(r), s.outcomes))
  {
    hide Drives, Reaches, Kept, Extends, SoundRunner, RowsOf, ErrorTexts, Bounded, Rising, Generated;
    var actions := DrivenIsReached(c, sha, moves, s, r);
    Conservation(c, actions, s);
  }

  /** The candidate's call is always possible when the writer wants it, so a driven schedule never
      gets stuck. */
  lemma {:induction false} DrivenNoDeadlock(c: Config, sha: Hash, moves: seq<Move>, s: Pipe, r: Runner) returns (m: Move, t: Pipe, q: Runner)
    requires Drives(c, sha, moves, s, r) && s.writer != Finished
    ensures Moves(c, sha, s, r, m, t, q)
  {
    hide Drives, Reaches, RunnerKeeps, SoundRunner, Call, RowsOf, MergeTally, Bounded, ErrorTexts;
    var actions := DrivenIsReached(c, sha, moves, s, r);
    var a := NoDeadlock(c, actions, s);
    if a.RunBatch? {
      var faults := seq(|s.batch|, _ => false);
      CallKeeps(sha, r, s.batch, faults, 0);
      var w := Call(sha, r, s.batch, faults, 0);
      m, t, q := Write(faults, 0), Step(c, s, RunBatch(w.1, w.2, RowsOf(w.0))), w.0;
    } else {
      m, t, q := Thread(a), Step(c, s, a), r;
    }
  }

  // ---------------------------------------------------------------------------------------
  // Everything is written
  // ---------------------------------------------------------------------------------------

  /** The runner's calls meet no storage fault. */
  ghost predicate Faultless(moves: seq<Move>) {
    forall i :: 0 <= i < |moves| && moves[i].Write? ==> NoFault(moves[i].faults)
  }

  predicate NoFault(faults: seq<bool>) {
    forall i :: 0 <= i < |faults| ==> !faults[i]
  }

  /** The generated events have ids of their own. */
  ghost predicate DistinctIds(c: Config) {
    forall i, j :: 0 <= i < j < c.total ==> c.generate(i).eventId != c.generate(j).eventId
  }

  predicate AllWrittenOutcomes(outcomes: seq<Outcome>) {
    forall i :: 0 <= i < |outcomes| ==> outcomes[i].Written?
  }

  lemma RowsCoverActive(files: seq<Db>)
    requires files != []
    ensures EventIds(files[|files| - 1].rows) <= EventIds(AllRows(files))
  {
    assert forall r :: r in files[|files| - 1].rows ==> r in AllRows(files);
  }

  lemma CallWritesFresh(sha: Hash, r: Runner, batch: seq<Event>, faults: seq<bool>, now: int)
    requires SoundRunner(sha, r) && |faults| == |batch| && Welcome(EventIds(RowsOf(r)), batch, faults)
    ensures AllWrittenOutcomes(Call(sha, r, batch, faults, now).1)
  {
    hide Dense, WriteList, Welcome, EventIds, AllRows;
    match r
    case Monolithic(l, db) => FreshListIsWritten(sha, l, db, batch, faults, now);
    case Segmented(l, rollover, state) =>
      RowsCoverActive(state.files);
      FewerIds(EventIds(state.files[|state.files| - 1].rows), EventIds(AllRows(state.files)), batch, faults);
      FreshSegmentsAreWritten(sha, l, rollover, state, batch, faults, now);
  }

  /** When all was written so far, the next batch is new to the store. */
  lemma BatchIsFresh(c: Config, s: Pipe, faults: seq<bool>)
    requires Flows(c, s) && DistinctIds(c) && NoFault(faults) && AllWrittenOutcomes(s.outcomes)
    ensures Welcome(EventIds(s.rows), s.batch, faults)
  {
    hide Accounts, Bounded, ErrorTexts, WrittenOnly, Receipts;
    KeptAll(s.handled, s.outcomes);
    var all := Generated(c, s.accepted);
    var h := |s.handled|;
    assert forall i :: 0 <= i < |s.batch| ==> s.batch[i] == all[h + i];
    assert forall i :: 0 <= i < h ==> s.rows[i].event == all[i];
    assert |s.rows| == h;
    forall i, j | 0 <= i < j < |all| ensures all[i].eventId != all[j].eventId {
      assert s.accepted[i] < s.accepted[j] < c.total;
    }
  }

  lemma {:induction false} KeptAll(events: seq<Event>, outcomes: seq<Outcome>)
    requires |events| == |outcomes| && AllWrittenOutcomes(outcomes)
    ensures Kept(events, outcomes) == events
  {
    KeptUniform(events, outcomes, true);
  }

  lemma {:induction false} AllWrittenSoFar(c: Config, sha: Hash, moves: seq<Move>, s: Pipe, r: Runner)
    requires Drives(c, sha, moves, s, r) && Faultless(moves) && DistinctIds(c)
    ensures AllWrittenOutcomes(s.outcomes)
  {
    hide SoundRunner, Call, RowsOf, DistinctIds, Flows, WithinBounds, Enabled, Step;
    if moves != [] {
      var n := |moves| - 1;
      var t, q :| Drives(c, sha, moves[..n], t, q) && Moves(c, sha, t, q, moves[n], s, r);
      AllWrittenSoFar(c, sha, moves[..n], t, q);
      var before := DrivenIsReached(c, sha, moves[..n], t, q);
      EveryScheduleKeeps(c, before, t);
      if moves[n].Write? {
        BatchIsFresh(c, t, moves[n].faults);
        CallWritesFresh(sha, q, t.batch, moves[n].faults, moves[n].now);
        var w := Call(sha, q, t.batch, moves[n].faults, moves[n].now);
        RunAppends(c, t, RunBatch(w.1, w.2, RowsOf(w.0)));
      } else {
        ThreadKeepsOutcomes(c, t, moves[n].a);
      }
    }
  }

  lemma RunAppends(c: Config, s: Pipe, a: Action)
    requires a.RunBatch? && Enabled(c, s, a)
    ensures Step(c, s, a).outcomes == s.outcomes + a.outcomes
  {
    hide RunnerKeeps, MergeTally, Bounded, ErrorTexts;
  }

  lemma ThreadKeepsOutcomes(c: Config, s: Pipe, a: Action)
    requires !a.RunBatch? && Enabled(c, s, a)
    ensures Step(c, s, a).outcomes == s.outcomes
  {
    hide RunnerKeeps, MergeTally, Bounded, ErrorTexts;
  }

  /** With room for all events, distinct ids and no storage fault, the finished pipeline has rejected
      and lost nothing: either candidate's tables hold every generated event, in order. */
  lemma {:induction false} EverythingIsWritten(c: Config, sha: Hash, moves: seq<Move>, s: Pipe, r: Runner)
    requires Drives(c, sha, moves, s, r) && s.writer == Finished
    requires Faultless(moves) && DistinctIds(c) && c.total <= c.capacity
    ensures s.rejected == 0 && s.metrics.writtenRecords == c.total && s.metrics.failedRecords == 0 && s.errors == []
    ensures |RowsOf(r)| == c.total
    ensures forall i :: 0 <= i < c.total ==> RowsOf(r)[i].event == c.generate(i) && RowsOf(r)[i].journalSequence == i + 1
  {
    hide Drives, Reaches, SoundRunner, RowsOf, DistinctIds, Bounded, ErrorTexts, Kept, Flows, WithinBounds;
    var actions := DrivenIsReached(c, sha, moves, s, r);
    RoomForAll(c, actions, s);
    StoreConservation(c, sha, moves, s, r);
    AllWrittenSoFar(c, sha, moves, s, r);
    KeptAll(s.handled, s.outcomes);
    EveryScheduleKeeps(c, actions, s);
    WrittenAreCounted(c, s);
    AllIndices(s.accepted, c.total);
  }

  lemma WrittenAreCounted(c: Config, s: Pipe)
    requires Flows(c, s) && AllWrittenOutcomes(s.outcomes)
    ensures s.metrics.failedRecords == 0 && s.errors == []
  {
    Uniform(s.outcomes, true);
    NoErrorTexts(c.prefix, s.outcomes);
  }

  lemma {:induction false} NoErrorTexts(prefix: string, outcomes: seq<Outcome>)
    requires AllWrittenOutcomes(outcomes)
    ensures ErrorTexts(prefix, outcomes) == []
  {
    if outcomes != [] {
      NoErrorTexts(prefix, outcomes[..|outcomes| - 1]);
    }
  }

  /** `n` rising indices below `n` are all of them. */
  lemma {:induction false} AllIndices(indices: seq<nat>, n: nat)
    requires Rising(indices, n) && |indices| == n
    ensures forall i :: 0 <= i < n ==> indices[i] == i
  {
    if n > 0 {
      var front := indices[..n - 1];
      assert forall i :: 0 <= i < n - 1 ==> front[i] == indices[i] && indices[i] < indices[n - 1] < n;
      assert Rising(front, n - 1);
      AllIndices(front, n - 1);
      assert n > 1 ==> indices[n - 2] == n - 2;
    }
  }
}
