/** The in-memory ordering gate: which sequence of a stream may be sent next. */
module Gate {
  import opened Common

  datatype StreamGate = StreamGate(highestCompleted: int, inFlight: Option<int>, blocking: Option<int>)

  type Streams = map<string, StreamGate>

  datatype Decision = Allowed | Held(waitingFor: int)

  const FRESH := StreamGate(0, None, None)

  function EntryOf(g: Streams, key: string): StreamGate {
    if key in g then g[key] else FRESH
  }

  function Check(g: Streams, key: string, n: int): Decision {
    if key !in g then if n == 1 then Allowed else Held(1)
    else
      var s := g[key];
      if s.inFlight.Some? then Held(s.inFlight.value)
      else
        var awaited := if s.blocking.Some? then s.blocking.value else s.highestCompleted + 1;
        if n == awaited then Allowed else Held(awaited)
  }

  function MarkInFlight(g: Streams, key: string, n: int): Streams {
    g[key := EntryOf(g, key).(inFlight := Some(n), blocking := None)]
  }

  function MarkBlocking(g: Streams, key: string, n: int): Streams {
    var s := EntryOf(g, key);
    g[key := s.(inFlight := if s.inFlight == Some(n) then None else s.inFlight, blocking := Some(n))]
  }

  function MarkCompleted(g: Streams, key: string, n: int): Streams {
    var s := EntryOf(g, key);
    g[key := StreamGate(n,
                        if s.inFlight == Some(n) then None else s.inFlight,
                        if s.blocking == Some(n) then None else s.blocking)]
  }

  /** One row of the recovery scan. */
  datatype Recovered = Recovered(key: string, sequence: int, replicated: bool, blocking: bool, inFlight: bool)

  function Absorb(g: Streams, r: Recovered): Streams {
    var s := EntryOf(g, r.key);
    g[r.key := StreamGate(
      if r.replicated && r.sequence > s.highestCompleted then r.sequence else s.highestCompleted,
      if r.inFlight then Some(r.sequence) else s.inFlight,
      if !r.blocking then s.blocking
      else if s.blocking.Some? && s.blocking.value <= r.sequence then s.blocking
      else Some(r.sequence))]
  }

  function RecoverFrom(states: seq<Recovered>): Streams {
    if states == [] then map[] else Absorb(RecoverFrom(states[..|states| - 1]), states[|states| - 1])
  }

  class OrderingGate {
    var streams: Streams

    constructor ()
      ensures streams == map[]
    {
      streams := map[];
    }

    method CheckSequence(key: string, n: int) returns (d: Decision)
      ensures d == Check(streams, key, n)
    {
      if key !in streams {
        return if n == 1 then Allowed else Held(1);
      }
      var state := streams[key];
      var next := state.highestCompleted + 1;
      if state.inFlight.Some? {
        return Held(state.inFlight.value);
      }
      if state.blocking.Some? {
        if n == state.blocking.value {
          return Allowed;
        }
        return Held(state.blocking.value);
      }
      d := if n == next then Allowed else Held(next);
    }

    method MarkInFlightSequence(key: string, n: int)
      modifies this
      ensures streams == MarkInFlight(old(streams), key, n)
    {
      if key !in streams {
        streams := streams[key := FRESH];
      }
      streams := streams[key := streams[key].(inFlight := Some(n))];
      streams := streams[key := streams[key].(blocking := None)];
    }

    method MarkBlockingSequence(key: string, n: int)
      modifies this
      ensures streams == MarkBlocking(old(streams), key, n)
    {
      if key !in streams {
        streams := streams[key := FRESH];
      }
      if streams[key].inFlight == Some(n) {
        streams := streams[key := streams[key].(inFlight := None)];
      }
      streams := streams[key := streams[key].(blocking := Some(n))];
    }

    method MarkCompletedSequence(key: string, n: int)
      modifies this
      ensures streams == MarkCompleted(old(streams), key, n)
    {
      if key !in streams {
        streams := streams[key := FRESH];
      }
      streams := streams[key := streams[key].(highestCompleted := n)];
      if streams[key].inFlight == Some(n) {
        streams := streams[key := streams[key].(inFlight := None)];
      }
      if streams[key].blocking == Some(n) {
        streams := streams[key := streams[key].(blocking := None)];
      }
    }

    method RecoverFromScan(states: seq<Recovered>)
      modifies this
      ensures streams == RecoverFrom(states)
    {
      streams := map[];
      for i := 0 to |states|
        invariant streams == RecoverFrom(states[..i])
      {
        assert states[..i + 1][..i] == states[..i];
        var r := states[i];
        var entry := EntryOf(streams, r.key);
        if r.replicated && r.sequence > entry.highestCompleted {
          entry := entry.(highestCompleted := r.sequence);
        }
        if r.blocking {
          if entry.blocking.Some? && entry.blocking.value <= r.sequence {
          } else {
            entry := entry.(blocking := Some(r.sequence));
          }
        }
        if r.inFlight {
          entry := entry.(inFlight := Some(r.sequence));
        }
        streams := streams[r.key := entry];
      }
      assert states[..|states|] == states;
    }
  }

  // ---------------------------------------------------------------------------------------
  // What a recovered gate knows about a stream, independently of the scan order
  // ---------------------------------------------------------------------------------------

  /** `service.rs` recovers a row as replicated or blocking, never as in flight. */
  predicate FromJournal(r: Recovered) {
    r.sequence >= 1 && r.blocking == !r.replicated && !r.inFlight
  }

  predicate IsHighest(states: seq<Recovered>, key: string, h: int) {
    && (h == 0 || exists r :: r in states && r.key == key && r.replicated && r.sequence == h)
    && forall r :: r in states && r.key == key && r.replicated ==> r.sequence <= h
  }

  predicate IsLowest(states: seq<Recovered>, key: string, b: Option<int>) {
    && (b.Some? ==> exists r :: r in states && r.key == key && r.blocking && r.sequence == b.value)
    && forall r :: r in states && r.key == key && r.blocking ==> b.Some? && b.value <= r.sequence
  }

  /** The recovered entry holds the highest replicated and the lowest unreplicated sequence. */
  lemma {:induction false} RecoveredEntry(states: seq<Recovered>, key: string)
    requires forall r :: r in states ==> FromJournal(r)
    ensures key in RecoverFrom(states) <==> exists r :: r in states && r.key == key
    ensures var s := EntryOf(RecoverFrom(states), key);
      s.inFlight.None? && s.highestCompleted >= 0 && IsHighest(states, key, s.highestCompleted) && IsLowest(states, key, s.blocking)
  {
    if states != [] {
      var n := |states| - 1;
      var rest, last := states[..n], states[n];
      assert forall r :: r in states <==> r in rest || r == last;
      assert FromJournal(last);
      RecoveredEntry(rest, key);
      var before := EntryOf(RecoverFrom(rest), key);
      var after := EntryOf(RecoverFrom(states), key);
      if last.key == key {
        assert after.highestCompleted == last.sequence || after.highestCompleted == before.highestCompleted;
      } else {
        assert after == before;
      }
    }
  }
}
