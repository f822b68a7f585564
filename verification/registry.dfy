/** The master's membership table and its timed failure detector. Times are in
    nanoseconds of one monotonic clock; "now" is a parameter of each method. */
module Registries {
  const SECOND := 1_000_000_000
  const PATIENCE := 6 * SECOND
  const PERIOD := 3 * SECOND

  datatype ChunkInfo = ChunkInfo(id: string, addr: string, lastBeat: int, alive: bool, lastSeq: nat)

  type Chunks = map<string, ChunkInfo>

  function Registered(cs: Chunks, id: string, addr: string, lastSeq: nat, now: int): Chunks {
    cs[id := ChunkInfo(id, addr, now, true, lastSeq)]
  }

  /** A heartbeat revives a known chunk and never adds one. */
  function Beaten(cs: Chunks, id: string, addr: string, now: int): Chunks {
    if id in cs then cs[id := cs[id].(lastBeat := now, alive := true, addr := addr)] else cs
  }

  function Checked(c: ChunkInfo, now: int): ChunkInfo {
    if c.alive && now - c.lastBeat > PATIENCE then c.(alive := false) else c
  }

  function Swept(cs: Chunks, now: int): Chunks {
    map id | id in cs :: Checked(cs[id], now)
  }

  ghost predicate Keyed(cs: Chunks) {
    forall id :: id in cs ==> cs[id].id == id
  }

  ghost function AliveIds(cs: Chunks): set<string> {
    set id | id in cs && cs[id].alive
  }

  /** `ids` lists the set once each, in some order. */
  ghost predicate Enumerates(ids: seq<string>, s: set<string>) {
    && (forall i, j :: 0 <= i < j < |ids| ==> ids[i] != ids[j])
    && (forall id :: id in ids <==> id in s)
  }

  class Registry {
    var chunks: Chunks

    constructor ()
      ensures chunks == map[]
    {
      chunks := map[];
    }

    method Register(id: string, addr: string, lastSeq: nat, now: int)
      modifies this
      ensures chunks == Registered(old(chunks), id, addr, lastSeq, now)
      ensures chunks.Keys == old(chunks).Keys + {id}
      ensures chunks[id].id == id && chunks[id].addr == addr && chunks[id].lastBeat == now
      ensures chunks[id].alive && chunks[id].lastSeq == lastSeq
      ensures forall other :: other in old(chunks) && other != id ==> chunks[other] == old(chunks)[other]
    {
      chunks := chunks[id := ChunkInfo(id, addr, now, true, lastSeq)];
    }

    method Heartbeat(id: string, addr: string, now: int)
      modifies this
      ensures chunks == Beaten(old(chunks), id, addr, now)
      ensures chunks.Keys == old(chunks).Keys
      ensures id in chunks ==>
                && chunks[id].id == old(chunks)[id].id && chunks[id].addr == addr && chunks[id].lastBeat == now
                && chunks[id].alive && chunks[id].lastSeq == old(chunks)[id].lastSeq
      ensures forall other :: other in chunks && other != id ==> chunks[other] == old(chunks)[other]
    {
      if id in chunks {
        chunks := chunks[id := chunks[id].(lastBeat := now, alive := true, addr := addr)];
      }
    }

    /** The records of the alive chunks; the order of a map scan is arbitrary. */
    method AliveChunks() returns (result: seq<ChunkInfo>)
      requires Keyed(chunks)
      ensures Enumerates(seq(|result|, i requires 0 <= i < |result| => result[i].id), AliveIds(chunks))
      ensures forall i :: 0 <= i < |result| ==> result[i].id in chunks && result[i] == chunks[result[i].id]
      ensures forall id :: id in chunks ==> (chunks[id].alive <==> chunks[id] in result)
      ensures forall i, j :: 0 <= i < j < |result| ==> result[i].id != result[j].id
    {
      result := [];
      ghost var ids: seq<string> := [];
      var rest := chunks.Keys;
      while rest != {}
        invariant rest <= chunks.Keys
        invariant |ids| == |result|
        invariant forall i :: 0 <= i < |result| ==> ids[i] in chunks && result[i] == chunks[ids[i]]
        invariant Enumerates(ids, AliveIds(chunks) - rest)
        decreases rest
      {
        var id :| id in rest;
        if chunks[id].alive {
          result := result + [chunks[id]];
          ids := ids + [id];
        }
        rest := rest - {id};
      }
      assert ids == seq(|result|, i requires 0 <= i < |result| => result[i].id);
      assert AliveIds(chunks) - rest == AliveIds(chunks);
      forall id | id in chunks
        ensures chunks[id].alive <==> chunks[id] in result
      {
        assert id in AliveIds(chunks) <==> id in ids;
        if id in ids {
          var i :| 0 <= i < |ids| && ids[i] == id;
          assert result[i] == chunks[id];
        }
      }
    }

    /** One tick of the monitor. */
    method MonitorTick(now: int)
      modifies this
      ensures chunks == Swept(old(chunks), now)
      ensures chunks.Keys == old(chunks).Keys
      ensures forall id :: id in chunks ==>
                && (chunks[id].alive <==> old(chunks)[id].alive && now - old(chunks)[id].lastBeat <= 6_000_000_000)
                && chunks[id] == old(chunks)[id].(alive := chunks[id].alive)
    {
      var rest := chunks.Keys;
      while rest != {}
        invariant rest <= chunks.Keys == old(chunks).Keys
        invariant forall id :: id in chunks ==>
                    chunks[id] == if id in rest then old(chunks)[id] else Checked(old(chunks)[id], now)
        decreases rest
      {
        var id :| id in rest;
        var c := chunks[id];
        if c.alive && now - c.lastBeat > 6 * SECOND {
          chunks := chunks[id := c.(alive := false)];
        }
        rest := rest - {id};
      }
    }
  }

  // ---- Timed runs ------------------------------------------------------------

  datatype Event =
    | Registers(id: string, addr: string, lastSeq: nat, at: int)
    | Beats(id: string, addr: string, at: int)
    | Sweeps(at: int)

  function Step(cs: Chunks, e: Event): Chunks {
    match e
    case Registers(id, addr, lastSeq, at) => Registered(cs, id, addr, lastSeq, at)
    case Beats(id, addr, at) => Beaten(cs, id, addr, at)
    case Sweeps(at) => Swept(cs, at)
  }

  function Fold(trace: seq<Event>): Chunks {
    if trace == [] then map[]
    else Step(Fold(trace[..|trace| - 1]), trace[|trace| - 1])
  }

  predicate IsBeat(e: Event, id: string) {
    !e.Sweeps? && e.id == id
  }

  function LastBeat(trace: seq<Event>, id: string): int {
    if trace == [] then -1
    else if IsBeat(trace[|trace| - 1], id) then |trace| - 1
    else LastBeat(trace[..|trace| - 1], id)
  }

  lemma {:induction false} LastBeatIsLast(trace: seq<Event>, id: string)
    ensures -1 <= LastBeat(trace, id) < |trace|
    ensures LastBeat(trace, id) >= 0 ==> IsBeat(trace[LastBeat(trace, id)], id)
    ensures forall i :: LastBeat(trace, id) < i < |trace| ==> !IsBeat(trace[i], id)
    decreases |trace|
  {
    if trace == [] {
    } else {
      LastBeatIsLast(trace[..|trace| - 1], id);
    }
  }

  ghost predicate EverRegistered(trace: seq<Event>, id: string) {
    exists i :: 0 <= i < |trace| && trace[i].Registers? && trace[i].id == id
  }

  /** No sweep after event `b` came more than six seconds later. */
  ghost predicate FreshSince(trace: seq<Event>, b: int) {
    0 <= b < |trace| && forall j :: b < j < |trace| && trace[j].Sweeps? ==> trace[j].at - trace[b].at <= 6 * SECOND
  }

  /** The table after any run, exactly: a chunk is a member if and only if it ever
      registered (heartbeats add nobody), and a member is alive if and only if no sweep
      since its last beat or registration found it more than six seconds silent. Its address
      is the one that beat or registration carried. */
  lemma {:induction false} AliveExactly(trace: seq<Event>, id: string)
    ensures id in Fold(trace) <==> EverRegistered(trace, id)
    ensures var b := LastBeat(trace, id);
            id in Fold(trace) ==>
              && 0 <= b < |trace|
              && Fold(trace)[id].id == id
              && !trace[b].Sweeps? && trace[b].id == id && Fold(trace)[id].addr == trace[b].addr
              && Fold(trace)[id].lastBeat == trace[b].at
              && (Fold(trace)[id].alive <==> FreshSince(trace, b))
    decreases |trace|
  {
    if trace == [] {
    } else {
      var front, e := trace[..|trace| - 1], trace[|trace| - 1];
      assert trace == front + [e];
      AliveExactly(front, id);
      RegisteredStep(front, e, id);
      if id in Fold(trace) && !IsBeat(e, id) {
        var b := LastBeat(front, id);
        assert LastBeat(trace, id) == b && id in Fold(front);
        FreshStep(front, e, b);
      }
    }
  }

  /** The number a member reported is that of its last registration. */
  lemma {:induction false} ReportIsTheLast(trace: seq<Event>, id: string) returns (r: nat)
    requires id in Fold(trace)
    ensures r < |trace| && trace[r].Registers? && trace[r].id == id && Fold(trace)[id].lastSeq == trace[r].lastSeq
    ensures forall i :: r < i < |trace| ==> !(trace[i].Registers? && trace[i].id == id)
    decreases |trace|
  {
    var front, e := trace[..|trace| - 1], trace[|trace| - 1];
    if e.Registers? && e.id == id {
      r := |trace| - 1;
    } else {
      r := ReportIsTheLast(front, id);
    }
  }

  lemma RegisteredStep(front: seq<Event>, e: Event, id: string)
    ensures EverRegistered(front + [e], id) <==> EverRegistered(front, id) || (e.Registers? && e.id == id)
  {
    var trace := front + [e];
    assert trace[|front|] == e;
    if i :| 0 <= i < |front| && front[i].Registers? && front[i].id == id {
      assert trace[i] == front[i];
    }
  }

  lemma FreshStep(front: seq<Event>, e: Event, b: int)
    requires 0 <= b < |front|
    ensures FreshSince(front + [e], b) <==> FreshSince(front, b) && (e.Sweeps? ==> e.at - front[b].at <= 6 * SECOND)
  {
    var trace := front + [e];
    if FreshSince(trace, b) {
      assert trace[|front|] == e;
      forall j | b < j < |front| && front[j].Sweeps?
        ensures front[j].at - front[b].at <= 6 * SECOND
      {
        assert trace[j] == front[j];
      }
    }
  }

  function Due(start: int, j: nat): int {
    start + PERIOD * j
  }

  /** The run so far at instant `now`: events in time order, and the monitor, started at
      `start`, has swept at every three-second tick already past. */
  ghost predicate OnSchedule(trace: seq<Event>, start: int, now: int) {
    && (forall i, j :: 0 <= i < j < |trace| ==> trace[i].at <= trace[j].at)
    && (forall i :: 0 <= i < |trace| ==> start <= trace[i].at <= now)
    && (forall j: nat :: 0 < j && Due(start, j) < now ==> Sweeps(Due(start, j)) in trace)
  }

  /** A sweep between six and nine seconds after event `b` is in every schedule. */
  lemma SilenceIsSwept(trace: seq<Event>, start: int, now: int, b: int)
    requires OnSchedule(trace, start, now) && 0 <= b < |trace|
    ensures now - trace[b].at > 9 * SECOND ==> !FreshSince(trace, b)
  {
    var beat := trace[b].at;
    var j := (beat + PATIENCE - start) / PERIOD + 1;
    assert beat + PATIENCE < Due(start, j) <= beat + 9 * SECOND;
    if now - beat > 9 * SECOND {
      var i :| 0 <= i < |trace| && trace[i] == Sweeps(Due(start, j));
      assert i > b;
    }
  }

  /** At every instant of every run an alive chunk was heard from at most nine seconds
      ago: six of patience and three until the next sweep. */
  lemma AliveIsRecent(trace: seq<Event>, start: int, now: int, id: string)
    requires OnSchedule(trace, start, now)
    requires id in Fold(trace) && Fold(trace)[id].alive
    ensures now - Fold(trace)[id].lastBeat <= 9 * SECOND
  {
    AliveExactly(trace, id);
    SilenceIsSwept(trace, start, now, LastBeat(trace, id));
  }

  /** Nine seconds is tight. */
  lemma NineSecondsIsTight(id: string)
    ensures var trace := [Registers(id, "", 0, 0), Sweeps(3 * SECOND), Sweeps(6 * SECOND)];
            && OnSchedule(trace, 0, 9 * SECOND)
            && id in Fold(trace) && Fold(trace)[id].alive
            && 9 * SECOND - Fold(trace)[id].lastBeat == 9 * SECOND
  {
    var trace := [Registers(id, "", 0, 0), Sweeps(3 * SECOND), Sweeps(6 * SECOND)];
    forall j: nat | 0 < j && Due(0, j) < 9 * SECOND
      ensures Sweeps(Due(0, j)) in trace
    {
      if j == 1 {
        assert trace[1] == Sweeps(Due(0, j));
      } else {
        assert j == 2;
        assert trace[2] == Sweeps(Due(0, j));
      }
    }
    assert trace[0].Registers?;
    AliveExactly(trace, id);
    LastBeatIsLast(trace, id);
  }

  /** Each beat of the chunk is followed by another within six seconds, up to the end of
      the run. */
  ghost predicate Punctual(trace: seq<Event>, id: string, end: int) {
    forall i :: 0 <= i < |trace| && IsBeat(trace[i], id) ==>
      || end - trace[i].at <= 6 * SECOND
      || exists j :: i < j < |trace| && IsBeat(trace[j], id) && trace[j].at - trace[i].at <= 6 * SECOND
  }

  /** A chunk whose beats are never more than six seconds apart is never marked dead. */
  lemma PunctualNeverDead(trace: seq<Event>, start: int, end: int, id: string, n: nat)
    requires OnSchedule(trace, start, end) && Punctual(trace, id, end) && n <= |trace|
    requires id in Fold(trace[..n])
    ensures Fold(trace[..n])[id].alive
  {
    var sofar := trace[..n];
    AliveExactly(sofar, id);
    LastBeatIsLast(sofar, id);
    var b := LastBeat(sofar, id);
    assert IsBeat(trace[b], id);
    forall i | b < i < n
      ensures !IsBeat(trace[i], id)
    {
      assert sofar[i] == trace[i];
    }
    if end - trace[b].at > PATIENCE {
      var next :| b < next < |trace| && IsBeat(trace[next], id) && trace[next].at - trace[b].at <= PATIENCE;
      assert next >= n;
    }
  }
}
