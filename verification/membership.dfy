/** The protocol's alive map is what the timed registry shows: each registry operation is
    the corresponding protocol step, and one sweep is a run of suspicions. */
module Membership {
  import opened Registries
  import opened Protocol

  /** The registry without addresses and times. */
  function Shown(cs: Chunks): map<string, bool> {
    map id | id in cs :: cs[id].alive
  }

  ghost predicate AllSuspicions(steps: seq<Protocol.Step>) {
    forall step :: step in steps ==> step.Suspect?
  }

  /** Registering answers as the protocol does: the chunk becomes an alive member. */
  lemma RegisterIsAnswered(s: State, cs: Chunks, id: string, addr: string, lastSeq: nat, now: int)
    requires s.alive == Shown(cs) && RegisterChunk(id, lastSeq) in s.net
    ensures Do(s, AnswerRegister(id, lastSeq)).alive == Shown(Registered(cs, id, addr, lastSeq, now))
  {
  }

  lemma HeartbeatIsBeat(s: State, cs: Chunks, id: string, addr: string, now: int)
    requires s.alive == Shown(cs) && id in s.chunks
    ensures Do(s, Beat(id)) == s.(alive := Shown(Beaten(cs, id, addr, now)))
  {
    assert Shown(Beaten(cs, id, addr, now)) == if id in cs then Shown(cs)[id := true] else Shown(cs);
  }

  /** The primary is listed exactly when the master answers with a number, addresses being
      non-empty. */
  lemma ListedIsAlive(s: State, cs: Chunks)
    requires s.alive == Shown(cs)
    ensures Listed(s, s.primary) <==> s.primary in AliveIds(cs)
    ensures AliveOthers(s) == AliveIds(cs) - {s.primary}
  {
  }

  ghost function Downed(alive: map<string, bool>, ids: set<string>): map<string, bool> {
    map id | id in alive :: alive[id] && id !in ids
  }

  lemma {:induction false} SuspectAll(s: State, ids: set<string>) returns (steps: seq<Protocol.Step>)
    requires ids <= s.alive.Keys
    ensures AllSuspicions(steps) && Exec(s, steps) == At(s.(alive := Downed(s.alive, ids)))
    decreases |ids|
  {
    if ids == {} {
      steps := [];
      assert Downed(s.alive, ids) == s.alive;
    } else {
      var id :| id in ids;
      var t := s.(alive := s.alive[id := false]);
      assert Enabled(s, Suspect(id)) && Do(s, Suspect(id)) == t;
      var rest := SuspectAll(t, ids - {id});
      steps := [Suspect(id)] + rest;
      assert Downed(t.alive, ids - {id}) == Downed(s.alive, ids);
      assert steps[1..] == rest;
    }
  }

  /** One tick of the monitor is a run of suspicions, of exactly the alive chunks silent for
      more than six seconds. */
  lemma SweepIsSuspicions(s: State, cs: Chunks, now: int) returns (steps: seq<Protocol.Step>)
    requires s.alive == Shown(cs)
    ensures AllSuspicions(steps) && Exec(s, steps) == At(s.(alive := Shown(Swept(cs, now))))
  {
    var ids := set id | id in cs && cs[id].alive && now - cs[id].lastBeat > PATIENCE;
    steps := SuspectAll(s, ids);
    assert Downed(s.alive, ids) == Shown(Swept(cs, now));
  }
}
