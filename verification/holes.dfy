/** The runs in which recovery does not catch a chunk up: one missed replicate followed by
    a delivered one is a hole, and no later registration asks for it. */
module Holes {
  import opened Lww
  import opened Disk
  import opened Wals
  import opened Protocol
  import opened Guarantees
  import opened Serial
  import Codec
  import Registries

  // ---- A hole is not asked for again ------------------------------------------------

  /** While it runs, the number a chunk reports is never below what it once was, whatever
      happened in between. */
  lemma ReportsNeverDecrease(s: State, steps: seq<Step>, t: State, id: string)
    requires Inv(s) && Exec(s, steps) == At(t) && Up(s, id) && Up(t, id)
    ensures s.chunks[id].mem.lastSeq <= t.chunks[id].mem.lastSeq
  {
    hide Inv, Exec, Durable, SafeDisk;
    var n := s.chunks[id].mem.lastSeq;
    RunningIsTight(s, id);
    if n > 0 {
      var k :| k in s.chunks[id].mem.entries && s.chunks[id].mem.entries[k].seqNum == n;
      DurableOk(s, id);
      NumbersSurviveRuns(s, steps, t, id, k, n);
      ExecKeepsInv(s, steps);
      DurableOk(t, id);
      RunningIsTight(t, id);
      assert Holds(t.chunks[id].mem.entries, k, n);
    }
  }

  lemma RunningIsTight(s: State, id: string)
    requires Inv(s) && Up(s, id)
    ensures Tight(s.chunks[id].mem)
  {
    assert ChunkOk(s.chunks[id], s.applied);
  }

  /** So an operation at or below the number a chunk has reached is in no answer to any
      later registration of that chunk, whatever the log has become. */
  lemma NeverAnsweredAgain(s: State, steps: seq<Step>, t: State, id: string, op: Op)
    requires Inv(s) && Exec(s, steps) == At(t) && Up(s, id) && Up(t, id)
    requires op.seqNum <= s.chunks[id].mem.lastSeq
    ensures op !in After(t.wal, t.chunks[id].mem.lastSeq)
  {
    hide Inv, Exec;
    ReportsNeverDecrease(s, steps, t, id);
    AnswersAreAbove(t.wal, t.chunks[id].mem.lastSeq);
  }

  /** The chunk's files hold some key at number `n` or above. */
  ghost predicate Reached(s: State, id: string, n: nat) {
    id in s.chunks && exists k :: Holds(Durable(s, id), k, n)
  }

  lemma ReachedStays(s: State, step: Step, id: string, n: nat)
    requires Inv(s) && Enabled(s, step) && Reached(s, id, n)
    ensures Reached(Do(s, step), id, n)
  {
    hide Inv, Enabled, Do, Durable;
    var k :| Holds(Durable(s, id), k, n);
    NumbersSurviveSteps(s, step, id, k, n);
  }

  lemma ReachedIsReported(s: State, id: string, n: nat)
    requires Inv(s) && Reached(s, id, n) && Up(s, id)
    ensures n <= s.chunks[id].mem.lastSeq
  {
    hide Inv, Durable, SafeDisk;
    DurableOk(s, id);
    RunningIsTight(s, id);
  }

  /** The master does not answer a report below `n` that the chunk had made before. */
  ghost predicate OldReportsRest(s: State, steps: seq<Step>, id: string, n: nat) {
    forall m: nat :: RegisterChunk(id, m) in s.net && AnswerRegister(id, m) in steps ==> m >= n
  }

  /** The operation is at or below the number the chunk has reached and not under way to it. */
  ghost predicate Settled(s: State, steps: seq<Step>, id: string, op: Op) {
    && Inv(s) && Reached(s, id, op.seqNum) && Recovery(id, op) !in s.net
    && OldReportsRest(s, steps, id, op.seqNum)
  }

  lemma StaysSettled(s: State, step: Step, rest: seq<Step>, id: string, op: Op)
    requires Enabled(s, step) && Settled(s, [step] + rest, id, op)
    ensures Settled(Do(s, step), rest, id, op)
  {
    hide Inv, Enabled, Do, Reached, OldReportsRest;
    OldReportRests(s, step, rest, id, op.seqNum);
    StepKeepsInv(s, step);
    ReachedStays(s, step, id, op.seqNum);
    RestStays(s, step, rest, id, op.seqNum);
    NotSentNow(s, step, id, op);
  }

  lemma {:induction false} RunStaysSettled(s: State, steps: seq<Step>, t: State, id: string, op: Op)
    requires Exec(s, steps) == At(t) && Settled(s, steps, id, op)
    ensures Settled(t, [], id, op)
    decreases |steps|
  {
    hide Enabled, Do, Settled;
    if steps == [] {
    } else {
      assert steps == [steps[0]] + steps[1..];
      StaysSettled(s, steps[0], steps[1..], id, op);
      RunStaysSettled(Do(s, steps[0]), steps[1..], t, id, op);
    }
  }

  /** No recovery message for an operation at or below the number a chunk has reached is ever
      sent to it again, whatever happens, short of a report it made earlier being answered. */
  lemma NeverSentAgain(s: State, steps: seq<Step>, t: State, id: string, op: Op)
    requires Inv(s) && Exec(s, steps) == At(t)
    requires Reached(s, id, op.seqNum) && OldReportsRest(s, steps, id, op.seqNum)
    requires Recovery(id, op) !in s.net
    ensures Recovery(id, op) !in t.net
  {
    hide Inv, Exec, Reached, OldReportsRest;
    RunStaysSettled(s, steps, t, id, op);
  }

  lemma OldReportRests(s: State, step: Step, rest: seq<Step>, id: string, n: nat)
    requires OldReportsRest(s, [step] + rest, id, n)
    ensures step.AnswerRegister? && step.id == id && RegisterChunk(id, step.lastSeq) in s.net ==> step.lastSeq >= n
  {
    assert step in [step] + rest;
  }

  lemma RestStays(s: State, step: Step, rest: seq<Step>, id: string, n: nat)
    requires Inv(s) && Enabled(s, step) && Reached(s, id, n) && OldReportsRest(s, [step] + rest, id, n)
    ensures OldReportsRest(Do(s, step), rest, id, n)
  {
    hide Inv, Do, Reached;
    forall m: nat | RegisterChunk(id, m) in Do(s, step).net && AnswerRegister(id, m) in rest
      ensures m >= n
    {
      MessagesComeFrom(s, step, RegisterChunk(id, m));
      if RegisterChunk(id, m) in s.net {
        assert AnswerRegister(id, m) in [step] + rest;
      } else {
        ReachedIsReported(s, id, n);
      }
    }
  }

  lemma NotSentNow(s: State, step: Step, id: string, op: Op)
    requires Enabled(s, step) && Recovery(id, op) !in s.net
    requires step.AnswerRegister? && step.id == id && RegisterChunk(id, step.lastSeq) in s.net ==>
               step.lastSeq >= op.seqNum
    ensures Recovery(id, op) !in Do(s, step).net
  {
    hide Do;
    MessagesComeFrom(s, step, Recovery(id, op));
  }

  /** In particular, where all its reports under way are at or above the number. */
  lemma NeverSentAfterReports(s: State, steps: seq<Step>, t: State, id: string, op: Op)
    requires Inv(s) && Exec(s, steps) == At(t) && Reached(s, id, op.seqNum) && Recovery(id, op) !in s.net
    requires forall m: nat :: RegisterChunk(id, m) in s.net ==> m >= op.seqNum
    ensures Recovery(id, op) !in t.net
  {
    assert OldReportsRest(s, steps, id, op.seqNum);
    hide Inv, Exec, Reached, OldReportsRest;
    NeverSentAgain(s, steps, t, id, op);
  }

  /** A hole is permanent: the missing operation is in no recovery message to the chunk, unless
      a report from before the hole is answered, and in no answer to a later registration. */
  lemma HoleIsPermanent(s: State, id: string, op: Op, steps: seq<Step>, t: State)
    requires Inv(s) && Hole(s, id, op) && Exec(s, steps) == At(t)
    ensures OldReportsRest(s, steps, id, op.seqNum) ==> Recovery(id, op) !in t.net
    ensures Up(t, id) ==> op !in After(t.wal, t.chunks[id].mem.lastSeq)
  {
    hide Inv, Exec, After, OldReportsRest;
    HoleIsReached(s, id, op);
    if OldReportsRest(s, steps, id, op.seqNum) {
      NeverSentAgain(s, steps, t, id, op);
    }
    if Up(t, id) {
      NeverAnsweredAgain(s, steps, t, id, op);
    }
  }

  lemma HoleIsReached(s: State, id: string, op: Op)
    requires Inv(s) && Hole(s, id, op)
    ensures Reached(s, id, op.seqNum)
  {
    hide Inv, Durable, SafeDisk;
    DurableOk(s, id);
    RunningIsTight(s, id);
    var k :| k in s.chunks[id].mem.entries && s.chunks[id].mem.entries[k].seqNum == s.chunks[id].mem.lastSeq;
    assert Holds(Durable(s, id), k, op.seqNum);
  }

  lemma AnswersAreAbove(log: seq<Op>, n: nat)
    ensures forall op :: op in After(log, n) ==> op.seqNum > n
  {
    AfterIsFilter(log, n);
    assert forall op :: op in After(log, n) ==> op in Elements(After(log, n));
  }

  // ---- A run that makes one ------------------------------------------------------------

  /** What the run needs: two safe keys, and the first two numbers a client is given when
      the replica queries take the ones in between. */
  predicate TwoWrites(a: Op, b: Op) {
    && Codec.SafeKey(a.key) && Codec.SafeKey(b.key) && a.key != b.key
    && a.seqNum == 1 && b.seqNum == 3
    && (a.isDelete ==> a.value == []) && (b.isDelete ==> b.value == [])
  }

  /** The chunk runs as a member, lacks a logged and acknowledged operation, has reached every
      logged number, and no recovery message with the operation is under way to it. */
  ghost predicate Hole(s: State, id: string, op: Op) {
    && Up(s, id) && Listed(s, id) && s.tasks == {}
    && op in s.acked && op in s.wal
    && op.key !in s.chunks[id].mem.entries
    && 0 < op.seqNum && (forall o :: o in s.wal ==> o.seqNum <= s.chunks[id].mem.lastSeq)
    && Recovery(id, op) !in s.net
  }

  /** One complete write that replica `id` is dialled for or not. */
  lemma WriteOne(s: State, op: Op, id: string, dialled: bool) returns (steps: seq<Step>, t: State)
    requires s.tasks == {} && BlockOk(s, WriteAll(op, [id])) && Up(s, id) && id != s.primary
    ensures Exec(s, steps) == At(t) && |steps| <= 9 && MasterRestart !in steps
    ensures forall step :: step in steps ==> !step.AnswerRegister?
    ensures t.primary == s.primary && t.alive == s.alive && t.tasks == {} && t.counter == s.counter + 2
    ensures t.wal == s.wal + [op] && op in t.acked
    ensures t.chunks == s.chunks[s.primary := Received(s.chunks[s.primary], op)]
                                [id := if dialled then Received(s.chunks[id], op) else s.chunks[id]]
  {
    var m := WriteStarts(s, op, [id]);
    hide Exec, BlockOk, Received;
    var u := SendOne(m, op, [id], dialled);
    assert [id][1..] == [];
    t := WriteEnds(u, op);
    var first := [Issue, SendWrite(op), PrimaryApply(op), FetchReplicas(op, true, true, [id])];
    var last := [Finish(op), NotifyMaster(op), LogWrite(op)];
    ExecChain(s, first, m, OneSend(op, [id], dialled), u, last, t);
    steps := first + OneSend(op, [id], dialled) + last;
  }

  lemma RegisterOne(s: State, id: string) returns (steps: seq<Step>, t: State)
    requires Up(s, id) && s.wal == []
    ensures Exec(s, steps) == At(t) && |steps| == 2 && MasterRestart !in steps
    ensures t == s.(alive := s.alive[id := true], net := t.net)
    ensures t.net == s.net + {RegisterChunk(id, s.chunks[id].mem.lastSeq)}
  {
    hide Exec;
    var ask, answer := AskRegister(id), AnswerRegister(id, s.chunks[id].mem.lastSeq);
    var m := Do(s, ask);
    ExecOne(s, ask);
    ExecThen(s, [ask], m, answer);
    steps, t := [ask] + [answer], Do(m, answer);
  }

  /** Steps that answer no report below its number send no recovery message with an operation. */
  lemma {:induction false} NoAnswerNoRecovery(s: State, steps: seq<Step>, t: State, id: string, op: Op)
    requires Exec(s, steps) == At(t) && Recovery(id, op) !in s.net
    requires forall step :: step in steps && step.AnswerRegister? ==> step.lastSeq >= op.seqNum
    ensures Recovery(id, op) !in t.net
    decreases |steps|
  {
    if steps == [] {
    } else {
      hide Enabled, Do;
      assert steps == [steps[0]] + steps[1..];
      NotSentNow(s, steps[0], id, op);
      NoAnswerNoRecovery(Do(s, steps[0]), steps[1..], t, id, op);
    }
  }

  /** Both chunks register, `a` is written without the replica, `b` with it. */
  lemma TwoWritesRun(s: State, id: string, a: Op, b: Op) returns (steps: seq<Step>, m: State, t: State, tail: seq<Step>)
    requires Init(s) && Up(s, s.primary) && Up(s, id) && id != s.primary && TwoWrites(a, b)
    ensures Exec(s, steps) == At(t) && |steps| <= 22 && MasterRestart !in steps
    ensures a in m.acked && Exec(m, tail) == At(t) && Recovery(id, a) !in t.net
    ensures t.wal == [a, b] && t.tasks == {} && t.primary == s.primary && Listed(t, id)
    ensures Up(t, id) && t.chunks[id] == Received(s.chunks[id], b)
  {
    var first, s2 := BothRegister(s, id);
    hide Exec, Received, Codec.SafeKey, AliveOthers;
    var third;
    third, m := WriteOne(s2, a, id, false);
    SameOthers(s2, m);
    ReceivedStaysUp(s2.chunks[s.primary], a);
    tail, t := WriteOne(m, b, id, true);
    ReceivedStaysUp(m.chunks[id], b);
    ExecChain(s, first, s2, third, m, tail, t);
    NoAnswerNoRecovery(s2, third, m, id, a);
    NoAnswerNoRecovery(m, tail, t, id, a);
    steps := first + third + tail;
  }

  lemma SameOthers(s: State, t: State)
    requires t.alive == s.alive && t.primary == s.primary
    ensures AliveOthers(t) == AliveOthers(s)
  {
  }

  lemma BothRegister(s: State, id: string) returns (steps: seq<Step>, t: State)
    requires Init(s) && Up(s, s.primary) && Up(s, id) && id != s.primary
    ensures Exec(s, steps) == At(t) && |steps| == 4 && MasterRestart !in steps
    ensures t == s.(alive := t.alive, net := t.net)
    ensures Listed(t, t.primary) && Listed(t, id) && Registries.Enumerates([id], AliveOthers(t))
    ensures forall op :: Recovery(id, op) !in t.net
  {
    hide Exec;
    var first, m := RegisterOne(s, s.primary);
    var second;
    second, t := RegisterOne(m, id);
    ExecConcat(s, first, second);
    steps := first + second;
    assert AliveOthers(t) == {id};
  }

  lemma OneFileReloads(b: Op, files: seq<string>)
    requires Codec.SafeKey(b.key) && b.seqNum > 0 && Listing(files, Persist(map[], EMPTY, b, true))
    ensures Scan(files, Persist(map[], EMPTY, b, true)) == Apply(EMPTY, b)
    ensures Apply(EMPTY, b).entries == map[b.key := EntryOf(b)] && Apply(EMPTY, b).lastSeq == b.seqNum
  {
    hide Codec.SafeKey, Mirrors, Listing, Scan;
    BlankMirrors();
    PersistKeepsMirror(EMPTY, map[], b, true);
    ReloadExact(Apply(EMPTY, b), Persist(map[], EMPTY, b, true), files);
  }

  lemma OneFileListed(disk: Files, files: seq<string>, b: Op)
    requires Codec.SafeKey(b.key) && disk == Persist(map[], EMPTY, b, true) && Registries.Enumerates(files, disk.Keys)
    ensures Listing(files, disk)
  {
    FileRoundTrip(b.key);
  }

  lemma NothingAfter(a: Op, b: Op)
    requires a.seqNum <= b.seqNum
    ensures After([a, b], b.seqNum) == []
  {
    assert [a, b][..1] == [a] && [a][..0] == [];
    assert After([a], b.seqNum) == [];
  }

  /** It reloads, registers and is sent nothing. */
  lemma RejoinsWithHole(s: State, id: string, a: Op, b: Op, files: seq<string>) returns (steps: seq<Step>, t: State)
    requires TwoWrites(a, b) && s.wal == [a, b] && s.tasks == {}
    requires Up(s, id) && s.chunks[id] == Chunk(true, Apply(EMPTY, b), Persist(map[], EMPTY, b, true))
    requires Listing(files, s.chunks[id].disk) && Recovery(id, a) !in s.net
    ensures Exec(s, steps) == At(t) && |steps| == 4 && MasterRestart !in steps
    ensures Up(t, id) && Listed(t, id) && t.tasks == {} && t.wal == [a, b]
    ensures a.key !in t.chunks[id].mem.entries && t.chunks[id].mem.lastSeq == b.seqNum && Recovery(id, a) !in t.net
  {
    OneFileReloads(b, files);
    NothingAfter(a, b);
    assert a.seqNum <= Apply(EMPTY, b).lastSeq;
    hide Exec, Scan, Listing, TwoWrites, Apply, Persist, After, Script;
    steps, t := RejoinsUnanswered(s, id, files, Apply(EMPTY, b));
    NoAnswerNoRecovery(s, steps, t, id, a);
  }

  /** A chunk that rejoins and is sent nothing holds what its files said. */
  lemma RejoinsUnanswered(s: State, id: string, files: seq<string>, mem: Image)
    returns (steps: seq<Step>, t: State)
    requires Up(s, id) && s.tasks == {} && Listing(files, s.chunks[id].disk)
    requires Scan(files, s.chunks[id].disk) == mem && After(s.wal, mem.lastSeq) == []
    ensures Exec(s, steps) == At(t) && |steps| == 4 && MasterRestart !in steps
    ensures forall step :: step in steps && step.AnswerRegister? ==> step.lastSeq == mem.lastSeq
    ensures t.wal == s.wal && t.tasks == {} && t.alive == s.alive[id := true]
    ensures id in t.chunks && t.chunks[id] == Chunk(true, mem, s.chunks[id].disk)
  {
    steps := RejoinIsFourSteps(s, id, files);
    hide Exec, Scan, Listing, After, Script, BlockOk;
    t := RejoinRuns(s, id, files);
  }

  lemma RejoinIsFourSteps(s: State, id: string, files: seq<string>) returns (steps: seq<Step>)
    requires Up(s, id) && Listing(files, s.chunks[id].disk)
    requires After(s.wal, Scan(files, s.chunks[id].disk).lastSeq) == []
    ensures BlockOk(s, Rejoin(id, files)) && Script(s, Rejoin(id, files)) == steps
    ensures |steps| == 4 && MasterRestart !in steps
    ensures forall step :: step in steps && step.AnswerRegister? ==>
              step.lastSeq == Scan(files, s.chunks[id].disk).lastSeq
  {
    hide Scan, Listing, After;
    steps := Script(s, Rejoin(id, files));
  }

  /** "Fully caught up" fails from every initial state with a running replica: a clean run
      ends with that replica just reloaded, registered and replayed, and without an
      operation that is acknowledged and logged. */
  lemma HoleArises(s: State, id: string, a: Op, b: Op) returns (steps: seq<Step>, t: State)
    requires Init(s) && Up(s, s.primary) && Up(s, id) && id != s.primary && TwoWrites(a, b)
    ensures CleanRun(s, steps, t) && Hole(t, id, a)
  {
    var writes, m, u, tail := TwoWritesRun(s, id, a, b);
    assert u.chunks[id] == Chunk(true, Apply(EMPTY, b), Persist(map[], EMPTY, b, true));
    hide Exec, Received, Apply, Persist, CleanRun, TwoWrites;
    var files := SomeListing(u.chunks[id].disk.Keys);
    OneFileListed(u.chunks[id].disk, files, b);
    var rejoin;
    rejoin, t := RejoinsWithHole(u, id, a, b, files);
    HistoryGrows(m, tail);
    HistoryGrows(u, rejoin);
    ExecConcat(s, writes, rejoin);
    steps := writes + rejoin;
    MovesBound(steps);
    ExecIsClean(s, steps, t);
  }
}
