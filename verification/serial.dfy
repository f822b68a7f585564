/** When recovery does catch a chunk up: runs in which every write goes to completion
    before anything else happens, and a chunk rejoins only by reloading, registering and
    replaying in one go. Each block below is a script of ordinary protocol steps. */
module Serial {
  import opened Lww
  import opened Disk
  import opened Wals
  import opened Protocol
  import Codec
  import Registries

  datatype Block =
    | WriteAll(op: Op, order: seq<string>)
    | Fail(id: string)
    | Rejoin(id: string, files: seq<string>)
    | Doubt(id: string)
    | Reboot

  /** The primary works through the list; a chunk that is down cannot be dialled. */
  function FanoutSteps(chunks: map<string, Chunk>, op: Op, rest: seq<string>): seq<Step> {
    if rest == [] then []
    else if rest[0] in chunks && chunks[rest[0]].up
    then [SendReplicate(op, rest, true), DeliverReplicate(rest[0], op)] + FanoutSteps(chunks, op, rest[1..])
    else [SendReplicate(op, rest, false)] + FanoutSteps(chunks, op, rest[1..])
  }

  function ReplaySteps(id: string, entries: seq<Op>): seq<Step> {
    if entries == [] then []
    else ReplaySteps(id, entries[..|entries| - 1]) + [DeliverRecovery(id, entries[|entries| - 1])]
  }

  ghost function Script(s: State, b: Block): seq<Step>
    requires BlockOk(s, b)
  {
    match b
    case WriteAll(op, order) =>
      [Issue, SendWrite(op), PrimaryApply(op), FetchReplicas(op, true, true, order)]
      + FanoutSteps(s.chunks, op, order)
      + [Finish(op), NotifyMaster(op), LogWrite(op)]
    case Fail(id) => [Crash(id)]
    case Rejoin(id, files) =>
      var lastSeq := Scan(files, s.chunks[id].disk).lastSeq;
      (if s.chunks[id].up then [Crash(id)] else [])
      + [Restart(id, files), AskRegister(id), AnswerRegister(id, lastSeq)]
      + ReplaySteps(id, After(s.wal, lastSeq))
    case Doubt(id) => [Suspect(id)]
    case Reboot => [MasterRestart]
  }

  ghost predicate BlockOk(s: State, b: Block) {
    match b
    case WriteAll(op, order) =>
      && Listed(s, s.primary) && Up(s, s.primary) && s.counter + 2 < TWO_64
      && op.seqNum == s.counter + 1 && Codec.SafeKey(op.key) && (op.isDelete ==> op.value == [])
      && Registries.Enumerates(order, AliveOthers(s))
    case Fail(id) => Up(s, id)
    case Rejoin(id, files) => id in s.chunks && Listing(files, s.chunks[id].disk)
    case Doubt(id) => id in s.alive
    case Reboot => true
  }

  // ---- The invariant ----------------------------------------------------------

  ghost predicate Rising(log: seq<Op>) {
    && (forall i :: 0 <= i < |log| ==> 0 < log[i].seqNum)
    && (forall i, j :: 0 <= i < j < |log| ==> log[i].seqNum < log[j].seqNum)
  }

  /** The chunk holds exactly the first `n` logged operations: what it misses is a suffix. */
  ghost predicate Upto(c: Chunk, log: seq<Op>, n: nat) {
    && n <= |log|
    && Mirrors(ApplyAll(EMPTY, log[..n]), c.disk)
    && (c.up ==> c.mem == ApplyAll(EMPTY, log[..n]))
  }

  ghost predicate Behind(c: Chunk, log: seq<Op>) {
    exists n: nat :: Upto(c, log, n)
  }

  ghost predicate Current(s: State, id: string) {
    id == s.primary || (Listed(s, id) && Up(s, id))
  }

  ghost predicate LogOk(log: seq<Op>, counter: nat) {
    Rising(log) && SafeOps(log) && forall op :: op in log ==> op.seqNum <= counter
  }

  ghost predicate ChunkInStep(s: State, id: string)
    requires id in s.chunks
  {
    Behind(s.chunks[id], s.wal) && (Current(s, id) ==> Upto(s.chunks[id], s.wal, |s.wal|))
  }

  /** Between blocks: the log rises, every chunk misses at most a suffix of it, and the
      primary and every running listed chunk miss nothing. */
  ghost predicate InStep(s: State) {
    && s.primary in s.chunks && s.alive.Keys <= s.chunks.Keys && s.tasks == {}
    && LogOk(s.wal, s.counter)
    && forall id :: id in s.chunks ==> ChunkInStep(s, id)
  }

  // ---- Executing scripts ---------------------------------------------------------

  lemma {:induction false} ExecConcat(s: State, a: seq<Step>, b: seq<Step>)
    requires Exec(s, a).At?
    ensures Exec(s, a + b) == Exec(Exec(s, a).state, b)
    decreases |a|
  {
    hide Enabled, Do;
    if a == [] {
      assert a + b == b;
    } else {
      assert (a + b)[1..] == a[1..] + b;
      ExecConcat(Do(s, a[0]), a[1..], b);
    }
  }

  lemma ExecOne(s: State, step: Step)
    requires Enabled(s, step)
    ensures Exec(s, [step]) == At(Do(s, step))
  {
    assert [step][1..] == [];
    assert Exec(Do(s, step), [step][1..]) == At(Do(s, step));
  }

  lemma ExecThen(s: State, a: seq<Step>, m: State, step: Step)
    requires Exec(s, a) == At(m) && Enabled(m, step)
    ensures Exec(s, a + [step]) == At(Do(m, step))
  {
    hide Enabled, Do, Exec;
    ExecConcat(s, a, [step]);
    ExecOne(m, step);
  }

  function ReceiveEach(chunks: map<string, Chunk>, ids: set<string>, op: Op): map<string, Chunk> {
    map id | id in chunks :: if id in ids && chunks[id].up then Received(chunks[id], op) else chunks[id]
  }

  function Members(ids: seq<string>): set<string> {
    set id | id in ids
  }

  /** The fan-out reaches each listed chunk that runs, once. */
  lemma {:induction false} FanoutRuns(s: State, before: map<string, Chunk>, op: Op, rest: seq<string>)
    returns (t: State)
    requires s.tasks == {Sending(op, rest)}
    requires forall i, j :: 0 <= i < j < |rest| ==> rest[i] != rest[j]
    requires s.chunks.Keys == before.Keys && forall id :: id in rest && id in before ==> s.chunks[id] == before[id]
    ensures Exec(s, FanoutSteps(before, op, rest)) == At(t)
    ensures t == s.(chunks := ReceiveEach(s.chunks, Members(rest), op), net := t.net, tasks := {Sending(op, [])})
    decreases |rest|
  {
    if rest == [] {
      t := s;
      assert ReceiveEach(s.chunks, Members(rest), op) == s.chunks;
    } else {
      hide Exec, Enabled, Do, ReceiveEach, Received;
      var id, tail := rest[0], rest[1..];
      assert rest == [id] + tail;
      var up := id in before && before[id].up;
      var m := SendOne(s, op, rest, up);
      t := FanoutRuns(m, before, op, tail);
      ExecConcat(s, OneSend(op, rest, up), FanoutSteps(before, op, tail));
      ReceiveFirst(s.chunks, id, tail, op);
    }
  }

  lemma ReceiveFirst(chunks: map<string, Chunk>, id: string, tail: seq<string>, op: Op)
    requires id !in tail
    ensures var first := if id in chunks && chunks[id].up then chunks[id := Received(chunks[id], op)] else chunks;
            ReceiveEach(first, Members(tail), op) == ReceiveEach(chunks, Members([id] + tail), op)
  {
    hide Received;
  }

  /** The steps for the first listed chunk: if it is dialled, the replicate goes out and is
      delivered. */
  function OneSend(op: Op, rest: seq<string>, dialled: bool): seq<Step>
    requires rest != []
  {
    if dialled then [SendReplicate(op, rest, true), DeliverReplicate(rest[0], op)] else [SendReplicate(op, rest, false)]
  }

  lemma SendOne(s: State, op: Op, rest: seq<string>, dialled: bool) returns (t: State)
    requires s.tasks == {Sending(op, rest)} && rest != [] && (dialled ==> Up(s, rest[0]))
    ensures Exec(s, OneSend(op, rest, dialled)) == At(t)
    ensures t.tasks == {Sending(op, rest[1..])}
    ensures t == s.(chunks := if dialled then s.chunks[rest[0] := Received(s.chunks[rest[0]], op)] else s.chunks,
                    net := t.net, tasks := t.tasks)
  {
    hide Exec, Received;
    var send := SendReplicate(op, rest, dialled);
    ExecOne(s, send);
    t := Do(s, send);
    if dialled {
      var deliver := DeliverReplicate(rest[0], op);
      assert Enabled(t, deliver);
      ExecThen(s, [send], t, deliver);
      assert [send] + [deliver] == [send, deliver];
      t := Do(t, deliver);
    }
  }

  /** A complete write: every running chunk on the list, and the primary, receive it. */
  lemma WriteRuns(s: State, op: Op, order: seq<string>) returns (t: State)
    requires s.tasks == {} && BlockOk(s, WriteAll(op, order))
    ensures Exec(s, Script(s, WriteAll(op, order))) == At(t)
    ensures t.primary == s.primary && t.alive == s.alive && t.tasks == {}
    ensures t.counter == s.counter + 2 && t.wal == s.wal + [op]
    ensures t.chunks == ReceiveEach(s.chunks, Members(order) + {s.primary}, op)
  {
    var a := WriteStarts(s, op, order);
    hide Exec, Enabled, Do, Received, Codec.SafeKey;
    var b := FanoutRuns(a, s.chunks, op, order);
    t := WriteEnds(b, op);
    var first := [Issue, SendWrite(op), PrimaryApply(op), FetchReplicas(op, true, true, order)];
    var mid := FanoutSteps(s.chunks, op, order);
    var last := [Finish(op), NotifyMaster(op), LogWrite(op)];
    ExecConcat(s, first, mid);
    ExecConcat(s, first + mid, last);
    assert ReceiveEach(a.chunks, Members(order), op) == ReceiveEach(s.chunks, Members(order) + {s.primary}, op);
  }

  lemma WriteStarts(s: State, op: Op, order: seq<string>) returns (t: State)
    requires s.tasks == {} && BlockOk(s, WriteAll(op, order))
    ensures Exec(s, [Issue, SendWrite(op), PrimaryApply(op), FetchReplicas(op, true, true, order)]) == At(t)
    ensures t.primary == s.primary && t.alive == s.alive && t.counter == s.counter + 2 && t.wal == s.wal
    ensures t.tasks == {Sending(op, order)} && t.chunks == s.chunks[s.primary := Received(s.chunks[s.primary], op)]
  {
    hide Exec, Received, Codec.SafeKey;
    var s1 := Do(s, Issue);
    assert s1.counter == op.seqNum && op.seqNum in s1.hands;
    var s2 := Do(s1, SendWrite(op));
    ExecOne(s, Issue);
    ExecThen(s, [Issue], s1, SendWrite(op));
    var fetch := FetchReplicas(op, true, true, order);
    var tail := ApplyAndFetch(s2, op, fetch);
    ExecConcat(s, [Issue] + [SendWrite(op)], [PrimaryApply(op), fetch]);
    assert [Issue] + [SendWrite(op)] + [PrimaryApply(op), fetch] == [Issue, SendWrite(op), PrimaryApply(op), fetch];
    t := tail;
  }

  lemma ApplyAndFetch(s: State, op: Op, fetch: Step) returns (t: State)
    requires s.tasks == {} && WriteRequest(op) in s.net && Up(s, s.primary) && Listed(s, s.primary)
    requires s.counter + 1 < TWO_64 && fetch.FetchReplicas? && fetch.op == op && fetch.answered && fetch.heard
    requires Registries.Enumerates(fetch.order, AliveOthers(s))
    ensures Exec(s, [PrimaryApply(op), fetch]) == At(t)
    ensures t.primary == s.primary && t.alive == s.alive && t.counter == s.counter + 1 && t.wal == s.wal
    ensures t.tasks == {Sending(op, fetch.order)}
    ensures t.chunks == s.chunks[s.primary := Received(s.chunks[s.primary], op)]
  {
    hide Exec, Received;
    var m := Do(s, PrimaryApply(op));
    ExecOne(s, PrimaryApply(op));
    assert AliveOthers(m) == AliveOthers(s);
    ExecThen(s, [PrimaryApply(op)], m, fetch);
    assert [PrimaryApply(op)] + [fetch] == [PrimaryApply(op), fetch];
    t := Do(m, fetch);
  }

  lemma WriteEnds(s: State, op: Op) returns (t: State)
    requires s.tasks == {Sending(op, [])}
    ensures Exec(s, [Finish(op), NotifyMaster(op), LogWrite(op)]) == At(t)
    ensures t.primary == s.primary && t.chunks == s.chunks && t.alive == s.alive && t.counter == s.counter
    ensures t.tasks == {} && t.wal == s.wal + [op] && t.acked == s.acked + {op}
  {
    hide Exec;
    var s1 := Do(s, Finish(op));
    var s2 := Do(s1, NotifyMaster(op));
    ExecOne(s, Finish(op));
    ExecThen(s, [Finish(op)], s1, NotifyMaster(op));
    ExecThen(s, [Finish(op)] + [NotifyMaster(op)], s2, LogWrite(op));
    assert [Finish(op)] + [NotifyMaster(op)] + [LogWrite(op)] == [Finish(op), NotifyMaster(op), LogWrite(op)];
    t := Do(s2, LogWrite(op));
  }

  lemma {:induction false} ReplayRuns(s: State, id: string, entries: seq<Op>) returns (t: State)
    requires Up(s, id) && forall op :: op in entries ==> Recovery(id, op) in s.net
    ensures Exec(s, ReplaySteps(id, entries)) == At(t)
    ensures var r := ReceiveAll(Copy(s.chunks[id].mem, s.chunks[id].disk), entries);
            t == s.(chunks := s.chunks[id := Chunk(true, r.mem, r.disk)])
    decreases |entries|
  {
    if entries == [] {
      t := s;
    } else {
      hide Exec, Enabled, Do, Apply, Persist;
      var front, op := entries[..|entries| - 1], entries[|entries| - 1];
      assert entries == front + [op];
      var m := ReplayRuns(s, id, front);
      RecoveryDelivered(m, id, op);
      ExecThen(s, ReplaySteps(id, front), m, DeliverRecovery(id, op));
      t := Deliver(m, id, op);
    }
  }

  lemma RecoveryDelivered(s: State, id: string, op: Op)
    requires Up(s, id) && Recovery(id, op) in s.net
    ensures Enabled(s, DeliverRecovery(id, op)) && Do(s, DeliverRecovery(id, op)) == Deliver(s, id, op)
  {
  }

  lemma ExecChain(s: State, a: seq<Step>, m: State, b: seq<Step>, u: State, c: seq<Step>, t: State)
    requires Exec(s, a) == At(m) && Exec(m, b) == At(u) && Exec(u, c) == At(t)
    ensures Exec(s, a + b + c) == At(t)
  {
    hide Exec;
    ExecConcat(s, a, b);
    ExecConcat(s, a + b, c);
  }

  /** Reload, register and replay in one go. */
  lemma RejoinRuns(s: State, id: string, files: seq<string>) returns (t: State)
    requires s.tasks == {} && BlockOk(s, Rejoin(id, files))
    ensures Exec(s, Script(s, Rejoin(id, files))) == At(t)
    ensures t.primary == s.primary && t.alive == s.alive[id := true] && t.tasks == {}
    ensures t.counter == s.counter && t.wal == s.wal
    ensures var mem := Scan(files, s.chunks[id].disk);
            var r := ReceiveAll(Copy(mem, s.chunks[id].disk), After(s.wal, mem.lastSeq));
            t.chunks == s.chunks[id := Chunk(true, r.mem, r.disk)]
  {
    var mem := Scan(files, s.chunks[id].disk);
    var down := if s.chunks[id].up then [Crash(id)] else [];
    var register := [Restart(id, files), AskRegister(id), AnswerRegister(id, mem.lastSeq)];
    var replay := ReplaySteps(id, After(s.wal, mem.lastSeq));
    assert Script(s, Rejoin(id, files)) == down + register + replay;
    hide Exec, Enabled, Do, Scan, Listing, ReceiveAll, After, Script, ReplaySteps;
    var s0 := GoesDown(s, id);
    var s3 := ReloadAndRegister(s0, id, files);
    t := ReplayRuns(s3, id, After(s.wal, mem.lastSeq));
    ExecChain(s, down, s0, register, s3, replay, t);
    assert t.chunks == s.chunks[id := t.chunks[id]];
  }

  lemma GoesDown(s: State, id: string) returns (t: State)
    requires s.tasks == {} && id in s.chunks
    ensures Exec(s, if s.chunks[id].up then [Crash(id)] else []) == At(t)
    ensures id in t.chunks && t == s.(chunks := s.chunks[id := t.chunks[id]])
    ensures !t.chunks[id].up && t.chunks[id].disk == s.chunks[id].disk
  {
    t := s;
    if s.chunks[id].up {
      ExecOne(s, Crash(id));
      t := Do(s, Crash(id));
    } else {
      assert s.chunks == s.chunks[id := s.chunks[id]];
    }
  }

  lemma ReloadAndRegister(s: State, id: string, files: seq<string>) returns (t: State)
    requires id in s.chunks && !s.chunks[id].up && Listing(files, s.chunks[id].disk)
    ensures var mem := Scan(files, s.chunks[id].disk);
            && Exec(s, [Restart(id, files), AskRegister(id), AnswerRegister(id, mem.lastSeq)]) == At(t)
            && t == s.(chunks := s.chunks[id := Chunk(true, mem, s.chunks[id].disk)],
                       alive := s.alive[id := true], net := t.net)
            && forall op :: op in After(s.wal, mem.lastSeq) ==> Recovery(id, op) in t.net
  {
    var mem := Scan(files, s.chunks[id].disk);
    var restart, ask, answer := Restart(id, files), AskRegister(id), AnswerRegister(id, mem.lastSeq);
    assert Enabled(s, restart);
    hide Exec, Scan, Listing, After;
    var s1 := Do(s, restart);
    var s2 := Do(s1, ask);
    ExecOne(s, restart);
    ExecThen(s, [restart], s1, ask);
    ExecThen(s, [restart] + [ask], s2, answer);
    assert [restart] + [ask] + [answer] == [restart, ask, answer];
    t := Do(s2, answer);
  }

  // ---- Prefixes of the log ----------------------------------------------------------

  /** After the first `n` records of a rising log, `lastSeq` is the `n`-th number, and the
      records above it are exactly the rest. */
  lemma {:induction false} RisingPrefix(log: seq<Op>, n: nat)
    requires Rising(log) && n <= |log|
    ensures ApplyAll(EMPTY, log[..n]).lastSeq == if n == 0 then 0 else log[n - 1].seqNum
  {
    if n == 0 {
    } else {
      RisingPrefix(log, n - 1);
      assert log[..n][..n - 1] == log[..n - 1];
      var m := ApplyAll(EMPTY, log[..n - 1]);
      ApplyAllTight(EMPTY, log[..n - 1]);
      assert !Stale(m.entries, log[n - 1]);
    }
  }

  lemma {:induction false} AfterRising(log: seq<Op>, n: nat, from: nat)
    requires n <= |log|
    requires forall i :: 0 <= i < n ==> log[i].seqNum <= from
    requires forall i :: n <= i < |log| ==> log[i].seqNum > from
    ensures After(log, from) == log[n..]
    decreases |log|
  {
    if log == [] {
    } else {
      var last := |log| - 1;
      var front := log[..last];
      if n < |log| {
        AfterRising(front, n, from);
        SuffixSplits(log, n);
      } else {
        AfterRising(front, last, from);
      }
    }
  }

  lemma SuffixSplits(log: seq<Op>, n: nat)
    requires n < |log|
    ensures log[n..] == log[..|log| - 1][n..] + [log[|log| - 1]]
  {
  }

  /** A chunk that missed a suffix of the log and replays what it is sent misses nothing. */
  lemma ReplayCatchesUp(c: Chunk, log: seq<Op>, files: seq<string>)
    requires Rising(log) && SafeOps(log) && Behind(c, log) && Listing(files, c.disk)
    ensures var mem := Scan(files, c.disk);
            var r := ReceiveAll(Copy(mem, c.disk), After(log, mem.lastSeq));
            Upto(Chunk(true, r.mem, r.disk), log, |log|)
  {
    hide Mirrors, Listing, Scan, SafeOps, ReceiveAll;
    var n: nat :| Upto(c, log, n);
    var m := ApplyAll(EMPTY, log[..n]);
    ReloadExact(m, c.disk, files);
    RisingPrefix(log, n);
    AfterRising(log, n, m.lastSeq);
    ReplaySuffix(Copy(m, c.disk), log, n);
  }

  lemma ReplaySuffix(c: Copy, log: seq<Op>, n: nat)
    requires n <= |log| && c.mem == ApplyAll(EMPTY, log[..n]) && Mirrors(c.mem, c.disk) && SafeOps(log)
    ensures var r := ReceiveAll(c, log[n..]); Upto(Chunk(true, r.mem, r.disk), log, |log|)
  {
    hide Mirrors;
    assert SafeOps(log[n..]);
    assert log == log[..n] + log[n..] && log[..|log|] == log;
    ApplyAllConcat(EMPTY, log[..n], log[n..]);
    ReceiveAllMem(c, log[n..]);
    StreamKeepsMirror(c, log[n..]);
  }

  /** A current chunk that receives the next record stays current. */
  lemma ReceiveStaysCurrent(c: Chunk, log: seq<Op>, op: Op)
    requires Upto(c, log, |log|) && c.up && Codec.SafeKey(op.key)
    ensures Upto(Received(c, op), log + [op], |log| + 1)
  {
    hide Mirrors, Codec.SafeKey, Persist;
    assert log[..|log|] == log && (log + [op])[..|log| + 1] == log + [op] && (log + [op])[..|log|] == log;
    PersistKeepsMirror(c.mem, c.disk, op, true);
  }

  lemma BehindStays(c: Chunk, log: seq<Op>, op: Op)
    requires Behind(c, log)
    ensures Behind(c, log + [op])
  {
    var n: nat :| Upto(c, log, n);
    assert (log + [op])[..n] == log[..n];
    assert Upto(c, log + [op], n);
  }

  // ---- Blocks keep the invariant -------------------------------------------------------

  lemma LogGrows(log: seq<Op>, counter: nat, op: Op)
    requires LogOk(log, counter) && op.seqNum == counter + 1 && Codec.SafeKey(op.key)
    ensures LogOk(log + [op], counter + 2)
  {
    hide Codec.SafeKey;
    forall i | 0 <= i < |log|
      ensures log[i].seqNum <= counter
    {
      assert log[i] in log;
    }
  }

  lemma WriteKeepsInStep(s: State, op: Op, order: seq<string>) returns (t: State)
    requires InStep(s) && BlockOk(s, WriteAll(op, order))
    ensures Exec(s, Script(s, WriteAll(op, order))) == At(t) && InStep(t)
  {
    t := WriteRuns(s, op, order);
    LogGrows(s.wal, s.counter, op);
    hide Exec, Script, InStep, LogOk, ReceiveEach;
    AfterWrite(s, t, op, order);
  }

  lemma AfterWrite(s: State, t: State, op: Op, order: seq<string>)
    requires InStep(s) && BlockOk(s, WriteAll(op, order))
    requires t.primary == s.primary && t.alive == s.alive && t.tasks == {}
    requires t.counter == s.counter + 2 && t.wal == s.wal + [op]
    requires t.chunks == ReceiveEach(s.chunks, Members(order) + {s.primary}, op)
    requires LogOk(t.wal, t.counter)
    ensures InStep(t)
  {
    hide BlockOk, LogOk, ChunkInStep, Received;
    assert t.chunks.Keys == s.chunks.Keys;
    hide ReceiveEach;
    forall id | id in t.chunks
      ensures ChunkInStep(t, id)
    {
      WriteKeepsChunk(s, t, op, order, id);
    }
  }

  lemma WriteKeepsChunk(s: State, t: State, op: Op, order: seq<string>, id: string)
    requires InStep(s) && BlockOk(s, WriteAll(op, order)) && id in s.chunks
    requires t.primary == s.primary && t.alive == s.alive && t.wal == s.wal + [op]
    requires t.chunks == ReceiveEach(s.chunks, Members(order) + {s.primary}, op)
    ensures ChunkInStep(t, id)
  {
    hide LogOk, Upto, Received, Codec.SafeKey;
    var c := s.chunks[id];
    assert ChunkInStep(s, id);
    ReceivedStaysUp(c, op);
    if id in Members(order) + {s.primary} && c.up {
      assert Current(s, id);
      ReceiveStaysCurrent(c, s.wal, op);
    } else {
      BehindStays(c, s.wal, op);
      assert !Current(t, id);
    }
  }

  lemma ReceivedStaysUp(c: Chunk, op: Op)
    ensures Received(c, op).up == c.up
  {
  }

  lemma RejoinKeepsInStep(s: State, id: string, files: seq<string>) returns (t: State)
    requires InStep(s) && BlockOk(s, Rejoin(id, files))
    ensures Exec(s, Script(s, Rejoin(id, files))) == At(t)
    ensures InStep(t) && t.wal == s.wal && id in t.chunks && t.chunks[id].up && Upto(t.chunks[id], t.wal, |t.wal|)
  {
    t := RejoinRuns(s, id, files);
    assert ChunkInStep(s, id);
    ReplayCatchesUp(s.chunks[id], s.wal, files);
    hide Exec, Script, InStep, Upto, Scan, ReceiveAll;
    AfterRejoin(s, t, id);
  }

  lemma AfterRejoin(s: State, t: State, id: string)
    requires InStep(s) && id in s.chunks && id in t.chunks
    requires t.primary == s.primary && t.alive == s.alive[id := true] && t.tasks == {}
    requires t.counter == s.counter && t.wal == s.wal
    requires t.chunks == s.chunks[id := t.chunks[id]] && Upto(t.chunks[id], t.wal, |t.wal|)
    ensures InStep(t)
  {
    hide LogOk, Upto;
    forall i | i in t.chunks
      ensures ChunkInStep(t, i)
    {
      assert ChunkInStep(s, i);
      assert i == id ==> Behind(t.chunks[i], t.wal);
    }
  }

  lemma FailureKeepsInStep(s: State, b: Block) returns (t: State)
    requires InStep(s) && BlockOk(s, b) && (b.Fail? || b.Doubt? || b.Reboot?)
    ensures Exec(s, Script(s, b)) == At(t) && InStep(t)
  {
    var step := Script(s, b)[0];
    assert Script(s, b) == [step];
    ExecOne(s, step);
    t := Do(s, step);
    hide Exec, Script;
    AfterFailure(s, t, step);
  }

  lemma AfterFailure(s: State, t: State, step: Step)
    requires InStep(s) && Enabled(s, step) && (step.Crash? || step.Suspect? || step.MasterRestart?)
    requires t == Do(s, step)
    ensures InStep(t)
  {
    hide Upto, Behind;
    MaxSeqBounds(s.wal);
    forall id | id in t.chunks
      ensures ChunkInStep(t, id)
    {
      assert ChunkInStep(s, id);
      CrashStaysBehind(s.chunks[id], t.chunks[id], s.wal);
    }
  }

  lemma CrashStaysBehind(c: Chunk, d: Chunk, log: seq<Op>)
    requires Behind(c, log) && (d == c || (d.disk == c.disk && !d.up))
    ensures Behind(d, log)
    ensures Upto(c, log, |log|) ==> Upto(d, log, |log|)
  {
    hide Mirrors;
    var n: nat :| Upto(c, log, n);
    assert Upto(d, log, n);
  }

  lemma BlockKeepsInStep(s: State, b: Block) returns (t: State)
    requires InStep(s) && BlockOk(s, b)
    ensures Exec(s, Script(s, b)) == At(t) && InStep(t)
  {
    hide InStep, Exec, Script;
    match b
    case WriteAll(op, order) => t := WriteKeepsInStep(s, op, order);
    case Rejoin(id, files) => t := RejoinKeepsInStep(s, id, files);
    case _ => t := FailureKeepsInStep(s, b);
  }

  // ---- Whole serial runs ---------------------------------------------------------------

  ghost predicate SerialRun(s: State, blocks: seq<Block>, t: State)
    decreases |blocks|
  {
    if blocks == [] then s == t
    else
      && BlockOk(s, blocks[0])
      && Exec(s, Script(s, blocks[0])).At?
      && SerialRun(Exec(s, Script(s, blocks[0])).state, blocks[1..], t)
  }

  lemma {:induction false} SerialRunKeepsInStep(s: State, blocks: seq<Block>, t: State)
    requires InStep(s) && SerialRun(s, blocks, t)
    ensures InStep(t)
    decreases |blocks|
  {
    hide InStep, Exec, Script, BlockOk;
    if blocks == [] {
    } else {
      var m := BlockKeepsInStep(s, blocks[0]);
      SerialRunKeepsInStep(m, blocks[1..], t);
    }
  }

  /** A serial run is a run of the protocol. */
  lemma {:induction false} SerialRunIsARun(s: State, blocks: seq<Block>, t: State) returns (steps: seq<Step>)
    requires SerialRun(s, blocks, t)
    ensures Exec(s, steps) == At(t)
    decreases |blocks|
  {
    if blocks == [] {
      steps := [];
    } else {
      hide Exec, Script, BlockOk;
      var rest := SerialRunIsARun(Exec(s, Script(s, blocks[0])).state, blocks[1..], t);
      ExecConcat(s, Script(s, blocks[0]), rest);
      steps := Script(s, blocks[0]) + rest;
    }
  }

  lemma InitInStep(s: State)
    requires Init(s)
    ensures InStep(s)
  {
    BlankMirrors();
    forall id | id in s.chunks
      ensures ChunkInStep(s, id)
    {
      assert s.wal[..0] == [];
      assert Upto(s.chunks[id], s.wal, 0);
    }
  }

  /** In every serial run, with master restarts anywhere, what a chunk misses is a suffix of
      the log by number. */
  lemma MissingIsASuffix(s: State, blocks: seq<Block>, t: State, id: string)
    requires Init(s) && SerialRun(s, blocks, t) && id in t.chunks
    ensures Rising(t.wal) && Behind(t.chunks[id], t.wal)
  {
    hide SerialRun;
    InitInStep(s);
    SerialRunKeepsInStep(s, blocks, t);
    assert ChunkInStep(t, id);
  }

  /** And right after rejoining it is fully caught up: it holds exactly what the primary
      holds durably, and that is the whole log. */
  lemma RejoinIsFullyCaughtUp(s: State, blocks: seq<Block>, m: State, id: string, files: seq<string>) returns (t: State)
    requires Init(s) && SerialRun(s, blocks, m) && BlockOk(m, Rejoin(id, files))
    ensures Exec(m, Script(m, Rejoin(id, files))) == At(t)
    ensures id in t.chunks && t.primary in t.chunks && t.chunks[id].up
    ensures t.chunks[id].mem == ApplyAll(EMPTY, t.wal)
    ensures Mirrors(t.chunks[id].mem, t.chunks[t.primary].disk)
  {
    hide SerialRun, Exec, Enabled, Do, Script, BlockOk, SafeDisk, Scan, Listing;
    InitInStep(s);
    SerialRunKeepsInStep(s, blocks, m);
    t := RejoinKeepsInStep(m, id, files);
    hide Rising, SafeOps, Init;
    assert t.wal[..|t.wal|] == t.wal;
    assert ChunkInStep(t, t.primary);
  }
}
