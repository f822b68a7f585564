/** The objects refine the state machine: from matching states, every call on a client, a
    chunk server, a store or the master does what some run of protocol steps does, and
    ends in matching states. File writes succeed here, and a chunk's address is its
    identifier, as the state machine has it. */
module Refinement {
  import opened Lww
  import opened Disk
  import opened Protocol
  import Codec
  import Wals
  import Stores
  import Registries
  import Membership
  import Masters
  import ChunkServers
  import Vaults
  import Guarantees
  import Serial

  // ---- Runs that leave the counter room ------------------------------------------

  /** No restart of the master, and at most `k` numbers consumed. */
  ghost predicate Calm(steps: seq<Step>, k: nat) {
    MasterRestart !in steps && Guarantees.Moves(steps) <= k
  }

  lemma CalmConcat(a: seq<Step>, i: nat, b: seq<Step>, j: nat)
    requires Calm(a, i) && Calm(b, j)
    ensures Calm(a + b, i + j)
  {
    Guarantees.MovesConcat(a, b);
  }

  lemma CalmOne(step: Step)
    requires step != MasterRestart
    ensures Calm([step], Guarantees.Cost(step))
  {
    assert [step][1..] == [];
  }

  lemma CalmTwo(a: Step, b: Step)
    requires a != MasterRestart && b != MasterRestart
    ensures Calm([a, b], Guarantees.Cost(a) + Guarantees.Cost(b))
  {
    CalmOne(a);
    CalmOne(b);
    CalmConcat([a], Guarantees.Cost(a), [b], Guarantees.Cost(b));
    assert [a] + [b] == [a, b];
  }

  /** What a call may rely on: the run keeps the invariant, what was sent stays sent, and it
      is clean while the counter has room. */
  ghost predicate RunsTo(s: State, steps: seq<Step>, t: State, k: nat) {
    && Exec(s, steps) == At(t) && Inv(t)
    && s.net <= t.net && s.acked <= t.acked
    && (s.counter + k < Wals.TWO_64 ==> Guarantees.CleanRun(s, steps, t))
  }

  lemma CalmRunsTo(s: State, steps: seq<Step>, t: State, k: nat)
    requires Inv(s) && Exec(s, steps) == At(t) && Calm(steps, k)
    ensures RunsTo(s, steps, t, k)
  {
    hide Inv, Exec, Guarantees.CleanRun;
    ExecKeepsInv(s, steps);
    Guarantees.HistoryGrows(s, steps);
    if s.counter + k < Wals.TWO_64 {
      Guarantees.ExecIsClean(s, steps, t);
    }
  }

  // ---- One write handler ------------------------------------------------------

  /** Addresses are the chunks' own identifiers, none of them blank. */
  ghost predicate SelfNamed(cs: Registries.Chunks) {
    forall id :: id in cs ==> cs[id].addr == id && id != ""
  }

  function SendSteps(op: Op, rest: seq<string>, dials: set<string>): seq<Step> {
    if rest == [] then [] else [SendReplicate(op, rest, rest[0] in dials)] + SendSteps(op, rest[1..], dials)
  }

  /** The replicates that leave for the listed chunks that accept a connection. */
  function Dialled(op: Op, list: seq<string>, dials: set<string>): set<Msg> {
    set id | id in list && id in dials :: Replicate(id, op)
  }

  ghost predicate NoTaskFor(s: State, op: Op) {
    forall task :: task in s.tasks ==> task.op != op
  }

  lemma {:induction false} SendsRun(s: State, others: set<Task>, op: Op, rest: seq<string>, dials: set<string>)
    returns (t: State)
    requires s.tasks == others + {Sending(op, rest)} && forall task :: task in others ==> task.op != op
    ensures Exec(s, SendSteps(op, rest, dials)) == At(t)
    ensures t == s.(net := s.net + Dialled(op, rest, dials), tasks := others + {Sending(op, [])})
    decreases |rest|
  {
    if rest == [] {
      t := s;
      assert s.net + Dialled(op, rest, dials) == s.net;
    } else {
      var m := SendFirst(s, others, op, rest, rest[0] in dials);
      hide Exec, Enabled, Do;
      t := SendsRun(m, others, op, rest[1..], dials);
      Serial.ExecConcat(s, [SendReplicate(op, rest, rest[0] in dials)], SendSteps(op, rest[1..], dials));
      assert rest == [rest[0]] + rest[1..];
      assert m.net + Dialled(op, rest[1..], dials) == s.net + Dialled(op, rest, dials);
    }
  }

  lemma SendFirst(s: State, others: set<Task>, op: Op, rest: seq<string>, dialled: bool) returns (t: State)
    requires s.tasks == others + {Sending(op, rest)} && forall task :: task in others ==> task.op != op
    requires rest != []
    ensures Exec(s, [SendReplicate(op, rest, dialled)]) == At(t)
    ensures t == s.(net := s.net + (if dialled then {Replicate(rest[0], op)} else {}),
                    tasks := others + {Sending(op, rest[1..])})
  {
    hide Exec;
    var step := SendReplicate(op, rest, dialled);
    Serial.ExecOne(s, step);
    t := Do(s, step);
    assert t.tasks == others + {Sending(op, rest[1..])};
  }

  function HandlerSteps(op: Op, reach: Masters.Reach, order: seq<string>, list: seq<string>, dials: set<string>)
    : seq<Step>
  {
    [PrimaryApply(op), FetchReplicas(op, !reach.Unreached?, reach.Answered?, order)]
    + SendSteps(op, list, dials) + [Finish(op)]
  }

  lemma {:induction false} SendsAreCalm(op: Op, rest: seq<string>, dials: set<string>)
    ensures Calm(SendSteps(op, rest, dials), 0)
    decreases |rest|
  {
    if rest == [] {
    } else {
      SendsAreCalm(op, rest[1..], dials);
      CalmOne(SendReplicate(op, rest, rest[0] in dials));
      CalmConcat([SendReplicate(op, rest, rest[0] in dials)], 0, SendSteps(op, rest[1..], dials), 0);
    }
  }

  lemma HandlerIsCalm(op: Op, reach: Masters.Reach, order: seq<string>, list: seq<string>, dials: set<string>)
    ensures Calm(HandlerSteps(op, reach, order, list, dials), 1)
  {
    var first := [PrimaryApply(op), FetchReplicas(op, !reach.Unreached?, reach.Answered?, order)];
    SendsAreCalm(op, list, dials);
    CalmTwo(first[0], first[1]);
    CalmOne(Finish(op));
    CalmConcat(first, 1, SendSteps(op, list, dials), 0);
    CalmConcat(first + SendSteps(op, list, dials), 1, [Finish(op)], 0);
  }

  /** The state once the primary has handled `op` and worked through `list`. */
  ghost function Handled(s: State, op: Op, reach: Masters.Reach, list: seq<string>, dials: set<string>): State
    requires s.primary in s.chunks
  {
    s.(chunks := s.chunks[s.primary := Received(s.chunks[s.primary], op)],
       counter := if !reach.Unreached? && Listed(s, s.primary) then Wals.Next(s.counter) else s.counter,
       net := s.net + Dialled(op, list, dials) + {Ack(op)},
       applied := s.applied + {op},
       acked := s.acked + {op})
  }

  lemma HandlerRuns(s: State, op: Op, reach: Masters.Reach, order: seq<string>, dials: set<string>)
    returns (list: seq<string>, t: State)
    requires Up(s, s.primary) && WriteRequest(op) in s.net && NoTaskFor(s, op)
    requires !reach.Unreached? && Listed(s, s.primary) ==> Registries.Enumerates(order, AliveOthers(s))
    ensures list == if reach.Answered? && Listed(s, s.primary) then order else []
    ensures Exec(s, HandlerSteps(op, reach, order, list, dials)) == At(t)
    ensures t == Handled(s, op, reach, list, dials)
  {
    var first := [PrimaryApply(op), FetchReplicas(op, !reach.Unreached?, reach.Answered?, order)];
    var m;
    list, m := HandlerStarts(s, op, reach, order);
    var u := SendsRun(m, s.tasks, op, list, dials);
    t := HandlerEnds(u, s.tasks, op);
    hide Exec, Received, SendSteps, Dialled;
    Serial.ExecChain(s, first, m, SendSteps(op, list, dials), u, [Finish(op)], t);
  }

  lemma HandlerStarts(s: State, op: Op, reach: Masters.Reach, order: seq<string>) returns (list: seq<string>, t: State)
    requires Up(s, s.primary) && WriteRequest(op) in s.net && NoTaskFor(s, op)
    requires !reach.Unreached? && Listed(s, s.primary) ==> Registries.Enumerates(order, AliveOthers(s))
    ensures list == if reach.Answered? && Listed(s, s.primary) then order else []
    ensures Exec(s, [PrimaryApply(op), FetchReplicas(op, !reach.Unreached?, reach.Answered?, order)]) == At(t)
    ensures t == s.(chunks := s.chunks[s.primary := Received(s.chunks[s.primary], op)],
                    counter := if !reach.Unreached? && Listed(s, s.primary) then Wals.Next(s.counter) else s.counter,
                    tasks := s.tasks + {Sending(op, list)}, applied := s.applied + {op})
  {
    hide Exec, Received, Registries.Enumerates;
    var fetch := FetchReplicas(op, !reach.Unreached?, reach.Answered?, order);
    list := if reach.Answered? && Listed(s, s.primary) then order else [];
    var m := Do(s, PrimaryApply(op));
    Serial.ExecOne(s, PrimaryApply(op));
    assert AliveOthers(m) == AliveOthers(s);
    Serial.ExecThen(s, [PrimaryApply(op)], m, fetch);
    assert [PrimaryApply(op)] + [fetch] == [PrimaryApply(op), fetch];
    t := Do(m, fetch);
    assert s.tasks + {Fetching(op)} - {Fetching(op)} == s.tasks;
  }

  lemma HandlerEnds(s: State, others: set<Task>, op: Op) returns (t: State)
    requires s.tasks == others + {Sending(op, [])} && forall task :: task in others ==> task.op != op
    ensures Exec(s, [Finish(op)]) == At(t)
    ensures t == s.(tasks := others, net := s.net + {Ack(op)}, acked := s.acked + {op})
  {
    hide Exec;
    Serial.ExecOne(s, Finish(op));
    t := Do(s, Finish(op));
    assert t.tasks == others;
  }

  lemma {:induction false} AddrsAreIds(cs: Registries.Chunks, ids: seq<string>)
    requires SelfNamed(cs) && forall id :: id in ids ==> id in cs
    ensures Masters.AddrsOf(cs, ids) == ids
    decreases |ids|
  {
    if ids == [] {
    } else {
      AddrsAreIds(cs, ids[..|ids| - 1]);
    }
  }

  lemma ListedIffUp(s: State, cs: Registries.Chunks)
    requires s.alive == Membership.Shown(cs) && SelfNamed(cs)
    ensures Listed(s, s.primary) <==> Masters.PrimaryUp(cs, s.primary)
    ensures AliveOthers(s) == Registries.AliveIds(cs) - {s.primary}
  {
    Membership.ListedIsAlive(s, cs);
  }

  /** The messages of a handler as they travel in the state machine. */
  function OnWire(sent: seq<ChunkServers.Message>): set<Msg> {
    set m | m in sent :: Replicate(m.addr, m.op)
  }

  /** What a handler sends is what some enumeration of the other alive chunks gives. */
  lemma SentIsDialled(s: State, cs: Registries.Chunks, reach: Masters.Reach, dials: set<string>, op: Op,
                      sent: seq<ChunkServers.Message>)
    returns (order: seq<string>)
    requires s.alive == Membership.Shown(cs) && SelfNamed(cs)
    requires ChunkServers.Replicates(reach.Answered?, cs, s.primary, dials, op, sent)
    ensures Registries.Enumerates(order, AliveOthers(s))
    ensures OnWire(sent) == Dialled(op, if reach.Answered? && Listed(s, s.primary) then order else [], dials)
  {
    ListedIffUp(s, cs);
    if reach.Answered? && Listed(s, s.primary) {
      var replicas :| Masters.ReplicaSplit(cs, s.primary, replicas) && sent == ChunkServers.Fanout(replicas, dials, op);
      order :| Registries.Enumerates(order, AliveOthers(s)) && replicas == Masters.AddrsOf(cs, order);
      AddrsAreIds(cs, order);
      ChunkServers.FanoutReaches(order, dials, op);
      hide ChunkServers.Fanout;
      WireIsDialled(order, dials, op, sent);
    } else {
      order := Guarantees.SomeListing(AliveOthers(s));
    }
  }

  lemma WireIsDialled(order: seq<string>, dials: set<string>, op: Op, sent: seq<ChunkServers.Message>)
    requires forall m :: m in sent <==> m.op == op && m.addr in order && m.addr in dials
    ensures OnWire(sent) == Dialled(op, order, dials)
  {
    forall msg | msg in Dialled(op, order, dials)
      ensures msg in OnWire(sent)
    {
      assert ChunkServers.Message(msg.dest, op) in sent;
    }
  }

  // ---- A whole client operation ---------------------------------------------------

  /** What a client operation leaves behind: the primary's copy if the request arrives, the
      log, the counter and the messages sent. */
  ghost predicate Effect(s: State, t: State, op: Op, luck: Vaults.Luck, up: bool,
                         sent: set<Msg>, log: seq<Op>, after: Copy) {
    var arrives := Vaults.Arrives(luck, up);
    && t.primary == s.primary && t.alive == s.alive && t.tasks == s.tasks && t.hands == s.hands
    && t.chunks == (if arrives then s.chunks[s.primary := Chunk(true, after.mem, after.disk)] else s.chunks)
    && t.wal == log
    && t.counter == Vaults.CounterAfter(s.counter, up, luck, true)
    && t.net == s.net + (if arrives then {WriteRequest(op), Ack(op)} + sent else {})
                + (if log != s.wal then {WALNotify(op)} else {})
    && t.acked == s.acked + (if arrives then {op} else {})
  }

  /** A client may send this operation next. */
  ghost predicate Sendable(s: State, op: Op) {
    && op.seqNum == Wals.Next(s.counter) && Codec.SafeKey(op.key) && (op.isDelete ==> op.value == [])
    && NoTaskFor(s, op)
  }

  /** Any save or delete, however far it gets, is a run of the protocol; the primary need
      only be running for a request that arrives. */
  lemma ClientRefines(s: State, cs: Registries.Chunks, op: Op, outcome: Vaults.Outcome, luck: Vaults.Luck,
                      sent: seq<ChunkServers.Message>, log: seq<Op>, before: Copy, after: Copy)
    returns (steps: seq<Step>, t: State)
    requires s.alive == Membership.Shown(cs) && SelfNamed(cs) && Sendable(s, op) && luck.diskOk
    requires var up := Masters.PrimaryUp(cs, s.primary);
             && (Vaults.Arrives(luck, up) ==>
                   Up(s, s.primary) && s.chunks[s.primary] == Chunk(true, before.mem, before.disk))
             && Vaults.Ordered(op, outcome, luck, up, s.wal, log, before, after)
             && if Vaults.Arrives(luck, up)
                then ChunkServers.Replicates(luck.replicaQuery.Answered?, cs, s.primary, luck.dials, op, sent)
                else sent == []
    ensures Exec(s, steps) == At(t) && Calm(steps, 2)
    ensures Effect(s, t, op, luck, Masters.PrimaryUp(cs, s.primary), OnWire(sent), log, after)
  {
    ListedIffUp(s, cs);
    if luck.query.Unreached? || !Listed(s, s.primary) {
      steps, t := [], s;
    } else if !Vaults.Arrives(luck, true) {
      steps, t := NumberBurnt(s);
    } else {
      var order := SentIsDialled(s, cs, luck.replicaQuery, luck.dials, op, sent);
      hide ChunkServers.Replicates, SelfNamed, Codec.SafeKey, OnWire, Dialled, Calm;
      steps, t := RequestRuns(s, op, luck.replicaQuery, order, luck.dials, log != s.wal);
    }
  }

  /** A number issued to a client that gives up. */
  lemma NumberBurnt(s: State) returns (steps: seq<Step>, t: State)
    requires Listed(s, s.primary)
    ensures Exec(s, steps) == At(t) && Calm(steps, 2)
    ensures t == s.(counter := Wals.Next(s.counter))
  {
    hide Exec;
    var n := Wals.Next(s.counter);
    var m := Do(s, Issue);
    Serial.ExecOne(s, Issue);
    Serial.ExecThen(s, [Issue], m, Abandon(n));
    CalmOne(Issue);
    CalmOne(Abandon(n));
    CalmConcat([Issue], 1, [Abandon(n)], 0);
    steps, t := [Issue] + [Abandon(n)], Do(m, Abandon(n));
    assert t.hands == s.hands;
  }

  lemma RequestSent(s: State, op: Op) returns (t: State)
    requires Listed(s, s.primary) && Sendable(s, op)
    ensures Exec(s, [Issue, SendWrite(op)]) == At(t)
    ensures t == s.(counter := Wals.Next(s.counter), net := s.net + {WriteRequest(op)}, bound := s.bound + {op})
  {
    hide Exec, Codec.SafeKey;
    var m := Do(s, Issue);
    Serial.ExecOne(s, Issue);
    Serial.ExecThen(s, [Issue], m, SendWrite(op));
    assert [Issue] + [SendWrite(op)] == [Issue, SendWrite(op)];
    t := Do(m, SendWrite(op));
    assert t.hands == s.hands;
  }

  /** A request that reaches the primary, and its notice if that gets through. */
  lemma RequestRuns(s: State, op: Op, reach: Masters.Reach, order: seq<string>, dials: set<string>, logged: bool)
    returns (steps: seq<Step>, t: State)
    requires Listed(s, s.primary) && Up(s, s.primary) && Sendable(s, op)
    requires Registries.Enumerates(order, AliveOthers(s))
    ensures Exec(s, steps) == At(t) && Calm(steps, 2)
    ensures t == s.(chunks := s.chunks[s.primary := Received(s.chunks[s.primary], op)],
                    counter := if reach.Unreached? then Wals.Next(s.counter) else Wals.Next(Wals.Next(s.counter)),
                    wal := if logged then s.wal + [op] else s.wal,
                    net := s.net + {WriteRequest(op)} + Dialled(op, if reach.Answered? then order else [], dials)
                           + {Ack(op)} + (if logged then {WALNotify(op)} else {}),
                    bound := s.bound + {op}, applied := s.applied + {op}, acked := s.acked + {op})
  {
    var m := RequestSent(s, op);
    assert AliveOthers(m) == AliveOthers(s);
    var list, u := HandlerRuns(m, op, reach, order, dials);
    CalmTwo(Issue, SendWrite(op));
    hide Exec, Codec.SafeKey, Received, Dialled, HandlerSteps, Registries.Enumerates, AliveOthers, Calm;
    var notice;
    notice, t := NoticeRuns(u, op, logged);
    var request, handler := [Issue, SendWrite(op)], HandlerSteps(op, reach, order, list, dials);
    steps := request + handler + notice;
    Serial.ExecChain(s, request, m, handler, u, notice, t);
    HandlerIsCalm(op, reach, order, list, dials);
    CalmConcat(request, 1, handler, 1);
    CalmConcat(request + handler, 2, notice, 0);
  }

  lemma NoticeRuns(s: State, op: Op, logged: bool) returns (steps: seq<Step>, t: State)
    requires Ack(op) in s.net
    ensures Exec(s, steps) == At(t) && Calm(steps, 0)
    ensures t == s.(wal := if logged then s.wal + [op] else s.wal,
                    net := s.net + if logged then {WALNotify(op)} else {})
  {
    if logged {
      hide Exec;
      var m := Do(s, NotifyMaster(op));
      Serial.ExecOne(s, NotifyMaster(op));
      Serial.ExecThen(s, [NotifyMaster(op)], m, LogWrite(op));
      CalmTwo(NotifyMaster(op), LogWrite(op));
      assert [NotifyMaster(op)] + [LogWrite(op)] == [NotifyMaster(op), LogWrite(op)];
      steps, t := [NotifyMaster(op)] + [LogWrite(op)], Do(m, LogWrite(op));
    } else {
      steps, t := [], s;
    }
  }

  // ---- Registration ------------------------------------------------------------------

  /** A registration and the replay of its answer are a run of the protocol. */
  lemma RegistrationRuns(s: State, id: string) returns (steps: seq<Step>, t: State)
    requires Up(s, id)
    ensures Exec(s, steps) == At(t) && Calm(steps, 0)
    ensures var c := s.chunks[id];
            var r := ReceiveAll(Copy(c.mem, c.disk), Wals.After(s.wal, c.mem.lastSeq));
            t == s.(chunks := s.chunks[id := Chunk(true, r.mem, r.disk)], alive := s.alive[id := true], net := t.net)
    ensures var n := s.chunks[id].mem.lastSeq;
            t.net == s.net + {RegisterChunk(id, n)} + set op | op in s.wal && op.seqNum > n :: Recovery(id, op)
  {
    Wals.AfterHas(s.wal, s.chunks[id].mem.lastSeq);
    var lastSeq := s.chunks[id].mem.lastSeq;
    var missed := Wals.After(s.wal, lastSeq);
    hide Exec, Wals.After, ReceiveAll;
    var ask, answer := AskRegister(id), AnswerRegister(id, lastSeq);
    var m := Do(s, ask);
    Serial.ExecOne(s, ask);
    Serial.ExecThen(s, [ask], m, answer);
    var u := Do(m, answer);
    t := Serial.ReplayRuns(u, id, missed);
    Serial.ExecConcat(s, [ask] + [answer], Serial.ReplaySteps(id, missed));
    ReplayIsCalm(id, missed);
    CalmTwo(ask, answer);
    assert [ask] + [answer] == [ask, answer];
    CalmConcat([ask] + [answer], 0, Serial.ReplaySteps(id, missed), 0);
    steps := [ask] + [answer] + Serial.ReplaySteps(id, missed);
  }

  lemma {:induction false} ReplayIsCalm(id: string, entries: seq<Op>)
    ensures Calm(Serial.ReplaySteps(id, entries), 0)
    decreases |entries|
  {
    if entries == [] {
    } else {
      var front, op := entries[..|entries| - 1], entries[|entries| - 1];
      ReplayIsCalm(id, front);
      CalmOne(DeliverRecovery(id, op));
      CalmConcat(Serial.ReplaySteps(id, front), 0, [DeliverRecovery(id, op)], 0);
    }
  }

  lemma {:induction false} SuspicionsAreCalm(steps: seq<Step>)
    requires Membership.AllSuspicions(steps)
    ensures Calm(steps, 0)
    decreases |steps|
  {
    if steps == [] {
    } else {
      assert steps == [steps[0]] + steps[1..];
      SuspicionsAreCalm(steps[1..]);
      assert steps[0].Suspect?;
      CalmOne(steps[0]);
      CalmConcat([steps[0]], 0, steps[1..], 0);
    }
  }

  // ---- The simulation ------------------------------------------------------------------

  /** The running system at one moment: the master's fields, and the memory and files of
      every running chunk. */
  datatype World = World(
    primary: string, counter: nat, wal: seq<Op>, members: Registries.Chunks, views: map<string, Copy>)

  /** The state shows the world: the same master, the running chunks as viewed, the other
      chunks down, and no call under way. */
  ghost predicate Pictures(s: State, w: World) {
    && s.primary == w.primary && s.counter == w.counter && s.wal == w.wal
    && Registries.Keyed(w.members) && SelfNamed(w.members) && s.alive == Membership.Shown(w.members)
    && ChunksShown(s.chunks, w.views)
    && s.tasks == {} && s.hands == multiset{}
  }

  ghost predicate ChunksShown(chunks: map<string, Chunk>, views: map<string, Copy>) {
    && views.Keys <= chunks.Keys
    && forall id :: id in chunks ==>
         if id in views then chunks[id] == Chunk(true, views[id].mem, views[id].disk) else !chunks[id].up
  }

  lemma ViewChanges(chunks: map<string, Chunk>, views: map<string, Copy>, id: string, view: Copy)
    requires ChunksShown(chunks, views) && id in chunks
    ensures ChunksShown(chunks[id := Chunk(true, view.mem, view.disk)], views[id := view])
  {
  }

  /** A client operation takes one world to another: as `Ordered` says for the primary's copy
      and the log, and nothing else but the counter moves. A primary that does not run is not
      dialled. */
  ghost predicate Acts(w: World, w': World, op: Op, outcome: Vaults.Outcome, luck: Vaults.Luck,
                       sent: seq<ChunkServers.Message>, before: Copy, after: Copy) {
    var up := Masters.PrimaryUp(w.members, w.primary);
    && (if w.primary in w.views then before == w.views[w.primary] else !luck.dialled)
    && Vaults.Ordered(op, outcome, luck, up, w.wal, w'.wal, before, after)
    && (if Vaults.Arrives(luck, up)
        then ChunkServers.Replicates(luck.replicaQuery.Answered?, w.members, w.primary, luck.dials, op, sent)
        else sent == [])
    && w' == w.(counter := Vaults.CounterAfter(w.counter, up, luck, true), wal := w'.wal,
                views := if w.primary in w.views then w.views[w.primary := after] else w.views)
  }

  /** The messages of a client operation: the request, its acknowledgement and the replicates
      if it arrives, the notice to the master if it is logged. */
  function Traffic(op: Op, arrives: bool, logged: bool, sent: seq<ChunkServers.Message>): set<Msg> {
    (if arrives then {WriteRequest(op), Ack(op)} + OnWire(sent) else {}) + (if logged then {WALNotify(op)} else {})
  }

  /** Told at the level of the state, without looking into the objects: the operation reports
      success exactly when the master answers, lists the primary, and everything up to the
      primary's answer gets through; it is logged exactly when the notice gets through too;
      and it sends just this. */
  ghost predicate Reported(s: State, t: State, op: Op, outcome: Vaults.Outcome, luck: Vaults.Luck,
                           sent: seq<ChunkServers.Message>) {
    var arrives := luck.query.Answered? && Listed(s, s.primary) && luck.dialled && luck.delivered;
    var logged := arrives && luck.responded && luck.notified;
    && (outcome == Vaults.Saved <==> arrives && luck.responded)
    && t.wal == (if logged then s.wal + [op] else s.wal)
    && t.acked == (if arrives then s.acked + {op} else s.acked)
    && t.net == s.net + Traffic(op, arrives, logged, sent)
  }

  /** The world after a client operation is pictured by the state its run ends in. */
  lemma ClientKeeps(s: State, w: World, w': World, op: Op, outcome: Vaults.Outcome, luck: Vaults.Luck,
                    sent: seq<ChunkServers.Message>, before: Copy, after: Copy)
    returns (steps: seq<Step>, t: State)
    requires Pictures(s, w) && Inv(s) && luck.diskOk && Acts(w, w', op, outcome, luck, sent, before, after)
    requires op.seqNum == Wals.Next(w.counter) && Codec.SafeKey(op.key) && (op.isDelete ==> op.value == [])
    ensures RunsTo(s, steps, t, 2) && Pictures(t, w')
    ensures Reported(s, t, op, outcome, luck, sent)
  {
    hide Codec.SafeKey, ChunkServers.Replicates, Inv, RunsTo, Calm, Apply, Persist, SelfNamed, Registries.Keyed, Exec,
         Membership.Shown, ChunksShown, Masters.PrimaryUp, OnWire;
    var up := Masters.PrimaryUp(w.members, w.primary);
    if Vaults.Arrives(luck, up) {
      PrimaryShown(s, w);
    }
    steps, t := ClientRefines(s, w.members, op, outcome, luck, sent, w'.wal, before, after);
    CalmRunsTo(s, steps, t, 2);
    if Vaults.Arrives(luck, up) {
      ViewChanges(s.chunks, w.views, w.primary, after);
    } else if w.primary in w.views {
      assert w.views[w.primary := before] == w.views;
    }
    NothingOnWire();
    ReportsWhatItDid(s, t, w, w', op, outcome, luck, sent, before, after);
  }

  lemma ReportsWhatItDid(s: State, t: State, w: World, w': World, op: Op, outcome: Vaults.Outcome, luck: Vaults.Luck,
                         sent: seq<ChunkServers.Message>, before: Copy, after: Copy)
    requires Pictures(s, w) && luck.diskOk && Acts(w, w', op, outcome, luck, sent, before, after)
    requires Effect(s, t, op, luck, Masters.PrimaryUp(w.members, w.primary), OnWire(sent), w'.wal, after)
    ensures Reported(s, t, op, outcome, luck, sent)
  {
    ListedIffUp(s, w.members);
    hide OnWire, Masters.PrimaryUp, ChunkServers.Replicates, SelfNamed, Membership.Shown, Listed, ChunksShown, Apply,
         Persist, AliveOthers, Registries.AliveIds;
    assert w'.wal != w.wal <==> outcome == Vaults.Saved && luck.notified by {
      if outcome == Vaults.Saved && luck.notified {
        assert |w'.wal| == |w.wal| + 1;
      }
    }
  }

  lemma UndialledChangesNothing(op: Op, outcome: Vaults.Outcome, luck: Vaults.Luck, up: bool,
                                logBefore: seq<Op>, logAfter: seq<Op>, before: Copy, after: Copy)
    requires Vaults.Ordered(op, outcome, luck, up, logBefore, logAfter, before, after) && !luck.dialled
    ensures after == before
  {
  }

  lemma NothingOnWire()
    ensures OnWire([]) == {}
  {
  }

  lemma PrimaryShown(s: State, w: World)
    requires Pictures(s, w) && w.primary in w.views
    ensures Up(s, s.primary)
    ensures s.chunks[s.primary] == Chunk(true, w.views[w.primary].mem, w.views[w.primary].disk)
  {
  }

  /** What a registration makes of a world. */
  ghost function Joined(w: World, id: string, now: int): World
    requires id in w.views
  {
    var view := w.views[id];
    w.(members := Registries.Registered(w.members, id, id, view.mem.lastSeq, now),
       views := w.views[id := ReceiveAll(view, Wals.After(w.wal, view.mem.lastSeq))])
  }

  lemma RegistrationKeeps(s: State, w: World, id: string, now: int) returns (steps: seq<Step>, t: State)
    requires Pictures(s, w) && Inv(s) && id in w.views && id != ""
    ensures RunsTo(s, steps, t, 0) && Pictures(t, Joined(w, id, now))
    ensures var n := w.views[id].mem.lastSeq;
            t.net == s.net + {RegisterChunk(id, n)} + set op | op in s.wal && op.seqNum > n :: Recovery(id, op)
  {
    hide Exec, ReceiveAll, Wals.After, Inv, RunsTo, Calm;
    var view := w.views[id];
    steps, t := RegistrationRuns(s, id);
    CalmRunsTo(s, steps, t, 0);
    RegisteredShows(w.members, id, view.mem.lastSeq, now);
    hide ChunksShown, SelfNamed, Registries.Keyed, Membership.Shown, Registries.Registered;
    ViewChanges(s.chunks, w.views, id, ReceiveAll(view, Wals.After(w.wal, view.mem.lastSeq)));
  }

  lemma RegisteredShows(members: Registries.Chunks, id: string, lastSeq: nat, now: int)
    requires Registries.Keyed(members) && SelfNamed(members) && id != ""
    ensures var after := Registries.Registered(members, id, id, lastSeq, now);
            && Registries.Keyed(after) && SelfNamed(after)
            && Membership.Shown(after) == Membership.Shown(members)[id := true]
  {
  }

  /** One step other than a restart or one that moves the counter. */
  lemma OneStep(s: State, step: Step) returns (steps: seq<Step>, t: State)
    requires Inv(s) && Enabled(s, step) && Guarantees.Cost(step) == 0 && step != MasterRestart
    ensures steps == [step] && t == Do(s, step) && RunsTo(s, steps, t, 0)
  {
    hide Inv, Exec, Enabled, Do, RunsTo;
    Serial.ExecOne(s, step);
    CalmOne(step);
    steps, t := [step], Do(s, step);
    CalmRunsTo(s, steps, t, 0);
  }

  /** And for a crash. */
  lemma CrashKeeps(s: State, w: World, id: string) returns (steps: seq<Step>, t: State)
    requires Pictures(s, w) && Inv(s) && id in w.views
    ensures RunsTo(s, steps, t, 0) && Pictures(t, w.(views := w.views - {id}))
    ensures id in t.chunks && t.chunks[id].disk == w.views[id].disk
    ensures t.net == s.net && t.acked == s.acked
  {
    hide Inv, RunsTo, SelfNamed, Registries.Keyed;
    steps, t := OneStep(s, Crash(id));
  }

  lemma ReloadStep(s: State, id: string, files: seq<string>)
    requires id in s.chunks && !s.chunks[id].up && Listing(files, s.chunks[id].disk)
    ensures var disk := s.chunks[id].disk;
            && Enabled(s, Restart(id, files))
            && Do(s, Restart(id, files)) == s.(chunks := s.chunks[id := Chunk(true, Scan(files, disk), disk)])
  {
  }

  /** And for a reload of a chunk that is down. */
  lemma ReloadKeeps(s: State, w: World, id: string, files: seq<string>) returns (steps: seq<Step>, t: State)
    requires Pictures(s, w) && Inv(s) && id in s.chunks && id !in w.views && Listing(files, s.chunks[id].disk)
    ensures RunsTo(s, steps, t, 0) && t.net == s.net && t.acked == s.acked
    ensures var disk := s.chunks[id].disk; Pictures(t, w.(views := w.views[id := Copy(Scan(files, disk), disk)]))
  {
    ReloadStep(s, id, files);
    var disk := s.chunks[id].disk;
    var mem := Scan(files, disk);
    ViewChanges(s.chunks, w.views, id, Copy(mem, disk));
    hide Inv, RunsTo, SelfNamed, Registries.Keyed, Scan, Listing, Exec, Do, Enabled, ChunksShown;
    steps, t := OneStep(s, Restart(id, files));
  }

  // ---- Calls on the objects ---------------------------------------------------------------

  /** The running chunk servers, by identifier. */
  type Servers = map<string, ChunkServers.Server>

  ghost function Views(servers: Servers): map<string, Copy>
    reads set id | id in servers :: servers[id].store
  {
    map id | id in servers :: servers[id].store.View()
  }

  /** Every server goes by its own identifier, and no two share a store. */
  ghost predicate Distinct(servers: Servers) {
    && (forall id :: id in servers ==> servers[id].id == id)
    && (forall i, j :: i in servers && j in servers && i != j ==> servers[i].store != servers[j].store)
  }

  ghost function WorldOf(master: Masters.Server, servers: Servers): World
    reads master.registry, master.meta, master.wal, set id | id in servers :: servers[id].store
  {
    World(master.meta.primary, master.meta.seqNum, master.wal.entries, master.registry.chunks, Views(servers))
  }

  /** The state matches all the objects of the running system. */
  ghost predicate Matches(s: State, master: Masters.Server, servers: Servers)
    reads master.registry, master.meta, master.wal, set id | id in servers :: servers[id].store
  {
    Distinct(servers) && Pictures(s, WorldOf(master, servers))
  }

  /** A call that changes one chunk's store changes one view. */
  lemma OneViewChanges(was: map<string, Copy>, servers: Servers, id: string)
    requires was.Keys == servers.Keys && id in servers
    requires forall i :: i in servers && i != id ==> servers[i].store.View() == was[i]
    ensures Views(servers) == was[id := servers[id].store.View()]
  {
  }

  /** The first process of a master, before any chunk has started. */
  method StartRefines(primary: string, ghost s: State) returns (master: Masters.Server)
    requires Init(s) && s.primary == primary && forall id :: id in s.chunks ==> !s.chunks[id].up
    ensures fresh(master) && fresh(master.registry) && fresh(master.meta) && fresh(master.wal)
    ensures Matches(s, master, map[])
  {
    master := new Masters.Server(primary, []);
  }

  /** A save at the level of worlds. */
  method SaveActs(client: Vaults.Client, site: string, ciphertext: Bytes, master: Masters.Server,
                   primary: ChunkServers.Server, luck: Vaults.Luck, servers: Servers)
    returns (outcome: Vaults.Outcome, sent: seq<ChunkServers.Message>, ghost before: Copy, ghost after: Copy)
    requires master.Valid() && Distinct(servers) && luck.diskOk
    requires if master.meta.primary in servers then primary == servers[master.meta.primary] else !luck.dialled
    modifies master.meta, master.wal, primary.store
    ensures Acts(old(WorldOf(master, servers)), WorldOf(master, servers),
                 Op(Vaults.EntryKey(client.username, site), ciphertext, Wals.Next(old(master.meta.seqNum)), false),
                 outcome, luck, sent, before, after)
  {
    ghost var w, op := WorldOf(master, servers),
                       Op(Vaults.EntryKey(client.username, site), ciphertext, Wals.Next(master.meta.seqNum), false);
    before := primary.store.View();
    hide ChunkServers.Replicates, Masters.PrimaryUp, Vaults.CounterAfter, Vaults.Arrives, Vaults.Ordered;
    outcome, sent := client.Save(site, ciphertext, master, primary, luck);
    after := primary.store.View();
    if w.primary in servers {
      OneViewChanges(w.views, servers, w.primary);
    } else {
      UndialledChangesNothing(op, outcome, luck, Masters.PrimaryUp(w.members, w.primary), w.wal, master.wal.entries,
                              before, after);
      assert Views(servers) == w.views;
    }
  }

  /** A save on the running system. `primary` is the primary's process, running or not; one
      that does not run cannot be dialled. */
  method SaveRefines(client: Vaults.Client, site: string, ciphertext: Bytes, master: Masters.Server,
                     primary: ChunkServers.Server, luck: Vaults.Luck, servers: Servers, ghost s: State)
    returns (outcome: Vaults.Outcome, sent: seq<ChunkServers.Message>, ghost steps: seq<Step>, ghost t: State)
    requires Matches(s, master, servers) && Inv(s) && luck.diskOk
    requires if s.primary in servers then primary == servers[s.primary] else !luck.dialled
    requires Codec.SafeKey(Vaults.EntryKey(client.username, site))
    modifies master.meta, master.wal, primary.store
    ensures RunsTo(s, steps, t, 2) && Matches(t, master, servers)
    ensures Reported(s, t, Op(client.username + "/" + site, ciphertext, Wals.Next(s.counter), false),
                     outcome, luck, sent)
  {
    ghost var w := WorldOf(master, servers);
    assert w.primary == s.primary && w.counter == s.counter && Registries.Keyed(w.members);
    hide Codec.SafeKey, Inv, RunsTo, Acts, OnWire, Pictures, Views, Reported;
    ghost var op := Op(Vaults.EntryKey(client.username, site), ciphertext, Wals.Next(s.counter), false);
    ghost var before, after;
    outcome, sent, before, after := SaveActs(client, site, ciphertext, master, primary, luck, servers);
    steps, t := ClientKeeps(s, w, WorldOf(master, servers), op, outcome, luck, sent, before, after);
  }

  method DeleteActs(client: Vaults.Client, site: string, master: Masters.Server,
                   primary: ChunkServers.Server, luck: Vaults.Luck, servers: Servers)
    returns (outcome: Vaults.Outcome, sent: seq<ChunkServers.Message>, ghost before: Copy, ghost after: Copy)
    requires master.Valid() && Distinct(servers) && luck.diskOk
    requires if master.meta.primary in servers then primary == servers[master.meta.primary] else !luck.dialled
    modifies master.meta, master.wal, primary.store
    ensures Acts(old(WorldOf(master, servers)), WorldOf(master, servers),
                 Op(Vaults.EntryKey(client.username, site), [], Wals.Next(old(master.meta.seqNum)), true),
                 outcome, luck, sent, before, after)
  {
    ghost var w, op := WorldOf(master, servers),
                       Op(Vaults.EntryKey(client.username, site), [], Wals.Next(master.meta.seqNum), true);
    before := primary.store.View();
    hide ChunkServers.Replicates, Masters.PrimaryUp, Vaults.CounterAfter, Vaults.Arrives, Vaults.Ordered;
    outcome, sent := client.Delete(site, master, primary, luck);
    after := primary.store.View();
    if w.primary in servers {
      OneViewChanges(w.views, servers, w.primary);
    } else {
      UndialledChangesNothing(op, outcome, luck, Masters.PrimaryUp(w.members, w.primary), w.wal, master.wal.entries,
                              before, after);
      assert Views(servers) == w.views;
    }
  }

  method DeleteRefines(client: Vaults.Client, site: string, master: Masters.Server,
                       primary: ChunkServers.Server, luck: Vaults.Luck, servers: Servers, ghost s: State)
    returns (outcome: Vaults.Outcome, sent: seq<ChunkServers.Message>, ghost steps: seq<Step>, ghost t: State)
    requires Matches(s, master, servers) && Inv(s) && luck.diskOk
    requires if s.primary in servers then primary == servers[s.primary] else !luck.dialled
    requires Codec.SafeKey(Vaults.EntryKey(client.username, site))
    modifies master.meta, master.wal, primary.store
    ensures RunsTo(s, steps, t, 2) && Matches(t, master, servers)
    ensures Reported(s, t, Op(client.username + "/" + site, [], Wals.Next(s.counter), true), outcome, luck, sent)
  {
    ghost var w := WorldOf(master, servers);
    assert w.primary == s.primary && w.counter == s.counter && Registries.Keyed(w.members);
    hide Codec.SafeKey, Inv, RunsTo, Acts, OnWire, Pictures, Views, Reported;
    ghost var op := Op(Vaults.EntryKey(client.username, site), [], Wals.Next(s.counter), true);
    ghost var before, after;
    outcome, sent, before, after := DeleteActs(client, site, master, primary, luck, servers);
    steps, t := ClientKeeps(s, w, WorldOf(master, servers), op, outcome, luck, sent, before, after);
  }

  method RegisterActs(id: string, master: Masters.Server, now: int, servers: Servers)
    requires master.Valid() && Distinct(servers) && id in servers
    modifies servers[id].store, master.registry
    ensures WorldOf(master, servers) == Joined(old(WorldOf(master, servers)), id, now)
  {
    hide ReceiveAll, ApplyAll, Wals.After, Registries.Registered;
    ghost var w := WorldOf(master, servers);
    servers[id].RegisterWithMaster(master, id, now);
    OneViewChanges(w.views, servers, id);
  }

  method RegisterRefines(id: string, master: Masters.Server, now: int, servers: Servers, ghost s: State)
    returns (ghost steps: seq<Step>, ghost t: State)
    requires Matches(s, master, servers) && Inv(s) && id in servers && id != ""
    modifies servers[id].store, master.registry
    ensures RunsTo(s, steps, t, 0) && Matches(t, master, servers)
    ensures var n := old(servers[id].store.lastSeq);
            t.net == s.net + {RegisterChunk(id, n)} + set op | op in s.wal && op.seqNum > n :: Recovery(id, op)
  {
    ghost var w := WorldOf(master, servers);
    assert Registries.Keyed(w.members);
    hide Inv, RunsTo, Pictures, Joined;
    steps, t := RegistrationKeeps(s, w, id, now);
    RegisterActs(id, master, now, servers);
  }

  method ReplicateRefines(id: string, op: Op, master: Masters.Server, servers: Servers, ghost s: State)
    returns (ok: bool, ghost steps: seq<Step>, ghost t: State)
    requires Matches(s, master, servers) && Inv(s) && id in servers && Replicate(id, op) in s.net
    modifies servers[id].store
    ensures RunsTo(s, steps, t, 0) && Matches(t, master, servers)
    ensures steps == [DeliverReplicate(id, op)] && t.net == s.net && t.wal == s.wal && t.acked == s.acked
  {
    hide Exec, Inv, RunsTo;
    ghost var w := WorldOf(master, servers);
    steps, t := OneStep(s, DeliverReplicate(id, op));
    ok := servers[id].HandleReplicate(op, true);
    OneViewChanges(w.views, servers, id);
    ViewChanges(s.chunks, w.views, id, servers[id].store.View());
  }

  method HeartbeatRefines(id: string, master: Masters.Server, now: int, servers: Servers, ghost s: State)
    returns (ghost steps: seq<Step>, ghost t: State)
    requires Matches(s, master, servers) && Inv(s) && id in servers
    modifies master.registry
    ensures RunsTo(s, steps, t, 0) && Matches(t, master, servers)
    ensures t.net == s.net && t.acked == s.acked
  {
    hide Exec, Inv, RunsTo;
    Membership.HeartbeatIsBeat(s, master.registry.chunks, id, id, now);
    steps, t := OneStep(s, Beat(id));
    master.HandleHeartbeat(id, id, now);
  }

  method TickRefines(master: Masters.Server, now: int, servers: Servers, ghost s: State)
    returns (ghost steps: seq<Step>, ghost t: State)
    requires Matches(s, master, servers) && Inv(s)
    modifies master.registry
    ensures RunsTo(s, steps, t, 0) && Matches(t, master, servers)
    ensures t.net == s.net && t.acked == s.acked
  {
    hide Exec, Inv, RunsTo, Calm;
    steps := Membership.SweepIsSuspicions(s, master.registry.chunks, now);
    t := s.(alive := Membership.Shown(Registries.Swept(master.registry.chunks, now)));
    SuspicionsAreCalm(steps);
    CalmRunsTo(s, steps, t, 0);
    master.registry.MonitorTick(now);
  }

  /** A new master process on the saved log is the restart step. */
  method RestartRefines(primary: string, master: Masters.Server, servers: Servers, ghost s: State)
    returns (restarted: Masters.Server, ghost t: State)
    requires Matches(s, master, servers) && Inv(s) && s.primary == primary
    ensures Exec(s, [MasterRestart]) == At(t) && Inv(t) && t.net == s.net && t.acked == s.acked
    ensures Matches(t, restarted, servers)
    ensures Guarantees.NothingAbove(s, Wals.MaxSeq(s.wal)) ==> Guarantees.CleanRun(s, [MasterRestart], t)
  {
    hide Exec, Inv, Guarantees.CleanRun, Wals.MaxSeq;
    t := Guarantees.RestartForgets(s);
    if Guarantees.NothingAbove(s, Wals.MaxSeq(s.wal)) {
      Guarantees.CleanRunOne(s, MasterRestart);
    }
    restarted := new Masters.Server(primary, master.wal.entries);
  }

  /** A chunk that dies takes its store object with it and leaves its files. */
  lemma CrashRefines(id: string, master: Masters.Server, servers: Servers, s: State)
    returns (steps: seq<Step>, t: State)
    requires Matches(s, master, servers) && Inv(s) && id in servers
    ensures RunsTo(s, steps, t, 0) && Matches(t, master, servers - {id})
    ensures id in t.chunks && t.chunks[id].disk == servers[id].store.disk
    ensures t.net == s.net && t.acked == s.acked
  {
    hide Inv, RunsTo, Pictures;
    var w := WorldOf(master, servers);
    steps, t := CrashKeeps(s, w, id);
    assert Views(servers - {id}) == w.views - {id};
  }

  lemma ServerJoins(servers: Servers, id: string, server: ChunkServers.Server)
    requires Distinct(servers) && server.id == id && forall i :: i in servers ==> servers[i].store != server.store
    ensures Distinct(servers[id := server])
    ensures Views(servers[id := server]) == Views(servers)[id := server.store.View()]
  {
  }

  method ReopenActs(id: string, contents: Files, files: seq<string>, master: Masters.Server, servers: Servers)
    returns (server: ChunkServers.Server)
    requires Listing(files, contents) && Distinct(servers)
    ensures fresh(server) && fresh(server.store) && Distinct(servers[id := server])
    ensures var w := old(WorldOf(master, servers));
            WorldOf(master, servers[id := server]) == w.(views := w.views[id := Copy(Scan(files, contents), contents)])
  {
    hide Scan, Distinct;
    ghost var was := Views(servers);
    var store := new Stores.Store(contents, files);
    server := new ChunkServers.Server(id, store);
    assert Views(servers) == was;
    ServerJoins(servers, id, server);
  }

  /** A chunk that is down starts again on the files it left. */
  method ReopenRefines(id: string, contents: Files, files: seq<string>, master: Masters.Server, servers: Servers,
                       ghost s: State)
    returns (server: ChunkServers.Server, ghost steps: seq<Step>, ghost t: State)
    requires Matches(s, master, servers) && Inv(s) && id in s.chunks && id !in servers
    requires contents == s.chunks[id].disk && Listing(files, contents)
    ensures fresh(server) && fresh(server.store)
    ensures RunsTo(s, steps, t, 0) && Matches(t, master, servers[id := server])
    ensures t.net == s.net && t.acked == s.acked
  {
    ghost var w := WorldOf(master, servers);
    assert w.views.Keys == servers.Keys;
    hide Inv, RunsTo, Pictures, Scan, Listing, Distinct, Views, WorldOf;
    steps, t := ReloadKeeps(s, w, id, files);
    server := ReopenActs(id, contents, files, master, servers);
  }

  // ---- What the objects are guaranteed ---------------------------------------------------

  /** At any time every key in every running store is held by the primary's store at that
      number or above, and so is everything logged; and each store's files say what its
      memory says. */
  lemma StoresAreDominated(s: State, master: Masters.Server, servers: Servers)
    requires Matches(s, master, servers) && Inv(s) && s.primary in servers
    ensures var top := servers[s.primary].store.entries;
            && (forall id, k :: id in servers && k in servers[id].store.entries ==>
                  Holds(top, k, servers[id].store.entries[k].seqNum))
            && (forall op :: op in master.wal.entries ==> Holds(top, op.key, op.seqNum))
    ensures forall id :: id in servers ==> Mirrors(servers[id].store.Mem(), servers[id].store.disk)
  {
    hide Inv, Durable, SafeDisk;
    Guarantees.InvDominates(s);
    forall id | id in servers
      ensures servers[id].store.entries == Durable(s, id)
      ensures Mirrors(servers[id].store.Mem(), servers[id].store.disk)
    {
      Guarantees.DurableOk(s, id);
      RunningMirrors(s, id);
    }
    forall op | op in master.wal.entries
      ensures Holds(servers[s.primary].store.entries, op.key, op.seqNum)
    {
      assert Guarantees.Released(s, op);
    }
  }

  lemma RunningMirrors(s: State, id: string)
    requires Inv(s) && Up(s, id)
    ensures Mirrors(s.chunks[id].mem, s.chunks[id].disk)
  {
    assert ChunkOk(s.chunks[id], s.applied);
  }

  /** After clean runs any two stores that hold a number hold the same entry under it. */
  lemma StoresAgree(s: State, master: Masters.Server, servers: Servers, i: string, j: string, k: Key, l: Key)
    requires Matches(s, master, servers) && Inv(s) && Guarantees.Unique(s) && i in servers && j in servers
    requires k in servers[i].store.entries && l in servers[j].store.entries
    requires servers[i].store.entries[k].seqNum == servers[j].store.entries[l].seqNum
    ensures k == l && servers[i].store.entries[k] == servers[j].store.entries[l]
  {
    hide Inv, Guarantees.Unique, SafeDisk, Guarantees.Released;
    Guarantees.UniqueAgrees(s);
    assert Guarantees.Stores(s.chunks[i].mem.entries, k, servers[i].store.entries[k]);
    assert Guarantees.Stores(s.chunks[j].mem.entries, l, servers[j].store.entries[l]);
    assert Guarantees.CopyOf(s, k, servers[i].store.entries[k]) && Guarantees.CopyOf(s, l, servers[j].store.entries[l]);
  }

  /** Whatever calls have gone by since an operation was acknowledged, the primary's store,
      if it runs, holds that operation or a larger number. */
  lemma AckedIsStored(s: State, steps: seq<Step>, t: State, master: Masters.Server, servers: Servers, op: Op)
    requires Inv(s) && Guarantees.Unique(s) && op in s.acked
    requires Guarantees.CleanRun(s, steps, t) && Matches(t, master, servers) && t.primary in servers
    ensures var es := servers[t.primary].store.entries;
            op.key in es && (es[op.key] == EntryOf(op) || es[op.key].seqNum > op.seqNum)
  {
    hide Inv, Guarantees.Unique, Guarantees.CleanRun, Exec;
    Guarantees.CleanRunKeeps(s, steps, t);
    Guarantees.CleanRunExecutes(s, steps, t);
    Guarantees.HistoryGrows(s, steps);
    Guarantees.AckedIsServed(t, op);
  }

  /** And a store that once durably held a delete shows the key only at a larger number. */
  lemma DeletedStaysHidden(s: State, steps: seq<Step>, t: State, master: Masters.Server, servers: Servers,
                           id: string, k: Key, d: nat)
    requires Inv(s) && Exec(s, steps) == At(t) && id in s.chunks && Guarantees.Buried(Durable(s, id), k, d)
    requires Matches(t, master, servers) && id in servers
    ensures k in Visible(servers[id].store.entries) ==> servers[id].store.entries[k].seqNum > d
  {
    hide Inv, Exec, Durable, Guarantees.Buried;
    Guarantees.DeletesStayBuried(s, steps, t, id, k, d);
    ExecKeepsInv(s, steps);
    Guarantees.DurableOk(t, id);
  }
}
