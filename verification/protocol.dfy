/** The whole system as one state machine: clients, the master, the primary and the
    replicas, and the messages between them.

    The network is a set of everything ever sent: a message may be delivered late, out
    of order, more than once or never. Chunks crash and reload from disk, the master
    restarts from its log. A step is what one critical section of the program does, except
    that three merge two of the master's: `Issue` and `FetchReplicas` read the registry and
    move the counter at once, `AnswerRegister` adds the member and reads the log at once.
    `SendReplicate` goes on to the next address without the replica's answer. The step's
    arguments carry all the nondeterminism, so `Do` is a function. Chunk addresses are
    fixed, so an identifier stands for its address. */
module Protocol {
  import opened Lww
  import opened Disk
  import opened Wals
  import Codec
  import Registries

  /** A chunk process; memory is empty while it is down. */
  datatype Chunk = Chunk(up: bool, mem: Image, disk: Files)

  datatype Msg =
    | WriteRequest(op: Op)
    | Replicate(dest: string, op: Op)
    | Ack(op: Op)
    | WALNotify(op: Op)
    | Recovery(dest: string, op: Op)
    | RegisterChunk(id: string, lastSeq: nat)

  /** A handler running at the primary: about to ask for the replicas of an operation it
      has applied, or working through their list. */
  datatype Task =
    | Fetching(op: Op)
    | Sending(op: Op, rest: seq<string>)

  datatype State = State(
    primary: string,
    chunks: map<string, Chunk>,
    counter: nat,                 // the master's sequence counter
    wal: seq<Op>,                 // the master's log
    alive: map<string, bool>,     // the master's registry: members and their liveness
    net: set<Msg>,
    tasks: set<Task>,
    hands: multiset<nat>,         // numbers clients hold and have not used
    bound: set<Op>,               // history: operations clients sent
    applied: set<Op>,             // history: operations the primary applied
    acked: set<Op>)               // history: operations the primary acknowledged

  datatype Step =
    | Issue
    | Abandon(n: nat)
    | SendWrite(op: Op)
    | PrimaryApply(op: Op)
    | FetchReplicas(op: Op, answered: bool, heard: bool, order: seq<string>)
    | SendReplicate(op: Op, rest: seq<string>, dialled: bool)
    | Finish(op: Op)
    | NotifyMaster(op: Op)
    | LogWrite(op: Op)
    | DeliverReplicate(id: string, op: Op)
    | Crash(id: string)
    | Restart(id: string, files: seq<string>)
    | AskRegister(id: string)
    | AnswerRegister(id: string, lastSeq: nat)
    | DeliverRecovery(id: string, op: Op)
    | Beat(id: string)
    | Suspect(id: string)
    | MasterRestart

  predicate Listed(s: State, id: string) {
    id in s.alive && s.alive[id]
  }

  ghost function AliveOthers(s: State): set<string> {
    set id | id in s.alive && s.alive[id] && id != s.primary
  }

  predicate Up(s: State, id: string) {
    id in s.chunks && s.chunks[id].up
  }

  ghost predicate Enabled(s: State, step: Step) {
    match step
    case Issue => Listed(s, s.primary)
    case Abandon(n) => n in s.hands
    case SendWrite(op) => op.seqNum in s.hands && Codec.SafeKey(op.key) && (op.isDelete ==> op.value == [])
    case PrimaryApply(op) => WriteRequest(op) in s.net && Up(s, s.primary)
    case FetchReplicas(op, answered, heard, order) =>
      Fetching(op) in s.tasks && (answered && Listed(s, s.primary) ==> Registries.Enumerates(order, AliveOthers(s)))
    case SendReplicate(op, rest, dialled) => Sending(op, rest) in s.tasks && rest != []
    case Finish(op) => Sending(op, []) in s.tasks
    case NotifyMaster(op) => Ack(op) in s.net
    case LogWrite(op) => WALNotify(op) in s.net
    case DeliverReplicate(id, op) => Replicate(id, op) in s.net && Up(s, id)
    case Crash(id) => Up(s, id)
    case Restart(id, files) => id in s.chunks && !s.chunks[id].up && Listing(files, s.chunks[id].disk)
    case AskRegister(id) => Up(s, id)
    case AnswerRegister(id, lastSeq) => RegisterChunk(id, lastSeq) in s.net
    case DeliverRecovery(id, op) => Recovery(id, op) in s.net && Up(s, id)
    case Beat(id) => id in s.chunks
    case Suspect(id) => id in s.alive
    case MasterRestart => true
  }

  function Received(c: Chunk, op: Op): Chunk {
    c.(mem := Apply(c.mem, op), disk := Persist(c.disk, c.mem, op, true))
  }

  function Deliver(s: State, id: string, op: Op): State
    requires id in s.chunks
  {
    s.(chunks := s.chunks[id := Received(s.chunks[id], op)])
  }

  ghost function Do(s: State, step: Step): State
    requires Enabled(s, step)
  {
    match step
    case Issue => s.(counter := Next(s.counter), hands := s.hands + multiset{Next(s.counter)})
    case Abandon(n) => s.(hands := s.hands - multiset{n})
    case SendWrite(op) =>
      s.(hands := s.hands - multiset{op.seqNum}, net := s.net + {WriteRequest(op)}, bound := s.bound + {op})
    case PrimaryApply(op) =>
      Deliver(s, s.primary, op).(tasks := s.tasks + {Fetching(op)}, applied := s.applied + {op})
    case FetchReplicas(op, answered, heard, order) =>
      var reached := answered && Listed(s, s.primary);
      s.(counter := if reached then Next(s.counter) else s.counter,
         tasks := s.tasks - {Fetching(op)} + {Sending(op, if reached && heard then order else [])})
    case SendReplicate(op, rest, dialled) =>
      s.(net := if dialled then s.net + {Replicate(rest[0], op)} else s.net,
         tasks := s.tasks - {Sending(op, rest)} + {Sending(op, rest[1..])})
    case Finish(op) =>
      s.(tasks := s.tasks - {Sending(op, [])}, net := s.net + {Ack(op)}, acked := s.acked + {op})
    case NotifyMaster(op) => s.(net := s.net + {WALNotify(op)})
    case LogWrite(op) => s.(wal := s.wal + [op])
    case DeliverReplicate(id, op) => Deliver(s, id, op)
    case Crash(id) =>
      s.(chunks := s.chunks[id := s.chunks[id].(up := false, mem := EMPTY)],
         tasks := if id == s.primary then {} else s.tasks)
    case Restart(id, files) =>
      s.(chunks := s.chunks[id := s.chunks[id].(up := true, mem := Scan(files, s.chunks[id].disk))])
    case AskRegister(id) => s.(net := s.net + {RegisterChunk(id, s.chunks[id].mem.lastSeq)})
    case AnswerRegister(id, lastSeq) =>
      s.(alive := s.alive[id := true],
         net := s.net + set op | op in After(s.wal, lastSeq) :: Recovery(id, op))
    case DeliverRecovery(id, op) => Deliver(s, id, op)
    case Beat(id) => if id in s.alive then s.(alive := s.alive[id := true]) else s
    case Suspect(id) => s.(alive := s.alive[id := false])
    case MasterRestart => s.(counter := MaxSeq(s.wal), alive := map[])
  }

  // ---- Who changes what ---------------------------------------------------------

  /** A registration is answered with exactly the logged operations above its number. */
  lemma AnswerIsWhatIsMissing(s: State, id: string, n: nat)
    requires Enabled(s, AnswerRegister(id, n))
    ensures Do(s, AnswerRegister(id, n)).net == s.net + set op | op in s.wal && op.seqNum > n :: Recovery(id, op)
  {
    AfterHas(s.wal, n);
  }

  /** Where each new message comes from. */
  predicate Sends(s: State, step: Step, msg: Msg) {
    match msg
    case WriteRequest(op) => step == SendWrite(op)
    case Replicate(dest, op) =>
      step.SendReplicate? && step.op == op && step.dialled && step.rest != [] && step.rest[0] == dest
    case Ack(op) => step == Finish(op)
    case WALNotify(op) => step == NotifyMaster(op)
    case RegisterChunk(id, n) => step == AskRegister(id) && id in s.chunks && s.chunks[id].mem.lastSeq == n
    case Recovery(dest, op) => step.AnswerRegister? && step.id == dest && op in s.wal && op.seqNum > step.lastSeq
  }

  lemma MessagesComeFrom(s: State, step: Step, msg: Msg)
    requires Enabled(s, step)
    ensures msg in Do(s, step).net <==> msg in s.net || Sends(s, step, msg)
  {
    hide Received, Scan, Listing, Codec.SafeKey, Registries.Enumerates, MaxSeq, After;
    if step.AnswerRegister? {
      AnswerIsWhatIsMissing(s, step.id, step.lastSeq);
    }
  }

  /** The log and the acknowledgements grow, the members and the counter change, and handlers
      die, by these steps and no others. */
  lemma LogGrowsBy(s: State, step: Step)
    requires Enabled(s, step)
    ensures Do(s, step).wal == if step.LogWrite? then s.wal + [step.op] else s.wal
  {
    hide Received, Scan, Listing, Codec.SafeKey, Registries.Enumerates, MaxSeq, After, AliveOthers;
  }

  lemma AcksGrowBy(s: State, step: Step)
    requires Enabled(s, step)
    ensures Do(s, step).acked == if step.Finish? then s.acked + {step.op} else s.acked
  {
    hide Received, Scan, Listing, Codec.SafeKey, Registries.Enumerates, MaxSeq, After, AliveOthers;
  }

  lemma HandlersDieWithThePrimary(s: State)
    requires Enabled(s, Crash(s.primary))
    ensures Do(s, Crash(s.primary)).tasks == {}
  {
  }

  lemma CounterChangesBy(s: State, step: Step)
    requires Enabled(s, step)
    ensures step.MasterRestart? || Do(s, step).counter == if NumbersOne(s, step)
                                                            then (s.counter + 1) % 0x1_0000_0000_0000_0000
                                                            else s.counter
  {
    hide Received, Scan, Listing, Codec.SafeKey, Registries.Enumerates, MaxSeq, After, AliveOthers;
  }

  /** The step takes a number from a master that believes the primary up. */
  predicate NumbersOne(s: State, step: Step) {
    s.primary in s.alive && s.alive[s.primary] && (step.Issue? || (step.FetchReplicas? && step.answered))
  }

  /** A chunk changes by the delivery of one operation, by a crash, which leaves it down with
      an empty memory and its files, or by a reload, which leaves its files alone. */
  lemma ChunksChangeBy(s: State, step: Step, id: string)
    requires Enabled(s, step) && id in s.chunks
    ensures var c, d := s.chunks[id], Do(s, step).chunks[id];
            if step == Crash(id) then d == Chunk(false, Image(map[], 0), c.disk)
            else if step.Restart? && step.id == id then !c.up && d == Chunk(true, Scan(step.files, c.disk), c.disk)
            else if (step.PrimaryApply? && id == s.primary)
                    || ((step.DeliverReplicate? || step.DeliverRecovery?) && step.id == id)
            then c.up && d == Chunk(true, Apply(c.mem, step.op), Persist(c.disk, c.mem, step.op, true))
            else d == c
  {
    hide Scan, Codec.SafeKey, Registries.Enumerates, MaxSeq, After, Apply, Persist;
  }

  /** A member is what its last registration, beat or suspicion made it, and only a restart
      of the master removes one. */
  lemma MembersChangeBy(s: State, step: Step, id: string)
    requires Enabled(s, step)
    ensures id in Do(s, step).alive <==>
              step != MasterRestart && (id in s.alive || (step.AnswerRegister? && step.id == id))
  {
    hide Received, Scan, Listing, Codec.SafeKey, Registries.Enumerates, MaxSeq, After, AliveOthers;
  }

  lemma LivenessChangesBy(s: State, step: Step, id: string)
    requires Enabled(s, step) && id in Do(s, step).alive
    ensures Do(s, step).alive[id] <==>
              if (step.AnswerRegister? || step.Beat?) && step.id == id then true
              else if step.Suspect? && step.id == id then false
              else id in s.alive && s.alive[id]
  {
    hide Received, Scan, Listing, Codec.SafeKey, Registries.Enumerates, MaxSeq, After, AliveOthers;
  }

  datatype Outcome = Stuck | At(state: State)

  ghost function Exec(s: State, steps: seq<Step>): Outcome
    decreases |steps|
  {
    if steps == [] then At(s)
    else if Enabled(s, steps[0]) then Exec(Do(s, steps[0]), steps[1..])
    else Stuck
  }

  ghost predicate Init(s: State) {
    && s.primary in s.chunks
    && (forall id :: id in s.chunks ==> s.chunks[id].mem == EMPTY && s.chunks[id].disk == map[])
    && s.counter == 0 && s.wal == [] && s.alive == map[]
    && s.net == {} && s.tasks == {} && s.hands == multiset{}
    && s.bound == {} && s.applied == {} && s.acked == {}
  }

  /** What chunk `id` would hold after a reload. */
  ghost function Durable(s: State, id: string): map<Key, Entry> {
    if id in s.chunks && SafeDisk(s.chunks[id].disk) then Held(s.chunks[id].disk) else map[]
  }

  // ---- The invariant ----------------------------------------------------------

  /** Every entry of the map was written by one of these operations. */
  ghost predicate Traced(es: map<Key, Entry>, ops: set<Op>) {
    forall k :: k in es ==> exists op :: Wrote(op, ops, k, es[k])
  }

  predicate Wrote(op: Op, ops: set<Op>, k: Key, e: Entry) {
    op in ops && op.key == k && EntryOf(op) == e
  }

  ghost predicate ChunkOk(c: Chunk, applied: set<Op>) {
    && SafeDisk(c.disk)
    && (c.up ==> Mirrors(c.mem, c.disk))
    && Traced(Held(c.disk), applied)
  }

  predicate MsgOk(s: State, msg: Msg) {
    match msg
    case WriteRequest(op) => op in s.bound
    case RegisterChunk(_, _) => true
    case Replicate(_, op) => op in s.applied
    case Ack(op) => op in s.applied
    case WALNotify(op) => op in s.applied
    case Recovery(_, op) => op in s.applied
  }

  ghost predicate ChunksOk(chunks: map<string, Chunk>, primary: string, applied: set<Op>) {
    && primary in chunks
    && (forall id :: id in chunks ==> ChunkOk(chunks[id], applied))
    && Covers(Held(chunks[primary].disk), applied)
  }

  ghost predicate TrafficOk(s: State) {
    && s.applied <= s.bound
    && (forall op :: op in s.bound ==> Codec.SafeKey(op.key) && WriteRequest(op) in s.net)
    && (forall msg :: msg in s.net ==> MsgOk(s, msg))
    && (forall task :: task in s.tasks ==> task.op in s.applied)
    && Elements(s.wal) <= s.applied
    && s.acked <= s.applied
  }

  /** Whatever travels or is stored anywhere was applied by the primary first, and the
      primary's disk covers all it ever applied. */
  ghost predicate Inv(s: State) {
    ChunksOk(s.chunks, s.primary, s.applied) && TrafficOk(s)
  }

  lemma TracedMore(es: map<Key, Entry>, ops: set<Op>, more: set<Op>)
    requires Traced(es, ops) && ops <= more
    ensures Traced(es, more)
  {
    forall k | k in es
      ensures exists op :: Wrote(op, more, k, es[k])
    {
      var op :| Wrote(op, ops, k, es[k]);
      assert Wrote(op, more, k, es[k]);
    }
  }

  /** A running chunk that applies `op` stays in order, and holds all it held. */
  lemma ReceivedOk(c: Chunk, op: Op, applied: set<Op>)
    requires ChunkOk(c, applied) && c.up && Codec.SafeKey(op.key)
    ensures ChunkOk(Received(c, op), applied + {op})
    ensures Held(Received(c, op).disk) == Apply(c.mem, op).entries
    ensures forall k, n: nat :: Holds(Held(c.disk), k, n) ==> Holds(Held(Received(c, op).disk), k, n)
  {
    hide SafeDisk, Codec.SafeKey;
    var c' := Received(c, op);
    PersistKeepsMirror(c.mem, c.disk, op, true);
    forall k | k in Held(c'.disk)
      ensures exists o :: Wrote(o, applied + {op}, k, Held(c'.disk)[k])
    {
      if k in c.mem.entries && Held(c'.disk)[k] == c.mem.entries[k] {
        var o :| Wrote(o, applied, k, c.mem.entries[k]);
        assert Wrote(o, applied + {op}, k, c.mem.entries[k]);
      } else {
        assert Wrote(op, applied + {op}, k, Held(c'.disk)[k]);
      }
    }
  }

  lemma DeliverKeepsChunks(s: State, id: string, op: Op)
    requires ChunksOk(s.chunks, s.primary, s.applied) && Up(s, id) && op in s.applied && Codec.SafeKey(op.key)
    ensures ChunksOk(Deliver(s, id, op).chunks, s.primary, s.applied)
  {
    hide SafeDisk, Codec.SafeKey, Persist, Mirrors;
    ReceivedOk(s.chunks[id], op, s.applied);
    assert s.applied + {op} == s.applied;
    var t := Deliver(s, id, op);
    forall o | o in s.applied
      ensures Holds(Held(t.chunks[s.primary].disk), o.key, o.seqNum)
    {
      assert Holds(Held(s.chunks[s.primary].disk), o.key, o.seqNum);
    }
  }

  lemma PrimaryApplyKeepsChunks(s: State, op: Op)
    requires ChunksOk(s.chunks, s.primary, s.applied) && Up(s, s.primary) && Codec.SafeKey(op.key)
    ensures ChunksOk(Deliver(s, s.primary, op).chunks, s.primary, s.applied + {op})
  {
    hide SafeDisk, Codec.SafeKey, Persist, Mirrors, Received, Apply;
    var t, applied := Deliver(s, s.primary, op), s.applied + {op};
    ReceivedOk(s.chunks[s.primary], op, s.applied);
    forall id | id in t.chunks
      ensures ChunkOk(t.chunks[id], applied)
    {
      if id != s.primary {
        TracedMore(Held(s.chunks[id].disk), s.applied, applied);
      }
    }
    AppliedHolds(s.chunks[s.primary].mem, op);
    forall o | o in applied
      ensures Holds(Held(t.chunks[t.primary].disk), o.key, o.seqNum)
    {
      if o in s.applied {
        assert Holds(Held(s.chunks[s.primary].disk), o.key, o.seqNum);
      }
    }
  }

  lemma AppliedHolds(m: Image, op: Op)
    ensures Holds(Apply(m, op).entries, op.key, op.seqNum)
  {
  }

  /** A crash loses memory only; a reload rebuilds it from the disk. */
  lemma CrashKeepsChunks(s: State, step: Step)
    requires ChunksOk(s.chunks, s.primary, s.applied) && Enabled(s, step) && (step.Crash? || step.Restart?)
    ensures ChunksOk(Do(s, step).chunks, s.primary, s.applied)
  {
    hide SafeDisk, Listing, Scan, Mirrors, Traced, Covers;
    var t := Do(s, step);
    if step.Restart? {
      assert ChunkOk(s.chunks[step.id], s.applied);
      ReloadMirrors(s.chunks[step.id].disk, step.files);
    }
  }

  predicate TouchesChunk(step: Step) {
    step.PrimaryApply? || step.DeliverReplicate? || step.DeliverRecovery? || step.Crash? || step.Restart?
  }

  lemma StepKeepsChunks(s: State, step: Step)
    requires Inv(s) && Enabled(s, step)
    ensures ChunksOk(Do(s, step).chunks, s.primary, Do(s, step).applied) && Do(s, step).primary == s.primary
  {
    hide ChunksOk;
    match step
    case PrimaryApply(op) =>
      assert MsgOk(s, WriteRequest(op));
      PrimaryApplyKeepsChunks(s, op);
    case DeliverReplicate(id, op) =>
      assert MsgOk(s, Replicate(id, op));
      DeliverKeepsChunks(s, id, op);
    case DeliverRecovery(id, op) =>
      assert MsgOk(s, Recovery(id, op));
      DeliverKeepsChunks(s, id, op);
    case Crash(_) => CrashKeepsChunks(s, step);
    case Restart(_, _) => CrashKeepsChunks(s, step);
    case _ => UntouchedChunks(s, step);
  }

  lemma UntouchedChunks(s: State, step: Step)
    requires Enabled(s, step) && !TouchesChunk(step)
    ensures Do(s, step).chunks == s.chunks && Do(s, step).applied == s.applied && Do(s, step).primary == s.primary
  {
    match step
    case Issue =>
    case Abandon(_) =>
    case SendWrite(_) =>
    case FetchReplicas(_, _, _, _) =>
    case SendReplicate(_, _, _) =>
    case Finish(_) =>
    case NotifyMaster(_) =>
    case LogWrite(_) =>
    case AskRegister(_) =>
    case AnswerRegister(_, _) =>
    case Beat(_) =>
    case Suspect(_) =>
    case MasterRestart =>
  }

  /** Traffic stays in order when everything new in it was applied. */
  lemma TrafficGrows(s: State, t: State)
    requires TrafficOk(s) && s.applied <= t.applied <= t.bound && s.bound <= t.bound && s.net <= t.net
    requires forall op :: op in t.bound ==> op in s.bound || (Codec.SafeKey(op.key) && WriteRequest(op) in t.net)
    requires forall msg :: msg in t.net ==> msg in s.net || MsgOk(t, msg)
    requires forall task :: task in t.tasks ==> task in s.tasks || task.op in t.applied
    requires forall op :: op in t.wal ==> op in s.wal || op in t.applied
    requires t.acked <= s.acked + t.applied
    ensures TrafficOk(t)
  {
    hide Codec.SafeKey;
    forall msg | msg in t.net
      ensures MsgOk(t, msg)
    {
      if msg in s.net {
        assert MsgOk(s, msg);
      }
    }
    forall op | op in Elements(t.wal)
      ensures op in t.applied
    {
      if op in s.wal {
        assert op in Elements(s.wal);
      }
    }
  }

  predicate IsClientStep(step: Step) {
    step.Issue? || step.Abandon? || step.SendWrite? || step.NotifyMaster?
  }

  predicate IsPrimaryStep(step: Step) {
    step.PrimaryApply? || step.FetchReplicas? || step.SendReplicate? || step.Finish?
  }

  predicate IsMasterStep(step: Step) {
    step.LogWrite? || step.AnswerRegister? || step.Beat? || step.Suspect? || step.MasterRestart?
  }

  lemma ClientKeepsTraffic(s: State, step: Step)
    requires TrafficOk(s) && Enabled(s, step) && IsClientStep(step)
    ensures TrafficOk(Do(s, step))
  {
    AppliedIsBound(s);
    if step.NotifyMaster? {
      ReleaseIsApplied(s, Ack(step.op));
    }
    hide TrafficOk, Codec.SafeKey;
    TrafficGrows(s, Do(s, step));
  }

  lemma PrimaryKeepsTraffic(s: State, step: Step)
    requires TrafficOk(s) && Enabled(s, step) && IsPrimaryStep(step)
    ensures TrafficOk(Do(s, step))
  {
    AppliedIsBound(s);
    if step.PrimaryApply? {
      RequestIsBound(s, step.op);
    } else if step.FetchReplicas? {
      TaskIsApplied(s, Fetching(step.op));
    } else {
      TaskIsApplied(s, Sending(step.op, if step.Finish? then [] else step.rest));
    }
    hide TrafficOk, Codec.SafeKey, Received, Registries.Enumerates;
    TrafficGrows(s, Do(s, step));
  }

  lemma MasterKeepsTraffic(s: State, step: Step)
    requires TrafficOk(s) && Enabled(s, step) && IsMasterStep(step)
    ensures TrafficOk(Do(s, step))
  {
    AppliedIsBound(s);
    if step.LogWrite? {
      ReleaseIsApplied(s, WALNotify(step.op));
    } else if step.AnswerRegister? {
      AnswersAreLogged(s.wal, step.lastSeq);
      LogIsApplied(s);
    }
    hide TrafficOk, Codec.SafeKey, MaxSeq, After;
    TrafficGrows(s, Do(s, step));
  }

  lemma ChunkKeepsTraffic(s: State, step: Step)
    requires TrafficOk(s) && Enabled(s, step)
    requires !IsClientStep(step) && !IsPrimaryStep(step) && !IsMasterStep(step)
    ensures TrafficOk(Do(s, step))
  {
    AppliedIsBound(s);
    hide TrafficOk, Codec.SafeKey, Received, Scan, Listing;
    TrafficGrows(s, Do(s, step));
  }

  lemma StepKeepsTraffic(s: State, step: Step)
    requires TrafficOk(s) && Enabled(s, step)
    ensures TrafficOk(Do(s, step))
  {
    hide TrafficOk, Enabled, Do;
    if IsClientStep(step) {
      ClientKeepsTraffic(s, step);
    } else if IsPrimaryStep(step) {
      PrimaryKeepsTraffic(s, step);
    } else if IsMasterStep(step) {
      MasterKeepsTraffic(s, step);
    } else {
      ChunkKeepsTraffic(s, step);
    }
  }

  lemma AppliedIsBound(s: State)
    requires TrafficOk(s)
    ensures s.applied <= s.bound
  {
  }

  lemma RequestIsBound(s: State, op: Op)
    requires TrafficOk(s) && WriteRequest(op) in s.net
    ensures op in s.bound
  {
    assert MsgOk(s, WriteRequest(op));
  }

  lemma ReleaseIsApplied(s: State, msg: Msg)
    requires TrafficOk(s) && msg in s.net && !msg.WriteRequest? && !msg.RegisterChunk?
    ensures msg.op in s.applied
  {
    assert MsgOk(s, msg);
  }

  lemma TaskIsApplied(s: State, task: Task)
    requires TrafficOk(s) && task in s.tasks
    ensures task.op in s.applied
  {
  }

  lemma LogIsApplied(s: State)
    requires TrafficOk(s)
    ensures Elements(s.wal) <= s.applied
  {
  }

  lemma AnswersAreLogged(wal: seq<Op>, lastSeq: nat)
    ensures forall op :: op in After(wal, lastSeq) ==> op in Elements(wal)
  {
    AfterIsFilter(wal, lastSeq);
    assert forall op :: op in After(wal, lastSeq) ==> op in Elements(After(wal, lastSeq));
  }

  lemma StepKeepsInv(s: State, step: Step)
    requires Inv(s) && Enabled(s, step)
    ensures Inv(Do(s, step))
  {
    hide ChunksOk, TrafficOk, Enabled, Do;
    StepKeepsChunks(s, step);
    StepKeepsTraffic(s, step);
  }

  lemma {:induction false} ExecKeepsInv(s: State, steps: seq<Step>)
    requires Inv(s) && Exec(s, steps).At?
    ensures Inv(Exec(s, steps).state)
    decreases |steps|
  {
    hide Inv, Enabled, Do;
    if steps == [] {
    } else {
      StepKeepsInv(s, steps[0]);
      ExecKeepsInv(Do(s, steps[0]), steps[1..]);
    }
  }

  lemma InitInv(s: State)
    requires Init(s)
    ensures Inv(s)
  {
    BlankMirrors();
    HeldShows(map[]);
    assert Held(map[]) == map[];
  }
}
