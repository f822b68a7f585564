/** What every run of the protocol guarantees, and what it does not. */
module Guarantees {
  import opened Lww
  import opened Disk
  import opened Wals
  import opened Protocol
  import Codec
  import Registries

  /** `t` is reached from an initial state by some run. */
  ghost predicate Reachable(t: State) {
    exists s: State, steps: seq<Step> :: Init(s) && Exec(s, steps) == At(t)
  }

  lemma ReachableInv(t: State)
    requires Reachable(t)
    ensures Inv(t)
  {
    hide Init, Exec, Inv;
    var s: State, steps: seq<Step> :| Init(s) && Exec(s, steps) == At(t);
    InitInv(s);
    ExecKeepsInv(s, steps);
  }

  // ---- Primary dominance ------------------------------------------------------

  /** An operation in a log record, an acknowledgement, or any message or handler past
      the primary. */
  predicate Released(s: State, op: Op) {
    || op in s.wal
    || op in s.acked
    || (exists msg :: msg in s.net && !msg.WriteRequest? && !msg.RegisterChunk? && msg.op == op)
    || (exists task :: task in s.tasks && task.op == op)
  }

  lemma DurableOk(s: State, id: string)
    requires Inv(s) && id in s.chunks
    ensures SafeDisk(s.chunks[id].disk) && Durable(s, id) == Held(s.chunks[id].disk)
    ensures s.chunks[id].up ==> s.chunks[id].mem.entries == Durable(s, id)
    ensures Traced(Durable(s, id), s.applied)
    ensures s.primary in s.chunks && Covers(Durable(s, s.primary), s.applied)
  {
    hide SafeDisk, Traced, Covers;
    assert ChunkOk(s.chunks[id], s.applied) && ChunkOk(s.chunks[s.primary], s.applied);
  }

  /** The primary's durable number for a key is at least that of every copy of the key
      anywhere, and a running chunk's memory says what its disk says. */
  ghost predicate PrimaryDominates(s: State) {
    var top := Durable(s, s.primary);
    && (forall id, k :: id in s.chunks && k in Durable(s, id) ==> Holds(top, k, Durable(s, id)[k].seqNum))
    && (forall op :: Released(s, op) ==> Holds(top, op.key, op.seqNum))
    && (forall id :: id in s.chunks && s.chunks[id].up ==> s.chunks[id].mem.entries == Durable(s, id))
    && (forall id :: id in s.chunks ==> SafeDisk(s.chunks[id].disk))
  }

  lemma PrimaryDominance(s: State)
    requires Reachable(s)
    ensures PrimaryDominates(s)
  {
    hide Reachable, Inv, PrimaryDominates;
    ReachableInv(s);
    InvDominates(s);
  }

  lemma InvDominates(s: State)
    requires Inv(s)
    ensures PrimaryDominates(s)
  {
    hide SafeDisk, Inv, Durable;
    var top := Durable(s, s.primary);
    forall id | id in s.chunks
      ensures SafeDisk(s.chunks[id].disk)
      ensures s.chunks[id].up ==> s.chunks[id].mem.entries == Durable(s, id)
    {
      DurableOk(s, id);
    }
    forall id, k | id in s.chunks && k in Durable(s, id)
      ensures Holds(top, k, Durable(s, id)[k].seqNum)
    {
      DurableOk(s, id);
      var op :| Wrote(op, s.applied, k, Durable(s, id)[k]);
      assert Holds(top, op.key, op.seqNum);
    }
    PrimaryExists(s);
    DurableOk(s, s.primary);
    forall op | Released(s, op)
      ensures Holds(top, op.key, op.seqNum)
    {
      ReleasedIsApplied(s, op);
    }
  }

  lemma PrimaryExists(s: State)
    requires Inv(s)
    ensures s.primary in s.chunks && TrafficOk(s)
  {
  }

  lemma ReleasedIsApplied(s: State, op: Op)
    requires TrafficOk(s) && Released(s, op)
    ensures op in s.applied
  {
    if op in s.wal {
      assert op in Elements(s.wal);
    } else if op !in s.acked {
      if msg :| msg in s.net && !msg.WriteRequest? && !msg.RegisterChunk? && msg.op == op {
        assert MsgOk(s, msg);
      }
    }
  }

  // ---- Monotone numbers -------------------------------------------------------

  /** Through writes, replays, crashes and reloads, a chunk's durable number for a key
      never decreases. */
  lemma NumbersSurviveSteps(s: State, step: Step, id: string, k: Key, n: nat)
    requires Inv(s) && Enabled(s, step) && id in s.chunks && Holds(Durable(s, id), k, n)
    ensures id in Do(s, step).chunks && Holds(Durable(Do(s, step), id), k, n)
  {
    hide SafeDisk, Enabled, Do, Received, Traced, Mirrors, Covers, TrafficOk;
    var t := Do(s, step);
    StepKeepsInv(s, step);
    FilesChangeByDelivery(s, step, id);
    DurableOk(s, id);
    DurableOk(t, id);
    assert ChunkOk(s.chunks[id], s.applied);
    if t.chunks[id].disk != s.chunks[id].disk {
      var op := ChangedByDelivery(s, step, id);
      ReceivedOk(s.chunks[id], op, s.applied);
    }
  }

  predicate DeliversTo(s: State, step: Step, id: string) {
    || (step.PrimaryApply? && id == s.primary)
    || (step.DeliverReplicate? && id == step.id)
    || (step.DeliverRecovery? && id == step.id)
  }

  /** A chunk's files change only by the delivery of one operation. */
  lemma FilesChangeByDelivery(s: State, step: Step, id: string)
    requires Enabled(s, step) && id in s.chunks
    ensures id in Do(s, step).chunks
    ensures if DeliversTo(s, step, id) then s.chunks[id].up && Do(s, step).chunks[id] == Received(s.chunks[id], step.op)
            else Do(s, step).chunks[id].disk == s.chunks[id].disk
  {
    hide Received, Scan, Listing, Codec.SafeKey;
    match step
    case PrimaryApply(_) =>
    case DeliverReplicate(_, _) =>
    case DeliverRecovery(_, _) =>
    case Crash(_) =>
    case Restart(_, _) =>
    case _ => UntouchedChunks(s, step);
  }

  lemma ChangedByDelivery(s: State, step: Step, id: string) returns (op: Op)
    requires TrafficOk(s) && Enabled(s, step) && id in s.chunks && id in Do(s, step).chunks
    requires Do(s, step).chunks[id].disk != s.chunks[id].disk
    ensures s.chunks[id].up && Codec.SafeKey(op.key) && Do(s, step).chunks[id] == Received(s.chunks[id], op)
  {
    hide Do, Received, Codec.SafeKey, TrafficOk;
    FilesChangeByDelivery(s, step, id);
    op := step.op;
    BoundIsSafe(s, op);
    AppliedIsBound(s);
    if step.PrimaryApply? {
      RequestIsBound(s, op);
    } else {
      ReleaseIsApplied(s, if step.DeliverReplicate? then Replicate(id, op) else Recovery(id, op));
    }
  }

  lemma BoundIsSafe(s: State, op: Op)
    requires TrafficOk(s)
    ensures op in s.bound ==> Codec.SafeKey(op.key)
  {
    hide Codec.SafeKey;
  }

  lemma {:induction false} NumbersSurviveRuns(s: State, steps: seq<Step>, t: State, id: string, k: Key, n: nat)
    requires Inv(s) && Exec(s, steps) == At(t) && id in s.chunks && Holds(Durable(s, id), k, n)
    ensures id in t.chunks && Holds(Durable(t, id), k, n)
    decreases |steps|
  {
    hide Enabled, Do, Inv, Durable;
    if steps == [] {
    } else {
      StepKeepsInv(s, steps[0]);
      NumbersSurviveSteps(s, steps[0], id, k, n);
      NumbersSurviveRuns(Do(s, steps[0]), steps[1..], t, id, k, n);
    }
  }

  // ---- No resurrection ----------------------------------------------------------

  /** The key is held as a tombstone numbered `d`, or at a larger number. */
  predicate Buried(es: map<Key, Entry>, k: Key, d: nat) {
    k in es && (es[k].seqNum > d || (es[k].seqNum == d && es[k].deleted))
  }

  lemma ApplyKeepsBuried(m: Image, op: Op, k: Key, d: nat)
    requires Buried(m.entries, k, d)
    ensures Buried(Apply(m, op).entries, k, d)
  {
  }

  lemma BuriedSurvivesSteps(s: State, step: Step, id: string, k: Key, d: nat)
    requires Inv(s) && Enabled(s, step) && id in s.chunks && Buried(Durable(s, id), k, d)
    ensures id in Do(s, step).chunks && Buried(Durable(Do(s, step), id), k, d)
  {
    hide SafeDisk, Enabled, Do, Received, Traced, Mirrors, Covers, TrafficOk;
    var t := Do(s, step);
    StepKeepsInv(s, step);
    FilesChangeByDelivery(s, step, id);
    DurableOk(s, id);
    DurableOk(t, id);
    assert ChunkOk(s.chunks[id], s.applied);
    if t.chunks[id].disk != s.chunks[id].disk {
      var op := ChangedByDelivery(s, step, id);
      ReceivedOk(s.chunks[id], op, s.applied);
      ApplyKeepsBuried(s.chunks[id].mem, op, k, d);
    }
  }

  /** No resurrection, in every run: once a chunk durably holds a delete numbered `d`, then
      through any steps at all, forgetful restarts and a wrapped counter included, it keeps
      that tombstone or a larger number, and shows the key only at a larger number. */
  lemma {:induction false} DeletesStayBuried(s: State, steps: seq<Step>, t: State, id: string, k: Key, d: nat)
    requires Inv(s) && Exec(s, steps) == At(t) && id in s.chunks && Buried(Durable(s, id), k, d)
    ensures id in t.chunks && Buried(Durable(t, id), k, d)
    ensures k in Visible(Durable(t, id)) ==> Durable(t, id)[k].seqNum > d
    decreases |steps|
  {
    hide Enabled, Do, Inv, Durable;
    if steps == [] {
    } else {
      StepKeepsInv(s, steps[0]);
      BuriedSurvivesSteps(s, steps[0], id, k, d);
      DeletesStayBuried(Do(s, steps[0]), steps[1..], t, id, k, d);
    }
  }

  // ---- Agreement ----------------------------------------------------------------

  /** Numbers identify operations; every bound number was issued and is no longer in a
      client's hands; no number is in two hands. */
  ghost predicate Unique(s: State) {
    && SameNumberSameOp(s.bound)
    && (forall op :: op in s.bound ==> op.seqNum <= s.counter && op.seqNum !in s.hands)
    && (forall n :: n in s.hands ==> n <= s.counter && s.hands[n] == 1)
  }

  ghost predicate SameNumberSameOp(ops: set<Op>) {
    forall a, b :: a in ops && b in ops && a.seqNum == b.seqNum ==> a == b
  }

  /** Every number a client has sent or still holds is at most `n`. */
  ghost predicate NothingAbove(s: State, n: nat) {
    && (forall op :: op in s.bound ==> op.seqNum <= n)
    && (forall i :: i in s.hands ==> i <= n)
  }

  /** The two ways a number can come up again are a restart that forgets it and the 64-bit
      counter wrapping round; a step is clean when it does neither to any number given. */
  ghost predicate Clean(s: State, step: Step) {
    match step
    case MasterRestart => NothingAbove(s, MaxSeq(s.wal))
    case Issue => s.counter + 1 < TWO_64 || (s.bound == {} && s.hands == multiset{})
    case FetchReplicas(_, answered, _, _) =>
      answered && Listed(s, s.primary) ==> s.counter + 1 < TWO_64 || NothingAbove(s, 0)
    case _ => true
  }

  ghost predicate CleanRun(s: State, steps: seq<Step>, t: State)
    decreases |steps|
  {
    if steps == [] then s == t
    else Enabled(s, steps[0]) && Clean(s, steps[0]) && CleanRun(Do(s, steps[0]), steps[1..], t)
  }

  lemma {:induction false} CleanRunExecutes(s: State, steps: seq<Step>, t: State)
    requires CleanRun(s, steps, t)
    ensures Exec(s, steps) == At(t)
    decreases |steps|
  {
    hide Enabled, Do, Clean;
    if steps == [] {
    } else {
      CleanRunExecutes(Do(s, steps[0]), steps[1..], t);
    }
  }

  lemma StepKeepsUnique(s: State, step: Step)
    requires Unique(s) && Enabled(s, step) && Clean(s, step)
    ensures Unique(Do(s, step))
  {
    hide Unique, Codec.SafeKey;
    var t := Do(s, step);
    match step
    case Issue =>
      assert s.hands == multiset{} ==> t.hands == multiset{t.counter};
      CounterMoves(s, t);
    case FetchReplicas(_, _, _, _) => CounterMoves(s, t);
    case MasterRestart => CounterRestarts(s, t);
    case SendWrite(op) => NumberUsed(s, t, op);
    case Abandon(n) => NumberDropped(s, t, n);
    case _ => UniqueDependsOn(s, t);
  }

  lemma UniqueDependsOn(s: State, t: State)
    requires Unique(s) && t.bound == s.bound && t.hands == s.hands && t.counter == s.counter
    ensures Unique(t)
  {
  }

  lemma CounterMoves(s: State, t: State)
    requires Unique(s) && t.bound == s.bound
    requires (t.hands == s.hands && t.counter == s.counter) || t.counter == Next(s.counter)
    requires t.counter == Next(s.counter) ==>
               || (s.counter + 1 < TWO_64 && (t.hands == s.hands || t.hands == s.hands + multiset{t.counter}))
               || (s.bound == {} && s.hands == multiset{} && t.hands == multiset{t.counter})
               || (NothingAbove(s, 0) && t.hands == s.hands)
    ensures Unique(t)
  {
    assert s.counter + 1 < TWO_64 ==> Next(s.counter) == s.counter + 1;
    assert s.counter + 1 !in s.hands;
  }

  lemma CounterRestarts(s: State, t: State)
    requires Unique(s) && t.bound == s.bound && t.hands == s.hands
    requires NothingAbove(s, MaxSeq(s.wal)) && t.counter == MaxSeq(s.wal)
    ensures Unique(t)
  {
    hide MaxSeq;
  }

  lemma NumberUsed(s: State, t: State, op: Op)
    requires Unique(s) && op.seqNum in s.hands
    requires t.bound == s.bound + {op} && t.hands == s.hands - multiset{op.seqNum} && t.counter == s.counter
    ensures Unique(t)
  {
  }

  lemma NumberDropped(s: State, t: State, n: nat)
    requires Unique(s) && n in s.hands
    requires t.bound == s.bound && t.hands == s.hands - multiset{n} && t.counter == s.counter
    ensures Unique(t)
  {
  }

  lemma {:induction false} CleanRunKeeps(s: State, steps: seq<Step>, t: State)
    requires Inv(s) && Unique(s) && CleanRun(s, steps, t)
    ensures Inv(t) && Unique(t)
    decreases |steps|
  {
    hide Inv, Unique, Enabled, Do, Clean;
    if steps == [] {
    } else {
      StepKeepsInv(s, steps[0]);
      StepKeepsUnique(s, steps[0]);
      CleanRunKeeps(Do(s, steps[0]), steps[1..], t);
    }
  }

  /** A copy of key `k` somewhere: on a disk, in a running memory, in a request, a message,
      a handler, the log or an acknowledgement. */
  ghost predicate CopyOf(s: State, k: Key, e: Entry) {
    || (exists id :: id in s.chunks && SafeDisk(s.chunks[id].disk) && Stores(Held(s.chunks[id].disk), k, e))
    || (exists id :: id in s.chunks && s.chunks[id].up && Stores(s.chunks[id].mem.entries, k, e))
    || (exists op :: (Released(s, op) || WriteRequest(op) in s.net) && op.key == k && EntryOf(op) == e)
  }

  predicate Stores(es: map<Key, Entry>, k: Key, e: Entry) {
    k in es && es[k] == e
  }

  /** Two copies with the same number are the same copy, and each is exactly what one
      client sent. */
  ghost predicate Agree(s: State) {
    && (forall k1, e1, k2, e2 :: CopyOf(s, k1, e1) && CopyOf(s, k2, e2) && e1.seqNum == e2.seqNum ==>
          k1 == k2 && e1 == e2)
    && (forall k, e :: CopyOf(s, k, e) ==> exists op :: Wrote(op, s.bound, k, e))
  }

  /** Agreement over every run in which no number comes up again. */
  lemma Agreement(s: State, steps: seq<Step>, t: State)
    requires Init(s) && CleanRun(s, steps, t)
    ensures Agree(t)
  {
    hide CleanRun, Inv, Agree;
    InitInv(s);
    CleanRunKeeps(s, steps, t);
    UniqueAgrees(t);
  }

  lemma UniqueAgrees(t: State)
    requires Inv(t) && Unique(t)
    ensures Agree(t)
  {
    hide CopyOf, Inv;
    forall k, e | CopyOf(t, k, e)
      ensures exists op :: Wrote(op, t.bound, k, e)
    {
      CopyIsBound(t, k, e);
    }
  }

  lemma CopyIsBound(s: State, k: Key, e: Entry)
    requires Inv(s) && CopyOf(s, k, e)
    ensures exists op :: Wrote(op, s.bound, k, e)
  {
    hide SafeDisk, Released;
    if id :| && id in s.chunks
             && ((SafeDisk(s.chunks[id].disk) && Stores(Held(s.chunks[id].disk), k, e))
                 || (s.chunks[id].up && Stores(s.chunks[id].mem.entries, k, e)))
    {
      assert ChunkOk(s.chunks[id], s.applied);
      var op :| Wrote(op, s.applied, k, Held(s.chunks[id].disk)[k]);
      assert Wrote(op, s.bound, k, e);
    } else {
      var op :| (Released(s, op) || WriteRequest(op) in s.net) && op.key == k && EntryOf(op) == e;
      if Released(s, op) {
        ReleasedIsApplied(s, op);
      } else {
        assert MsgOk(s, WriteRequest(op));
      }
      assert Wrote(op, s.bound, k, e);
    }
  }

  // ---- Acknowledged operations -----------------------------------------------------

  /** What the running primary serves for the key of `op` is `op` itself or newer. */
  predicate Served(s: State, op: Op) {
    Up(s, s.primary) ==>
      var es := s.chunks[s.primary].mem.entries;
      op.key in es && (es[op.key] == EntryOf(op) || es[op.key].seqNum > op.seqNum)
  }

  /** Once acknowledged, an operation is shown by every later read at the primary, across
      its crashes and reloads, until an operation with a larger number replaces it. */
  lemma AckedOperationsSurvive(start: State, before: seq<Step>, s: State, after: seq<Step>, t: State, op: Op)
    requires Init(start) && CleanRun(start, before, s) && CleanRun(s, after, t)
    requires op in s.acked
    ensures Served(t, op)
  {
    hide SafeDisk, CleanRun, Init, Traced, Mirrors, Unique;
    InitInv(start);
    assert Unique(start) by {
      InitUnique(start);
    }
    CleanRunKeeps(start, before, s);
    CleanRunKeeps(s, after, t);
    CleanRunExecutes(s, after, t);
    HistoryGrows(s, after);
    AckedIsServed(t, op);
  }

  lemma InitUnique(s: State)
    requires Init(s)
    ensures Unique(s)
  {
  }

  lemma {:induction false} HistoryGrows(s: State, steps: seq<Step>)
    requires Exec(s, steps).At?
    ensures s.acked <= Exec(s, steps).state.acked && s.bound <= Exec(s, steps).state.bound
    ensures s.chunks.Keys <= Exec(s, steps).state.chunks.Keys && s.net <= Exec(s, steps).state.net
    decreases |steps|
  {
    if steps == [] {
    } else {
      StepGrows(s, steps[0]);
      hide Enabled, Do;
      HistoryGrows(Do(s, steps[0]), steps[1..]);
    }
  }

  lemma StepGrows(s: State, step: Step)
    requires Enabled(s, step)
    ensures s.acked <= Do(s, step).acked && s.bound <= Do(s, step).bound
    ensures s.chunks.Keys <= Do(s, step).chunks.Keys && s.net <= Do(s, step).net
  {
    hide After, MaxSeq, Codec.SafeKey, Registries.Enumerates, Received, Scan, Listing;
  }

  /** Where numbers are unique it is enough that the chunk once held the delete's number or
      above, whether or not it ever stored the tombstone itself. */
  lemma DeletesStayDeleted(s: State, steps: seq<Step>, t: State, id: string, del: Op)
    requires Inv(s) && Unique(s) && CleanRun(s, steps, t)
    requires del in s.bound && del.isDelete && id in s.chunks && Holds(Durable(s, id), del.key, del.seqNum)
    ensures id in t.chunks
    ensures del.key in Visible(Durable(t, id)) ==> Durable(t, id)[del.key].seqNum > del.seqNum
    ensures t.chunks[id].up ==> t.chunks[id].mem.entries == Durable(t, id)
  {
    hide CleanRun, TrafficOk, Inv, Durable;
    CleanRunExecutes(s, steps, t);
    CleanRunKeeps(s, steps, t);
    NumbersSurviveRuns(s, steps, t, id, del.key, del.seqNum);
    HistoryGrows(s, steps);
    PrimaryExists(t);
    AppliedIsBound(t);
    DurableOk(t, id);
    var op :| Wrote(op, t.applied, del.key, Durable(t, id)[del.key]);
    assert op in t.bound && del in t.bound;
  }

  lemma AckedIsServed(s: State, op: Op)
    requires Inv(s) && Unique(s) && op in s.acked
    ensures Served(s, op)
  {
    hide SafeDisk;
    var c := s.chunks[s.primary];
    assert ChunkOk(c, s.applied);
    if c.up {
      assert Holds(Held(c.disk), op.key, op.seqNum);
      var o :| Wrote(o, s.applied, op.key, c.mem.entries[op.key]);
      if o.seqNum == op.seqNum {
        assert o in s.bound && op in s.bound;
      }
    }
  }

  // ---- The counter over restarts ----------------------------------------------------

  lemma {:induction false} CleanRunConcat(s: State, a: seq<Step>, m: State, b: seq<Step>, t: State)
    requires CleanRun(s, a, m) && CleanRun(m, b, t)
    ensures CleanRun(s, a + b, t)
    decreases |a|
  {
    hide Enabled, Do, Clean;
    if a == [] {
      assert a + b == b;
    } else {
      assert (a + b)[1..] == a[1..] + b;
      CleanRunConcat(Do(s, a[0]), a[1..], m, b, t);
    }
  }

  lemma CleanRunOne(s: State, step: Step)
    requires Enabled(s, step) && Clean(s, step)
    ensures CleanRun(s, [step], Do(s, step))
  {
    assert [step][1..] == [];
    assert CleanRun(Do(s, step), [step][1..], Do(s, step));
  }

  /** How often a step can move the counter on. */
  function Cost(step: Step): nat {
    if step.Issue? || step.FetchReplicas? then 1 else 0
  }

  function Moves(steps: seq<Step>): nat {
    if steps == [] then 0 else Cost(steps[0]) + Moves(steps[1..])
  }

  lemma {:induction false} MovesConcat(a: seq<Step>, b: seq<Step>)
    ensures Moves(a + b) == Moves(a) + Moves(b)
    decreases |a|
  {
    if a == [] {
      assert a + b == b;
    } else {
      assert (a + b)[1..] == a[1..] + b;
      MovesConcat(a[1..], b);
    }
  }

  lemma {:induction false} MovesBound(steps: seq<Step>)
    ensures Moves(steps) <= |steps|
    decreases |steps|
  {
    if steps == [] {
    } else {
      MovesBound(steps[1..]);
    }
  }

  /** A run without restarts is clean while the counter has room for it. */
  lemma {:induction false} ExecIsClean(s: State, steps: seq<Step>, t: State)
    requires Exec(s, steps) == At(t) && MasterRestart !in steps && s.counter + Moves(steps) < TWO_64
    ensures CleanRun(s, steps, t)
    decreases |steps|
  {
    if steps == [] {
    } else {
      assert steps == [steps[0]] + steps[1..];
      CounterMovesByOne(s, steps[0]);
      hide Enabled, Do, Clean;
      ExecIsClean(Do(s, steps[0]), steps[1..], t);
    }
  }

  lemma CounterMovesByOne(s: State, step: Step)
    requires Enabled(s, step) && step != MasterRestart && s.counter + Cost(step) < TWO_64
    ensures Do(s, step).counter <= s.counter + Cost(step) && Clean(s, step)
  {
    hide Received, Scan, Listing, Codec.SafeKey, Registries.Enumerates, After;
  }

  lemma IssueOne(s: State) returns (t: State)
    requires Listed(s, s.primary) && s.counter + 1 < TWO_64
    ensures CleanRun(s, [Issue], t)
    ensures t == s.(counter := s.counter + 1, hands := s.hands + multiset{s.counter + 1})
  {
    CleanRunOne(s, Issue);
    t := Do(s, Issue);
    assert Next(s.counter) == s.counter + 1;
  }

  /** While the primary is listed, `j` requests hand out the next `j` numbers. */
  lemma {:induction false} IssueMany(s: State, j: nat) returns (steps: seq<Step>, t: State)
    requires Listed(s, s.primary) && s.counter + j < TWO_64
    ensures CleanRun(s, steps, t)
    ensures t == s.(counter := s.counter + j, hands := t.hands)
    ensures s.hands <= t.hands && (j > 0 ==> s.hands + multiset{s.counter + j} <= t.hands)
  {
    if j == 0 {
      steps, t := [], s;
    } else {
      hide CleanRun;
      var front, m := IssueMany(s, j - 1);
      t := IssueOne(m);
      CleanRunConcat(s, front, m, [Issue], t);
      steps := front + [Issue];
      HandsGrow(s.hands, m.hands, s.counter + j);
    }
  }

  lemma HandsGrow(a: multiset<nat>, b: multiset<nat>, n: nat)
    requires a <= b
    ensures a <= b + multiset{n} && a + multiset{n} <= b + multiset{n}
  {
  }

  lemma {:induction false} SomeListing(names: set<string>) returns (files: seq<string>)
    ensures Registries.Enumerates(files, names)
    decreases |names|
  {
    if names == {} {
      files := [];
    } else {
      var f :| f in names;
      var rest := SomeListing(names - {f});
      files := rest + [f];
    }
  }

  lemma PrimaryReloads(s: State) returns (steps: seq<Step>, t: State)
    requires s.primary in s.chunks && SafeDisk(s.chunks[s.primary].disk)
    ensures CleanRun(s, steps, t) && Up(t, t.primary)
    ensures t == s.(chunks := t.chunks) && t.chunks[s.primary].disk == s.chunks[s.primary].disk
  {
    hide JsonFile;
    var disk := s.chunks[s.primary].disk;
    if s.chunks[s.primary].up {
      steps, t := [], s;
    } else {
      HeldShows(disk);
      var files := SomeListing(disk.Keys);
      assert Listing(files, disk);
      hide SafeDisk, Listing, Scan;
      var step := Restart(s.primary, files);
      CleanRunOne(s, step);
      steps, t := [step], Do(s, step);
    }
  }

  lemma PrimaryRegisters(s: State) returns (steps: seq<Step>, t: State)
    requires Up(s, s.primary)
    ensures CleanRun(s, steps, t) && Listed(t, t.primary) && s.net <= t.net
    ensures t == s.(alive := t.alive, net := t.net)
  {
    hide CleanRun, After;
    var ask := AskRegister(s.primary);
    var m := Do(s, ask);
    CleanRunOne(s, ask);
    var answer := AnswerRegister(m.primary, s.chunks[s.primary].mem.lastSeq);
    CleanRunOne(m, answer);
    t := Do(m, answer);
    CleanRunConcat(s, [ask], m, [answer], t);
    steps := [ask] + [answer];
  }

  /** From any sound state the primary can come back and register. */
  lemma PrimaryReturns(s: State) returns (steps: seq<Step>, t: State)
    requires s.primary in s.chunks && SafeDisk(s.chunks[s.primary].disk)
    ensures CleanRun(s, steps, t) && Listed(t, t.primary) && Up(t, t.primary) && s.net <= t.net
    ensures t == s.(chunks := t.chunks, alive := t.alive, net := t.net)
    ensures t.chunks[s.primary].disk == s.chunks[s.primary].disk
  {
    hide CleanRun, SafeDisk;
    var up, m := PrimaryReloads(s);
    var register, u := PrimaryRegisters(m);
    CleanRunConcat(s, up, m, register, u);
    steps, t := up + register, u;
  }

  // ---- Exactly when a step is harmless -------------------------------------------------

  /** Every clean continuation binds each number to one operation. */
  ghost predicate KeepsNumbers(s: State) {
    forall steps: seq<Step>, t: State :: CleanRun(s, steps, t) ==> SameNumberSameOp(t.bound)
  }

  /** Every clean continuation agrees on all copies. */
  ghost predicate KeepsAgreement(s: State) {
    forall steps: seq<Step>, t: State :: CleanRun(s, steps, t) ==> Agree(t)
  }

  /** In every clean continuation the primary serves all that was ever acknowledged. */
  ghost predicate KeepsAcks(s: State) {
    forall steps: seq<Step>, t: State :: CleanRun(s, steps, t) ==> AllServed(t)
  }

  ghost predicate AllServed(s: State) {
    forall op :: op in s.acked ==> Served(s, op)
  }

  /** Clean is exact, for every step: what follows the step keeps each number on one
      operation if and only if the step was clean, and so for agreement of all copies, and
      so for the survival of acknowledged operations. A master restart, in particular, is
      harmless exactly when no number sent or held exceeds the largest logged one. */
  lemma HarmlessIffClean(s: State, step: Step)
    requires Inv(s) && Unique(s) && s.counter < TWO_64 && Enabled(s, step)
    ensures KeepsNumbers(Do(s, step)) <==> Clean(s, step)
    ensures KeepsAgreement(Do(s, step)) <==> Clean(s, step)
    ensures KeepsAcks(Do(s, step)) <==> Clean(s, step)
  {
    hide Inv, Unique, Enabled, Do, Clean, KeepsNumbers, KeepsAgreement, KeepsAcks, ComesAgain;
    StepKeepsInv(s, step);
    if Clean(s, step) {
      StepKeepsUnique(s, step);
      UniqueKeepsAll(Do(s, step));
    } else {
      var n := ComesUpAgain(s, step);
      RepeatRuinsAll(Do(s, step), n);
    }
  }

  lemma UniqueKeepsAll(s: State)
    requires Inv(s) && Unique(s)
    ensures KeepsNumbers(s) && KeepsAgreement(s) && KeepsAcks(s)
  {
    hide Inv, Unique, CleanRun, Agree, AllServed, SameNumberSameOp;
    forall steps: seq<Step>, t: State | CleanRun(s, steps, t)
      ensures SameNumberSameOp(t.bound) && Agree(t) && AllServed(t)
    {
      CleanRunKeeps(s, steps, t);
      UniqueBinds(t);
      UniqueAgrees(t);
      AllAckedServed(t);
    }
  }

  lemma RepeatRuinsAll(s: State, n: nat)
    requires Inv(s) && ComesAgain(s, n)
    ensures !KeepsNumbers(s) && !KeepsAgreement(s) && !KeepsAcks(s)
  {
    hide Inv, ComesAgain, CleanRun, Agree, AllServed, SameNumberSameOp, Collision;
    var steps, m, x, y := Collide(s, n);
    RequestsDisagree(m, x, y);
    assert CleanRun(s, steps, m) && !SameNumberSameOp(m.bound) && !Agree(m);
    var more, t := AckBoth(m, x, y);
    CleanRunConcat(s, steps, m, more, t);
    assert CleanRun(s, steps + more, t) && !AllServed(t);
  }

  lemma AllAckedServed(s: State)
    requires Inv(s) && Unique(s)
    ensures AllServed(s)
  {
    hide Inv, Unique;
    forall op | op in s.acked
      ensures Served(s, op)
    {
      AckedIsServed(s, op);
    }
  }

  lemma UniqueBinds(s: State)
    requires Unique(s)
    ensures SameNumberSameOp(s.bound)
  {
  }

  // ---- What a forgetful restart leads to ---------------------------------------------

  /** Two different entries for one key under the largest number anyone was given, both
      requested, with the primary running. */
  ghost predicate Collision(s: State, x: Op, y: Op) {
    && Inv(s) && Up(s, s.primary)
    && WriteRequest(x) in s.net && WriteRequest(y) in s.net && x in s.bound && y in s.bound
    && x.key == y.key && x.seqNum == y.seqNum && EntryOf(x) != EntryOf(y)
    && forall op :: op in s.bound ==> op.seqNum <= x.seqNum
  }

  lemma RequestsDisagree(s: State, x: Op, y: Op)
    requires Collision(s, x, y)
    ensures !Agree(s)
  {
    hide Inv;
    assert CopyOf(s, x.key, EntryOf(x)) && CopyOf(s, y.key, EntryOf(y));
  }

  /** Whatever the primary holds, it cannot serve both once both are acknowledged. */
  lemma AckBoth(s: State, x: Op, y: Op) returns (steps: seq<Step>, t: State)
    requires Collision(s, x, y)
    ensures CleanRun(s, steps, t) && !AllServed(t)
  {
    hide CleanRun, Inv, Received;
    var first, m := AckAlone(s, x);
    var second, u := AckAlone(m, y);
    CleanRunConcat(s, first, m, second, u);
    steps, t := first + second, u;
    CleanRunExecutes(s, steps, t);
    ExecKeepsInv(s, steps);
    NotBothServed(t, x, y);
  }

  lemma NotBothServed(s: State, x: Op, y: Op)
    requires Inv(s) && Up(s, s.primary) && x.key == y.key && x.seqNum == y.seqNum && EntryOf(x) != EntryOf(y)
    requires forall op :: op in s.bound ==> op.seqNum <= x.seqNum
    ensures !Served(s, x) || !Served(s, y)
  {
    PrimaryShowsBound(s, x.key, x.seqNum);
    hide Inv;
  }

  /** The running primary shows no number that was not sent. */
  lemma PrimaryShowsBound(s: State, k: Key, n: nat)
    requires Inv(s) && Up(s, s.primary) && forall op :: op in s.bound ==> op.seqNum <= n
    ensures var es := s.chunks[s.primary].mem.entries; k in es ==> es[k].seqNum <= n
  {
    PrimaryExists(s);
    AppliedIsBound(s);
    DurableOk(s, s.primary);
    hide Inv, Durable, Covers, TrafficOk, SafeDisk;
    var es := s.chunks[s.primary].mem.entries;
    if k in es {
      var op :| Wrote(op, s.applied, k, es[k]);
      assert op in s.bound;
    }
  }

  lemma {:induction false} Largest(numbers: set<nat>) returns (n: nat)
    requires numbers != {}
    ensures n in numbers && forall i :: i in numbers ==> i <= n
    decreases |numbers|
  {
    n :| n in numbers;
    var rest := numbers - {n};
    assert forall i :: i in numbers ==> i == n || i in rest;
    if rest == {} {
    } else {
      var m := Largest(rest);
      n := Max(n, m);
    }
  }

  ghost predicate Given(s: State, n: nat) {
    n in s.hands || exists op :: op in s.bound && op.seqNum == n
  }

  ghost predicate GivenTwice(s: State, n: nat) {
    s.hands[n] >= 2 || (n in s.hands && exists op :: op in s.bound && op.seqNum == n)
  }

  /** The largest number sent is given twice, or given and about to be reached again. */
  ghost predicate ComesAgain(s: State, n: nat) {
    && n < TWO_64 && (forall op :: op in s.bound ==> op.seqNum <= n)
    && (GivenTwice(s, n) || (s.counter < n && Given(s, n)))
  }

  lemma ComesUpAgain(s: State, step: Step) returns (n: nat)
    requires Unique(s) && s.counter < TWO_64 && Enabled(s, step) && !Clean(s, step)
    ensures ComesAgain(Do(s, step), n)
  {
    hide MaxSeq, Codec.SafeKey, Registries.Enumerates;
    n := LargestGiven(s);
    assert step.Issue? ==> Do(s, step).hands[0] >= 1 + s.hands[0];
  }

  /** A run from there to a collision. */
  lemma Collide(s: State, n: nat) returns (steps: seq<Step>, t: State, x: Op, y: Op)
    requires Inv(s) && ComesAgain(s, n)
    ensures CleanRun(s, steps, t) && Collision(t, x, y) && !SameNumberSameOp(t.bound)
  {
    var again, u := GivenAgain(s, n);
    hide CleanRun, Inv, Collision, SameNumberSameOp;
    var rest;
    rest, t, x, y := SendBoth(u, n);
    CleanRunConcat(s, again, u, rest, t);
    steps := again + rest;
  }

  lemma GivenAgain(s: State, n: nat) returns (steps: seq<Step>, t: State)
    requires Inv(s) && ComesAgain(s, n)
    ensures CleanRun(s, steps, t)
    ensures Inv(t) && Up(t, t.primary) && t.bound == s.bound && GivenTwice(t, n)
  {
    hide CleanRun, Inv, Up;
    if GivenTwice(s, n) {
      steps, t := PrimaryIsBack(s);
    } else {
      steps, t := IssuedAgain(s, n);
      InTwoHands(s.hands, t.hands, n);
    }
  }

  lemma PrimaryIsBack(s: State) returns (steps: seq<Step>, t: State)
    requires Inv(s)
    ensures CleanRun(s, steps, t)
    ensures Inv(t) && Up(t, t.primary) && t.bound == s.bound && t.hands == s.hands
  {
    PrimaryDiskSafe(s);
    hide SafeDisk, CleanRun, Inv, Up;
    steps, t := PrimaryReloads(s);
    CleanRunExecutes(s, steps, t);
    ExecKeepsInv(s, steps);
  }

  lemma InTwoHands(a: multiset<nat>, b: multiset<nat>, n: nat)
    requires a + multiset{n} <= b
    ensures n in b && (n in a ==> b[n] >= 2)
  {
    assert (a + multiset{n})[n] <= b[n];
  }

  /** The primary comes back and the counter climbs up to `n`. */
  lemma IssuedAgain(s: State, n: nat) returns (steps: seq<Step>, t: State)
    requires Inv(s) && s.counter < n < TWO_64
    ensures CleanRun(s, steps, t)
    ensures Inv(t) && Up(t, t.primary) && t.bound == s.bound && s.hands + multiset{n} <= t.hands
  {
    PrimaryDiskSafe(s);
    hide SafeDisk, CleanRun, Inv, Do, Enabled, Up, Listed, Exec;
    var back, m := PrimaryReturns(s);
    var more;
    more, t := CounterClimbs(m, n);
    CleanRunConcat(s, back, m, more, t);
    steps := back + more;
    CleanRunExecutes(s, steps, t);
    ExecKeepsInv(s, steps);
  }

  lemma CounterClimbs(s: State, n: nat) returns (steps: seq<Step>, t: State)
    requires Listed(s, s.primary) && Up(s, s.primary) && s.counter < n < TWO_64
    ensures CleanRun(s, steps, t)
    ensures Up(t, t.primary) && t.bound == s.bound && s.hands + multiset{n} <= t.hands
  {
    hide CleanRun;
    steps, t := IssueMany(s, n - s.counter);
  }

  /** A number in two hands, or sent and in a hand again, ends up on two writes. */
  lemma SendBoth(s: State, n: nat) returns (steps: seq<Step>, t: State, x: Op, y: Op)
    requires Inv(s) && Up(s, s.primary) && GivenTwice(s, n)
    requires forall op :: op in s.bound ==> op.seqNum <= n
    ensures CleanRun(s, steps, t) && Collision(t, x, y) && !SameNumberSameOp(t.bound)
  {
    hide CleanRun, Inv;
    if s.hands[n] >= 2 {
      steps, t, x, y := SendTwo(s, n);
    } else {
      x :| x in s.bound && x.seqNum == n;
      BoundIsRequested(s, x);
      hide Codec.SafeKey;
      steps, t, y := SendRival(s, x);
    }
    CleanRunExecutes(s, steps, t);
    ExecKeepsInv(s, steps);
  }

  lemma LargestGiven(s: State) returns (n: nat)
    requires Unique(s) && !(s.bound == {} && s.hands == multiset{})
    ensures Given(s, n) && NothingAbove(s, n) && n <= s.counter
  {
    var given := (set op | op in s.bound :: op.seqNum) + (set i | i in s.hands);
    if op :| op in s.bound {
      assert op.seqNum in given;
    } else {
      var i :| i in s.hands;
      assert i in given;
    }
    n := Largest(given);
    assert forall op :: op in s.bound ==> op.seqNum in given;
    assert forall i :: i in s.hands ==> i in given;
  }

  lemma BoundIsRequested(s: State, op: Op)
    requires Inv(s) && op in s.bound
    ensures WriteRequest(op) in s.net && Codec.SafeKey(op.key)
  {
  }

  /** A number in two hands goes out on two writes. */
  lemma SendTwo(s: State, n: nat) returns (steps: seq<Step>, t: State, x: Op, y: Op)
    requires s.hands[n] >= 2
    ensures CleanRun(s, steps, t) && x != y
    ensures x.key == y.key && x.seqNum == y.seqNum == n && EntryOf(x) != EntryOf(y)
    ensures t == s.(hands := t.hands, net := s.net + {WriteRequest(x), WriteRequest(y)}, bound := s.bound + {x, y})
  {
    hide CleanRun;
    x, y := Op("u/s", [], n, false), Op("u/s", [0], n, false);
    var m := SendsSafely(s, x);
    t := SendsSafely(m, y);
    CleanRunConcat(s, [SendWrite(x)], m, [SendWrite(y)], t);
    steps := [SendWrite(x)] + [SendWrite(y)];
  }

  /** A number that comes back goes out on a second write to the same key. */
  lemma SendRival(s: State, x: Op) returns (steps: seq<Step>, t: State, y: Op)
    requires x.seqNum in s.hands && Codec.SafeKey(x.key)
    ensures CleanRun(s, steps, t) && y != x
    ensures y.key == x.key && y.seqNum == x.seqNum && EntryOf(y) != EntryOf(x)
    ensures t == s.(hands := t.hands, net := s.net + {WriteRequest(y)}, bound := s.bound + {y})
  {
    hide CleanRun, Codec.SafeKey;
    y := Op(x.key, x.value + [0], x.seqNum, false);
    assert |y.value| != |x.value|;
    t := SendsSafely(s, y);
    steps := [SendWrite(y)];
  }

  lemma PrimaryDiskSafe(s: State)
    requires Inv(s)
    ensures s.primary in s.chunks && SafeDisk(s.chunks[s.primary].disk)
  {
  }

  lemma SendsSafely(s: State, op: Op) returns (t: State)
    requires op.seqNum in s.hands && Codec.SafeKey(op.key) && (op.isDelete ==> op.value == [])
    ensures CleanRun(s, [SendWrite(op)], t)
    ensures t == s.(hands := s.hands - multiset{op.seqNum}, net := s.net + {WriteRequest(op)}, bound := s.bound + {op})
  {
    hide Codec.SafeKey;
    CleanRunOne(s, SendWrite(op));
    t := Do(s, SendWrite(op));
  }

  // ---- Write admission -----------------------------------------------------------------

  /** While the primary is not a member, one step other than its registration neither
      issues a number nor moves the counter, and does not make it a member. */
  lemma StepIssuesNothing(s: State, step: Step)
    requires s.primary !in s.alive && Enabled(s, step)
    requires !(step.AnswerRegister? && step.id == s.primary)
    ensures step != Issue
    ensures var t := Do(s, step);
            && t.primary == s.primary && t.primary !in t.alive && t.hands <= s.hands
            && (step != MasterRestart ==> t.counter == s.counter)
  {
  }

  /** After a restart, until the primary registers again, no number is issued and, short of
      another restart, the counter does not move: heartbeats never add members. */
  lemma {:induction false} NoNumberBeforeThePrimaryRegisters(s: State, steps: seq<Step>)
    requires s.primary !in s.alive && Exec(s, steps).At?
    requires forall step :: step in steps ==> !(step.AnswerRegister? && step.id == s.primary)
    ensures Issue !in steps
    ensures var t := Exec(s, steps).state;
            && t.primary !in t.alive && t.hands <= s.hands
            && (MasterRestart !in steps ==> t.counter == s.counter)
    decreases |steps|
  {
    if steps == [] {
    } else {
      hide Enabled, Do;
      StepIssuesNothing(s, steps[0]);
      assert steps == [steps[0]] + steps[1..];
      NoNumberBeforeThePrimaryRegisters(Do(s, steps[0]), steps[1..]);
    }
  }

  // ---- What an acknowledgement does not say ----------------------------------------------

  /** A primary that cannot reach the master acknowledges any requested write by itself. */
  lemma AckAlone(s: State, op: Op) returns (steps: seq<Step>, t: State)
    requires Up(s, s.primary) && WriteRequest(op) in s.net
    ensures CleanRun(s, steps, t)
    ensures t == s.(chunks := s.chunks[s.primary := Received(s.chunks[s.primary], op)], tasks := t.tasks,
                    net := s.net + {Ack(op)}, applied := s.applied + {op}, acked := s.acked + {op})
    ensures t.tasks <= s.tasks && Up(t, t.primary)
  {
    var fetch := FetchReplicas(op, false, false, []);
    var s1 := Deliver(s, s.primary, op).(tasks := s.tasks + {Fetching(op)}, applied := s.applied + {op});
    var s2 := s1.(tasks := s1.tasks - {Fetching(op)} + {Sending(op, [])});
    hide Received, CleanRun;
    assert Do(s, PrimaryApply(op)) == s1;
    CleanRunOne(s, PrimaryApply(op));
    assert Enabled(s1, fetch) && Do(s1, fetch) == s2;
    CleanRunOne(s1, fetch);
    CleanRunConcat(s, [PrimaryApply(op)], s1, [fetch], s2);
    assert Enabled(s2, Finish(op));
    CleanRunOne(s2, Finish(op));
    t := Do(s2, Finish(op));
    CleanRunConcat(s, [PrimaryApply(op)] + [fetch], s2, [Finish(op)], t);
    steps := [PrimaryApply(op)] + [fetch] + [Finish(op)];
  }

  /** No replicate of `op` exists or is about to be sent. */
  ghost predicate Unreplicated(s: State, op: Op) {
    && (forall id :: Replicate(id, op) !in s.net)
    && (forall task :: task in s.tasks ==> task.op != op)
  }

  /** An acknowledgement does not imply replication: a write no replica was ever sent can be
      acknowledged with every other chunk as it was and still no replicate under way. */
  lemma AckWithoutReplication(s: State, op: Op) returns (steps: seq<Step>, t: State)
    requires Up(s, s.primary) && WriteRequest(op) in s.net && Unreplicated(s, op)
    ensures CleanRun(s, steps, t)
    ensures op in t.acked && Unreplicated(t, op)
    ensures forall id :: id in s.chunks && id != s.primary ==> id in t.chunks && t.chunks[id] == s.chunks[id]
  {
    hide CleanRun;
    steps, t := AckAlone(s, op);
  }

  /** Why survival needs clean restarts: once the counter stands below the number of an
      operation the primary holds, as a restart leaves it when the log lacks that operation,
      the number can come back, and the write it comes back to is acknowledged although the
      primary discards it as stale. */
  lemma AckSwallowed(s: State, held: Op) returns (steps: seq<Step>, t: State, swallowed: Op)
    requires Inv(s) && held in s.bound && s.counter < held.seqNum < TWO_64
    requires Stores(Durable(s, s.primary), held.key, EntryOf(held))
    ensures CleanRun(s, steps, t)
    ensures swallowed in t.acked && !Served(t, swallowed)
  {
    PrimaryExists(s);
    DurableOk(s, s.primary);
    BoundIsSafe(s, held);
    hide CleanRun, SafeDisk, Codec.SafeKey, Inv, TrafficOk, Traced, Covers;
    var back, m := PrimaryReturns(s);
    CleanRunExecutes(s, back, m);
    ExecKeepsInv(s, back);
    DurableOk(m, m.primary);
    assert Stores(m.chunks[m.primary].mem.entries, held.key, EntryOf(held));
    var rest;
    rest, t, swallowed := SwallowNext(m, held);
    CleanRunConcat(s, back, m, rest, t);
    steps := back + rest;
  }

  lemma SwallowNext(m: State, held: Op) returns (steps: seq<Step>, t: State, swallowed: Op)
    requires Up(m, m.primary) && Listed(m, m.primary) && Codec.SafeKey(held.key) && m.counter < held.seqNum < TWO_64
    requires Stores(m.chunks[m.primary].mem.entries, held.key, EntryOf(held))
    ensures CleanRun(m, steps, t)
    ensures swallowed in t.acked && !Served(t, swallowed)
  {
    hide CleanRun, Codec.SafeKey, Received, Stores;
    var more, u := IssueMany(m, held.seqNum - m.counter);
    swallowed := Op(held.key, held.value + [0], held.seqNum, false);
    var v := SendsSafely(u, swallowed);
    CleanRunConcat(m, more, u, [SendWrite(swallowed)], v);
    var last, w := AckAlone(v, swallowed);
    CleanRunConcat(m, more + [SendWrite(swallowed)], v, last, w);
    steps, t := more + [SendWrite(swallowed)] + last, w;
    StaleIsDiscarded(v.chunks[v.primary], held, swallowed);
  }

  lemma StaleIsDiscarded(c: Chunk, held: Op, late: Op)
    requires Stores(c.mem.entries, held.key, EntryOf(held)) && late.key == held.key && late.seqNum == held.seqNum
    requires late.value != held.value && !late.isDelete
    ensures Received(c, late) == c
    ensures c.mem.entries[late.key] != EntryOf(late) && c.mem.entries[late.key].seqNum == late.seqNum
  {
  }

  // ---- A restart that does harm -------------------------------------------------------

  /** The first number goes to one write, acknowledged by the primary on its own. */
  lemma FirstAck(s: State, op: Op) returns (steps: seq<Step>, t: State)
    requires Init(s) && Codec.SafeKey(op.key) && op.seqNum == 1 && (op.isDelete ==> op.value == [])
    ensures CleanRun(s, steps, t)
    ensures op in t.acked && t.bound == {op} && t.wal == [] && t.counter == 1 && Up(t, t.primary)
  {
    InitInv(s);
    PrimaryDiskSafe(s);
    hide CleanRun, SafeDisk, Codec.SafeKey, Inv, Received;
    var back, m := PrimaryReturns(s);
    var u := IssueOne(m);
    var v := SendsSafely(u, op);
    var last;
    last, t := AckAlone(v, op);
    CleanRunConcat(s, back, m, [Issue], u);
    CleanRunConcat(s, back + [Issue], u, [SendWrite(op)], v);
    CleanRunConcat(s, back + [Issue] + [SendWrite(op)], v, last, t);
    steps := back + [Issue] + [SendWrite(op)] + last;
  }

  /** From every initial state a clean run leads to an acknowledged operation, durable at the
      primary and not yet logged; the restart of the master is not clean there. */
  lemma AckedUnlogged(s: State, op: Op) returns (steps: seq<Step>, t: State)
    requires Init(s) && Codec.SafeKey(op.key) && op.seqNum == 1 && (op.isDelete ==> op.value == [])
    ensures CleanRun(s, steps, t) && Inv(t) && Unique(t)
    ensures op in t.acked && op in t.bound && Stores(Durable(t, t.primary), op.key, EntryOf(op))
    ensures MaxSeq(t.wal) == 0 && !Clean(t, MasterRestart)
  {
    hide CleanRun, Init, Inv, Unique, Codec.SafeKey, Stores, Durable, Enabled, Up, Clean, MaxSeq;
    steps, t := FirstAck(s, op);
    InitInv(s);
    InitUnique(s);
    CleanRunKeeps(s, steps, t);
    AckedIsDurable(t, op);
    UnloggedIsUnclean(t, op);
  }

  lemma UnloggedIsUnclean(s: State, op: Op)
    requires s.wal == [] && op in s.bound && op.seqNum > 0
    ensures MaxSeq(s.wal) == 0 && !Clean(s, MasterRestart)
  {
  }

  /** So restarts that do harm are within reach: that run, the restart, and a run clean but for
      it end with another operation acknowledged and thrown away. */
  lemma HarmfulRestart(s: State, op: Op)
    returns (before: seq<Step>, m: State, u: State, after: seq<Step>, t: State, swallowed: Op)
    requires Init(s) && Codec.SafeKey(op.key) && op.seqNum == 1 && (op.isDelete ==> op.value == [])
    ensures CleanRun(s, before, m) && op in m.acked && !Clean(m, MasterRestart)
    ensures Exec(m, [MasterRestart]) == At(u)
    ensures CleanRun(u, after, t) && swallowed in t.acked && !Served(t, swallowed)
  {
    hide CleanRun, Init, Inv, Unique, Codec.SafeKey, Stores, Served, Durable, Exec, Clean, MaxSeq;
    before, m := AckedUnlogged(s, op);
    u := RestartForgets(m);
    SameDurable(m, u);
    after, t, swallowed := AckSwallowed(u, op);
  }

  lemma AckedIsDurable(s: State, op: Op)
    requires Inv(s) && Unique(s) && op in s.acked && s.bound == {op} && Up(s, s.primary)
    ensures Stores(Durable(s, s.primary), op.key, EntryOf(op))
  {
    hide Inv, Unique, Durable, SafeDisk, Traced, Covers;
    AckedIsServed(s, op);
    PrimaryShowsBound(s, op.key, op.seqNum);
    DurableOk(s, s.primary);
  }

  lemma SameDurable(s: State, t: State)
    requires t.chunks == s.chunks && t.primary == s.primary
    ensures Durable(t, t.primary) == Durable(s, s.primary)
  {
  }

  lemma RestartForgets(s: State) returns (t: State)
    requires Inv(s)
    ensures Exec(s, [MasterRestart]) == At(t) && Inv(t)
    ensures t == s.(counter := MaxSeq(s.wal), alive := map[])
  {
    hide Inv, MaxSeq;
    t := Do(s, MasterRestart);
    StepKeepsInv(s, MasterRestart);
    assert [MasterRestart][1..] == [];
    assert Exec(t, [MasterRestart][1..]) == At(t);
  }

  // ---- Numbers issued twice -----------------------------------------------------------

  /** No operation of the set can have its number issued while this holds. */
  ghost predicate Passed(s: State, ops: set<Op>) {
    ops <= s.bound && forall op :: op in ops ==> op.seqNum <= s.counter && op.seqNum !in s.hands
  }

  lemma StepKeepsPassed(s: State, step: Step, ops: set<Op>)
    requires Passed(s, ops) && Enabled(s, step) && Clean(s, step)
    ensures Passed(Do(s, step), ops)
  {
    hide Codec.SafeKey, MaxSeq, Received, Scan, Listing, After, Registries.Enumerates, Passed;
    var t := Do(s, step);
    match step
    case Issue => PassedCounts(s, t, ops);
    case FetchReplicas(_, _, _, _) => PassedCounts(s, t, ops);
    case MasterRestart => PassedRestarts(s, t, ops);
    case _ => PassedDependsOn(s, t, ops);
  }

  lemma PassedDependsOn(s: State, t: State, ops: set<Op>)
    requires Passed(s, ops) && s.bound <= t.bound && t.counter == s.counter && t.hands <= s.hands
    ensures Passed(t, ops)
  {
  }

  lemma PassedRestarts(s: State, t: State, ops: set<Op>)
    requires Passed(s, ops) && t.bound == s.bound && t.hands == s.hands && NothingAbove(s, t.counter)
    ensures Passed(t, ops)
  {
  }

  lemma PassedCounts(s: State, t: State, ops: set<Op>)
    requires Passed(s, ops) && t.bound == s.bound
    requires t.counter == s.counter || t.counter == Next(s.counter)
    requires t.hands == s.hands || (t.hands == s.hands + multiset{t.counter} && t.counter == Next(s.counter))
    requires t.counter == s.counter || s.counter + 1 < TWO_64 || s.bound == {} || NothingAbove(s, 0)
    requires s.counter + 1 < TWO_64 || s.bound == {} || t.hands == s.hands
    ensures Passed(t, ops)
  {
    assert s.counter + 1 < TWO_64 ==> Next(s.counter) == s.counter + 1;
  }

  lemma {:induction false} RunKeepsPassed(s: State, steps: seq<Step>, t: State, ops: set<Op>)
    requires Passed(s, ops) && CleanRun(s, steps, t)
    ensures Passed(t, ops)
    decreases |steps|
  {
    hide Passed, Enabled, Do, Clean;
    if steps == [] {
    } else {
      StepKeepsPassed(s, steps[0], ops);
      RunKeepsPassed(Do(s, steps[0]), steps[1..], t, ops);
    }
  }

  /** The number of an operation already sent is in some client's hands. */
  ghost predicate IssuedTwice(s: State, ops: set<Op>) {
    exists op :: op in ops && op.seqNum in s.hands
  }

  /** After a restart of the master some clean run issues the number of an operation that was
      sent before if and only if some such number exceeds the log's maximum. */
  lemma ReissueIffUnlogged(s: State)
    requires Inv(s) && Unique(s) && s.counter < TWO_64
    ensures (exists steps: seq<Step>, t: State :: CleanRun(Do(s, MasterRestart), steps, t) && IssuedTwice(t, s.bound))
       <==> (exists op :: op in s.bound && op.seqNum > MaxSeq(s.wal))
  {
    hide Inv, CleanRun, MaxSeq, IssuedTwice, Exec;
    var u := RestartForgets(s);
    assert u == Do(s, MasterRestart);
    ReissueIffAbove(u);
  }

  lemma ReissueIffAbove(s: State)
    requires Inv(s) && forall op :: op in s.bound ==> op.seqNum < TWO_64 && op.seqNum !in s.hands
    ensures (exists steps: seq<Step>, t: State :: CleanRun(s, steps, t) && IssuedTwice(t, s.bound))
       <==> (exists op :: op in s.bound && op.seqNum > s.counter)
  {
    hide Inv, CleanRun, Up;
    if op :| op in s.bound && op.seqNum > s.counter {
      var steps, t := IssuedAgain(s, op.seqNum);
      assert op.seqNum in t.hands;
      assert CleanRun(s, steps, t) && IssuedTwice(t, s.bound);
    } else {
      assert Passed(s, s.bound);
      forall steps: seq<Step>, t: State | CleanRun(s, steps, t)
        ensures !IssuedTwice(t, s.bound)
      {
        RunKeepsPassed(s, steps, t, s.bound);
      }
    }
  }
}
