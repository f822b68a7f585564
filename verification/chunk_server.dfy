/** The chunk server: primary, replica and recovery handlers over one store. The network
    enters as parameters: whether the master answers, which addresses accept a
    connection, whether a file write succeeds. */
module ChunkServers {
  import opened Lww
  import opened Disk
  import opened Stores
  import Wals
  import Masters
  import Registries

  /** A replicate message on its way to an address. */
  datatype Message = Message(addr: string, op: Op)

  /** The messages that leave the primary: one per listed address that can be dialled. */
  function Fanout(addrs: seq<string>, dials: set<string>, op: Op): seq<Message> {
    if addrs == [] then []
    else
      var front, addr := Fanout(addrs[..|addrs| - 1], dials, op), addrs[|addrs| - 1];
      if addr in dials then front + [Message(addr, op)] else front
  }

  lemma {:induction false} FanoutReaches(addrs: seq<string>, dials: set<string>, op: Op)
    ensures forall m :: m in Fanout(addrs, dials, op) <==> m.op == op && m.addr in addrs && m.addr in dials
    decreases |addrs|
  {
    if addrs == [] {
    } else {
      var front, last := addrs[..|addrs| - 1], addrs[|addrs| - 1];
      assert addrs == front + [last];
      FanoutReaches(front, dials, op);
      assert forall m :: m in Fanout(addrs, dials, op) <==>
                           m in Fanout(front, dials, op) || (last in dials && m == Message(last, op));
    }
  }

  /** The messages leave in the order of the list, one for each time an address is listed. */
  lemma {:induction false} FanoutKeepsOrder(a: seq<string>, b: seq<string>, dials: set<string>, op: Op)
    ensures Fanout(a + b, dials, op) == Fanout(a, dials, op) + Fanout(b, dials, op)
    decreases |b|
  {
    if b == [] {
      assert a + b == a;
    } else {
      assert (a + b)[..|a + b| - 1] == a + b[..|b| - 1];
      FanoutKeepsOrder(a, b[..|b| - 1], dials, op);
    }
  }

  lemma {:induction false} FanoutCounts(addrs: seq<string>, dials: set<string>, op: Op, addr: string)
    ensures multiset(Fanout(addrs, dials, op))[Message(addr, op)] == if addr in dials then multiset(addrs)[addr] else 0
    ensures |Fanout(addrs, dials, op)| <= |addrs|
    decreases |addrs|
  {
    if addrs == [] {
    } else {
      var front, last := addrs[..|addrs| - 1], addrs[|addrs| - 1];
      assert addrs == front + [last];
      FanoutCounts(front, dials, op, addr);
    }
  }

  /** What the primary replicates once it has applied `op`: everything the master's split
      of the alive set lists, or nothing at all when the master is unreachable or believes
      the primary down. */
  ghost predicate Replicates(answered: bool, cs: Registries.Chunks, primary: string, dials: set<string>,
                             op: Op, sent: seq<Message>) {
    if answered && Masters.PrimaryUp(cs, primary) then
      exists replicas: seq<string> :: Masters.ReplicaSplit(cs, primary, replicas) && sent == Fanout(replicas, dials, op)
    else
      sent == []
  }

  /** Whoever is sent the operation is an alive chunk other than the primary that can be
      dialled. */
  lemma SentToOthers(answered: bool, cs: Registries.Chunks, primary: string, dials: set<string>,
                     op: Op, sent: seq<Message>)
    requires Replicates(answered, cs, primary, dials, op, sent)
    ensures forall m :: m in sent ==>
              m.op == op && m.addr in dials && Masters.AddressOfAnother(cs, primary, m.addr)
  {
    if answered && Masters.PrimaryUp(cs, primary) {
      var ids, replicas := Split(cs, primary, dials, op, sent);
      FanoutReaches(replicas, dials, op);
      Masters.AddrsAre(cs, ids);
    }
  }

  lemma Split(cs: Registries.Chunks, primary: string, dials: set<string>, op: Op, sent: seq<Message>)
    returns (ids: seq<string>, replicas: seq<string>)
    requires Replicates(true, cs, primary, dials, op, sent) && Masters.PrimaryUp(cs, primary)
    ensures forall id :: id in ids <==> id in cs && cs[id].alive && id != primary
    ensures forall i, j :: 0 <= i < j < |ids| ==> ids[i] != ids[j]
    ensures replicas == Masters.AddrsOf(cs, ids) && sent == Fanout(replicas, dials, op)
  {
    replicas :| Masters.ReplicaSplit(cs, primary, replicas) && sent == Fanout(replicas, dials, op);
    var others := Registries.AliveIds(cs) - {primary};
    ids :| Registries.Enumerates(ids, others) && replicas == Masters.AddrsOf(cs, ids);
    assert forall id :: id in ids <==> id in others;
  }

  /** Where addresses are distinct nobody is sent it twice. */
  lemma SentOnce(answered: bool, cs: Registries.Chunks, primary: string, dials: set<string>, op: Op,
                 sent: seq<Message>, m: Message)
    requires Replicates(answered, cs, primary, dials, op, sent) && m in sent
    requires forall i, j :: i in cs && j in cs && cs[i].addr == cs[j].addr ==> i == j
    ensures multiset(sent)[m] == 1
  {
    var ids, replicas := Split(cs, primary, dials, op, sent);
    hide Replicates;
    FanoutReaches(replicas, dials, op);
    Masters.AddrsAre(cs, ids);
    FanoutCounts(replicas, dials, op, m.addr);
    hide Fanout, Masters.AddrsOf;
    assert forall i :: 0 <= i < |ids| ==> ids[i] in ids;
    ListedOnce(replicas, m.addr);
  }

  lemma ListedOnce(addrs: seq<string>, addr: string)
    requires addr in addrs && forall i, j :: 0 <= i < j < |addrs| ==> addrs[i] != addrs[j]
    ensures multiset(addrs)[addr] == 1
  {
    var i :| 0 <= i < |addrs| && addrs[i] == addr;
    assert addrs == addrs[..i] + [addr] + addrs[i + 1..];
    assert addr !in addrs[..i] && addr !in addrs[i + 1..];
  }

  /** Every alive chunk but the primary is sent the operation. */
  ghost predicate ReachesAll(cs: Registries.Chunks, primary: string, op: Op, sent: seq<Message>) {
    forall id :: id in Registries.AliveIds(cs) && id != primary ==> Message(cs[id].addr, op) in sent
  }

  /** What that takes: nobody else to reach, or an answered query, a primary the master
      believes up, and every alive chunk accepting the connection. */
  ghost predicate CanReachAll(answered: bool, cs: Registries.Chunks, primary: string, dials: set<string>) {
    || Registries.AliveIds(cs) <= {primary}
    || (answered && Masters.PrimaryUp(cs, primary)
        && forall id :: id in Registries.AliveIds(cs) && id != primary ==> cs[id].addr in dials)
  }

  /** The primary replicates to every alive chunk exactly when it can. */
  lemma ReplicatedIff(answered: bool, cs: Registries.Chunks, primary: string, dials: set<string>,
                      op: Op, sent: seq<Message>)
    requires Replicates(answered, cs, primary, dials, op, sent)
    ensures ReachesAll(cs, primary, op, sent) <==> CanReachAll(answered, cs, primary, dials)
  {
    var others := Registries.AliveIds(cs) - {primary};
    if answered && Masters.PrimaryUp(cs, primary) {
      var replicas :| Masters.ReplicaSplit(cs, primary, replicas) && sent == Fanout(replicas, dials, op);
      var ids: seq<string> :| Registries.Enumerates(ids, others) && replicas == Masters.AddrsOf(cs, ids);
      FanoutReaches(replicas, dials, op);
      Masters.AddrsAre(cs, ids);
      forall id | id in others
        ensures Message(cs[id].addr, op) in sent <==> cs[id].addr in dials
      {
        assert id in ids;
      }
    } else if id :| id in others {
      assert Message(cs[id].addr, op) !in sent;
    }
  }

  class Server {
    const id: string
    const store: Store

    constructor (id: string, store: Store)
      ensures this.id == id && this.store == store
    {
      this.id, this.store := id, store;
    }

    method HandleRead(key: Key) returns (r: Option<Entry>)
      ensures r.Some? <==> key in Visible(store.entries)
      ensures r.Some? <==> key in store.entries && !store.entries[key].deleted
      ensures r.Some? ==> r.value == store.entries[key]
    {
      r := store.Get(key);
    }

    /** Applies, asks for replicas, fans out, and acknowledges. Memory changes even when
        the file write fails; then nothing is replicated and the client is told. */
    method HandleWrite(key: Key, value: Bytes, seqNum: nat, master: Masters.Server,
                       reach: Masters.Reach, dials: set<string>, diskOk: bool)
      returns (ok: bool, sent: seq<Message>)
      requires master.Valid()
      modifies store, master.meta
      ensures var op := Op(key, value, seqNum, false);
              && store.Mem() == Apply(old(store.Mem()), op)
              && store.disk == Persist(old(store.disk), old(store.Mem()), op, diskOk)
              && (ok <==> diskOk || Stale(old(store.entries), op))
              && (ok ==> Replicates(reach.Answered?, master.registry.chunks, master.meta.primary, dials, op, sent))
              && (ok ==> (ReachesAll(master.registry.chunks, master.meta.primary, op, sent)
                          <==> CanReachAll(reach.Answered?, master.registry.chunks, master.meta.primary, dials)))
      ensures !ok ==> sent == []
      ensures var queried := ok && !reach.Unreached? && Masters.PrimaryUp(master.registry.chunks, master.meta.primary);
              master.meta.seqNum == if queried then Wals.Next(old(master.meta.seqNum)) else old(master.meta.seqNum)
    {
      sent := [];
      ok := store.Put(key, value, seqNum, diskOk);
      if ok {
        sent := Replicate(Op(key, value, seqNum, false), master, reach, dials);
      }
    }

    method HandleDelete(key: Key, seqNum: nat, master: Masters.Server,
                        reach: Masters.Reach, dials: set<string>, diskOk: bool)
      returns (ok: bool, sent: seq<Message>)
      requires master.Valid()
      modifies store, master.meta
      ensures var op := Op(key, [], seqNum, true);
              && store.Mem() == Apply(old(store.Mem()), op)
              && store.disk == Persist(old(store.disk), old(store.Mem()), op, diskOk)
              && (ok <==> diskOk || Stale(old(store.entries), op))
              && (ok ==> Replicates(reach.Answered?, master.registry.chunks, master.meta.primary, dials, op, sent))
              && (ok ==> (ReachesAll(master.registry.chunks, master.meta.primary, op, sent)
                          <==> CanReachAll(reach.Answered?, master.registry.chunks, master.meta.primary, dials)))
      ensures !ok ==> sent == []
      ensures var queried := ok && !reach.Unreached? && Masters.PrimaryUp(master.registry.chunks, master.meta.primary);
              master.meta.seqNum == if queried then Wals.Next(old(master.meta.seqNum)) else old(master.meta.seqNum)
    {
      sent := [];
      ok := store.Delete(key, seqNum, diskOk);
      if ok {
        sent := Replicate(Op(key, [], seqNum, true), master, reach, dials);
      }
    }

    /** The replication step shared by both handlers; failed dials are skipped. */
    method Replicate(op: Op, master: Masters.Server, reach: Masters.Reach, dials: set<string>)
      returns (sent: seq<Message>)
      requires master.Valid()
      modifies master.meta
      ensures Replicates(reach.Answered?, master.registry.chunks, master.meta.primary, dials, op, sent)
      ensures ReachesAll(master.registry.chunks, master.meta.primary, op, sent)
         <==> CanReachAll(reach.Answered?, master.registry.chunks, master.meta.primary, dials)
      ensures var queried := !reach.Unreached? && Masters.PrimaryUp(master.registry.chunks, master.meta.primary);
              master.meta.seqNum == if queried then Wals.Next(old(master.meta.seqNum)) else old(master.meta.seqNum)
    {
      var replicas := GetReplicaAddrs(master, reach);
      sent := [];
      for i := 0 to |replicas|
        invariant sent == Fanout(replicas[..i], dials, op)
      {
        assert replicas[..i + 1][..i] == replicas[..i];
        if replicas[i] in dials {
          sent := sent + [Message(replicas[i], op)];
        }
      }
      assert replicas[..|replicas|] == replicas;
      ReplicatedIff(reach.Answered?, master.registry.chunks, master.meta.primary, dials, op, sent);
    }

    /** Asking for the replica list consumes a sequence number as well, even when the answer
        is lost. */
    method GetReplicaAddrs(master: Masters.Server, reach: Masters.Reach) returns (replicas: seq<string>)
      requires master.Valid()
      modifies master.meta
      ensures reach.Answered? && Masters.PrimaryUp(master.registry.chunks, master.meta.primary) ==>
                Masters.ReplicaSplit(master.registry.chunks, master.meta.primary, replicas)
      ensures !(reach.Answered? && Masters.PrimaryUp(master.registry.chunks, master.meta.primary)) ==> replicas == []
      ensures var queried := !reach.Unreached? && Masters.PrimaryUp(master.registry.chunks, master.meta.primary);
              master.meta.seqNum == if queried then Wals.Next(old(master.meta.seqNum)) else old(master.meta.seqNum)
    {
      if reach.Unreached? {
        return [];
      }
      var r := master.HandleGetPrimary();
      replicas := if reach.Answered? then r.replicas else [];
    }

    method HandleReplicate(req: Op, diskOk: bool) returns (ok: bool)
      modifies store
      ensures store.Mem() == Apply(old(store.Mem()), req)
      ensures store.disk == Persist(old(store.disk), old(store.Mem()), req, diskOk)
      ensures ok <==> diskOk || Stale(old(store.entries), req)
    {
      if req.isDelete {
        ok := store.Delete(req.key, req.seqNum, diskOk);
      } else {
        ok := store.Put(req.key, req.value, req.seqNum, diskOk);
      }
    }

    /** The recovery loop: one store call per entry, errors ignored. */
    method Replay(entries: seq<Op>, diskOk: seq<bool>)
      requires |diskOk| == |entries|
      modifies store
      ensures store.Mem() == ApplyAll(old(store.Mem()), entries)
      ensures (forall i :: 0 <= i < |diskOk| ==> diskOk[i]) ==> store.View() == ReceiveAll(old(store.View()), entries)
    {
      for i := 0 to |entries|
        invariant store.Mem() == ApplyAll(old(store.Mem()), entries[..i])
        invariant (forall j :: 0 <= j < |diskOk| ==> diskOk[j]) ==>
                    store.View() == ReceiveAll(old(store.View()), entries[..i])
      {
        assert entries[..i + 1][..i] == entries[..i];
        if entries[i].isDelete {
          var _ := store.Delete(entries[i].key, entries[i].seqNum, diskOk[i]);
        } else {
          var _ := store.Put(entries[i].key, entries[i].value, entries[i].seqNum, diskOk[i]);
        }
      }
      assert entries[..|entries|] == entries;
    }

    /** The registration attempt that gets through, with no other traffic meanwhile. */
    method RegisterWithMaster(master: Masters.Server, regAddr: string, now: int)
      requires master.Valid()
      modifies store, master.registry
      ensures master.Valid()
      ensures master.registry.chunks
           == Registries.Registered(old(master.registry.chunks), id, regAddr, old(store.lastSeq), now)
      ensures id in master.registry.chunks
      ensures master.registry.chunks[id] == Registries.ChunkInfo(id, regAddr, now, true, old(store.lastSeq))
      ensures store.Mem() == Wals.Recovered(old(store.Mem()), master.wal.entries)
      ensures store.View() == ReceiveAll(old(store.View()), Wals.After(master.wal.entries, old(store.lastSeq)))
    {
      var entries := master.HandleRegister(id, regAddr, store.lastSeq, now);
      Replay(entries, seq(|entries|, _ => true));
    }
  }
}
