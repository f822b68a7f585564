/** The master: sequence counter, fixed primary, membership and log behind its handlers. */
module Masters {
  import opened Lww
  import opened Wals
  import opened Registries

  class Metadata {
    const primary: string
    var seqNum: nat

    constructor (primary: string)
      ensures this.primary == primary && seqNum == 0
    {
      this.primary := primary;
      seqNum := 0;
    }

    method PrimaryID() returns (id: string)
      ensures id == primary
    {
      id := primary;
    }

    method NextSeqNum() returns (n: nat)
      modifies this
      ensures n == seqNum == Next(old(seqNum)) == (old(seqNum) + 1) % 0x1_0000_0000_0000_0000
    {
      seqNum := (seqNum + 1) % TWO_64;
      n := seqNum;
    }

    method SetSeqNum(n: nat)
      modifies this
      ensures seqNum >= n && seqNum >= old(seqNum) && (seqNum == n || seqNum == old(seqNum))
    {
      if n > seqNum {
        seqNum := n;
      }
    }
  }

  datatype GetPrimaryResponse = GetPrimaryResponse(primaryAddr: string, replicas: seq<string>, seqNum: nat)

  /** How a query to the master fares: it cannot be made, its answer is lost after the
      master has acted on it, or it is answered. */
  datatype Reach = Unreached | AnswerLost | Answered

  /** The primary is alive under an address; a blank address counts as down. */
  predicate PrimaryUp(cs: Chunks, primary: string) {
    primary in cs && cs[primary].alive && cs[primary].addr != ""
  }

  function AddrsOf(cs: Chunks, ids: seq<string>): seq<string>
    requires forall id :: id in ids ==> id in cs
  {
    if ids == [] then [] else AddrsOf(cs, ids[..|ids| - 1]) + [cs[ids[|ids| - 1]].addr]
  }

  lemma {:induction false} AddrsAre(cs: Chunks, ids: seq<string>)
    requires forall id :: id in ids ==> id in cs
    ensures |AddrsOf(cs, ids)| == |ids| && forall i :: 0 <= i < |ids| ==> AddrsOf(cs, ids)[i] == cs[ids[i]].addr
    ensures forall addr :: addr in AddrsOf(cs, ids) <==> exists id :: id in ids && cs[id].addr == addr
    decreases |ids|
  {
    if ids == [] {
    } else {
      var front, last := ids[..|ids| - 1], ids[|ids| - 1];
      assert ids == front + [last];
      AddrsAre(cs, front);
    }
  }

  /** `replicas` are the addresses of all alive chunks but the primary, each once. */
  ghost predicate ReplicaSplit(cs: Chunks, primary: string, replicas: seq<string>) {
    exists ids: seq<string> :: Enumerates(ids, AliveIds(cs) - {primary}) && replicas == AddrsOf(cs, ids)
  }

  /** Progress of the scan: `others` are the chunks seen so far other than the primary. */
  ghost predicate SplitSoFar(cs: Chunks, primary: string, seen: seq<string>, others: seq<string>,
                             primaryAddr: string, replicas: seq<string>) {
    && (forall id :: id in seen ==> id in cs)
    && (forall j, k :: 0 <= j < k < |others| ==> others[j] != others[k])
    && (forall id :: id in others <==> id in seen && id != primary)
    && replicas == AddrsOf(cs, others)
    && primaryAddr == if primary in seen then cs[primary].addr else ""
  }

  lemma SplitOne(cs: Chunks, primary: string, seen: seq<string>, others: seq<string>,
                 primaryAddr: string, replicas: seq<string>, id: string)
    requires SplitSoFar(cs, primary, seen, others, primaryAddr, replicas) && id in cs && id !in seen
    ensures id == primary ==> SplitSoFar(cs, primary, seen + [id], others, cs[id].addr, replicas)
    ensures id != primary ==> SplitSoFar(cs, primary, seen + [id], others + [id], primaryAddr, replicas + [cs[id].addr])
  {
    assert (others + [id])[..|others|] == others;
  }

  /** Some alive chunk other than the primary has the address. */
  ghost predicate AddressOfAnother(cs: Chunks, primary: string, addr: string) {
    exists id :: id in cs && cs[id].alive && id != primary && cs[id].addr == addr
  }

  class Server {
    const registry: Registry
    const meta: Metadata
    const wal: WAL

    ghost predicate Valid()
      reads this, registry
    {
      Keyed(registry.chunks)
    }

    /** A fresh master process on a saved log; `Start` restores the counter. */
    constructor (primary: string, saved: seq<Op>)
      ensures Valid() && fresh(registry) && fresh(meta) && fresh(wal)
      ensures registry.chunks == map[] && wal.entries == saved
      ensures meta.primary == primary && meta.seqNum == MaxSeq(saved)
      ensures forall op :: op in saved ==> op.seqNum <= meta.seqNum
      ensures meta.seqNum == 0 || exists op :: op in saved && op.seqNum == meta.seqNum
    {
      registry := new Registry();
      meta := new Metadata(primary);
      wal := new WAL(saved);
      new;
      var max := wal.MaxSeqNum();
      meta.SetSeqNum(max);
    }

    method HandleHeartbeat(id: string, addr: string, now: int)
      requires Valid()
      modifies registry
      ensures Valid() && registry.chunks == Beaten(old(registry.chunks), id, addr, now)
      ensures id in old(registry.chunks) <==> id in registry.chunks
      ensures id in registry.chunks ==> registry.chunks[id].alive && registry.chunks[id].addr == addr
    {
      registry.Heartbeat(id, addr, now);
    }

    /** Registers the chunk and answers with the log records above its number. */
    method HandleRegister(id: string, addr: string, lastSeqNum: nat, now: int) returns (recovery: seq<Op>)
      requires Valid()
      modifies registry
      ensures Valid() && registry.chunks == Registered(old(registry.chunks), id, addr, lastSeqNum, now)
      ensures id in registry.chunks && registry.chunks[id] == ChunkInfo(id, addr, now, true, lastSeqNum)
      ensures recovery == After(wal.entries, lastSeqNum)
      ensures forall op :: op in recovery <==> op in wal.entries && op.seqNum > lastSeqNum
    {
      registry.Register(id, addr, lastSeqNum, now);
      var missed := wal.EntriesAfter(lastSeqNum);
      recovery := [];
      for i := 0 to |missed|
        invariant recovery == missed[..i]
      {
        recovery := recovery + [Op(missed[i].key, missed[i].value, missed[i].seqNum, missed[i].isDelete)];
      }
      AfterHas(wal.entries, lastSeqNum);
    }

    /** Answered with a number exactly when the primary is up; then the counter moves by
        one and the alive set is split into the primary and the replicas. */
    method HandleGetPrimary() returns (r: GetPrimaryResponse)
      requires Valid()
      modifies meta
      ensures PrimaryUp(registry.chunks, meta.primary) ==>
                && meta.seqNum == Next(old(meta.seqNum)) == r.seqNum
                && r.primaryAddr == registry.chunks[meta.primary].addr
                && ReplicaSplit(registry.chunks, meta.primary, r.replicas)
      ensures r.primaryAddr != "" <==>
                var cs := registry.chunks;
                meta.primary in cs && cs[meta.primary].alive && cs[meta.primary].addr != ""
      ensures r.primaryAddr != "" ==>
                && (forall id :: id in registry.chunks && registry.chunks[id].alive && id != meta.primary ==>
                      registry.chunks[id].addr in r.replicas)
                && (forall addr :: addr in r.replicas ==> AddressOfAnother(registry.chunks, meta.primary, addr))
      ensures !PrimaryUp(registry.chunks, meta.primary) ==>
                meta.seqNum == old(meta.seqNum) && r == GetPrimaryResponse("", [], 0)
    {
      var primaryID := meta.PrimaryID();
      var alive := registry.AliveChunks();
      ghost var cs := registry.chunks;
      ghost var ids := seq(|alive|, i requires 0 <= i < |alive| => alive[i].id);
      var primaryAddr, replicas := "", [];
      ghost var others: seq<string> := [];
      for i := 0 to |alive|
        invariant meta.seqNum == old(meta.seqNum)
        invariant SplitSoFar(cs, primaryID, ids[..i], others, primaryAddr, replicas)
      {
        assert ids[..i + 1] == ids[..i] + [ids[i]];
        assert ids[i] in ids && ids[i] !in ids[..i];
        SplitOne(cs, primaryID, ids[..i], others, primaryAddr, replicas, ids[i]);
        if alive[i].id == primaryID {
          primaryAddr := alive[i].addr;
        } else {
          replicas := replicas + [alive[i].addr];
          others := others + [ids[i]];
        }
      }
      assert ids[..|alive|] == ids;
      assert primaryID in ids <==> primaryID in AliveIds(cs);
      assert Enumerates(others, AliveIds(cs) - {primaryID});
      if primaryAddr == "" {
        return GetPrimaryResponse("", [], 0);
      }
      AddrsAre(cs, others);
      var n := meta.NextSeqNum();
      r := GetPrimaryResponse(primaryAddr, replicas, n);
    }

    method HandleWALNotify(key: Key, value: Bytes, seqNum: nat, isDelete: bool)
      modifies wal
      ensures wal.entries == old(wal.entries) + [Op(key, value, seqNum, isDelete)]
    {
      wal.Append(key, value, seqNum, isDelete);
    }
  }

  /** From end to end: what the master answers with are the addresses the chunks registered
      under, and after a heartbeat from elsewhere the address that carried. */
  method AddressesAreAnswered(master: Server, addr: string, replica: string, replicaAddr: string,
                              moved: string, replicaMoved: string, now: int)
    returns (before: GetPrimaryResponse, after: GetPrimaryResponse)
    requires master.Valid() && replica != master.meta.primary && addr != "" && moved != ""
    modifies master.registry, master.meta
    ensures before.primaryAddr == addr && replicaAddr in before.replicas
    ensures after.primaryAddr == moved && replicaMoved in after.replicas
  {
    var _ := master.HandleRegister(master.meta.primary, addr, 0, now);
    var _ := master.HandleRegister(replica, replicaAddr, 0, now);
    before := master.HandleGetPrimary();
    master.HandleHeartbeat(master.meta.primary, moved, now);
    master.HandleHeartbeat(replica, replicaMoved, now);
    after := master.HandleGetPrimary();
  }
}
