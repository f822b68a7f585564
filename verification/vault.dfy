/** The vault client: its key namespace and the order in which a save or delete touches
    the master and the primary. Ciphertexts are opaque bytes. */
module Vaults {
  import opened Lww
  import opened Stores
  import opened Disk
  import Wals
  import Masters
  import ChunkServers
  import Codec

  function EntryKey(user: string, site: string): Key {
    user + "/" + site
  }

  function Prefix(user: string): string {
    user + "/"
  }

  datatype Outcome = Saved | MasterUnavailable | PrimaryUnavailable | WriteFailed

  /** How far the network carries one request: the client's query, the connection to the
      primary, the request itself, the file write there, the primary's own query, the
      connections to the replicas, the primary's answer, and the notice to the master. */
  datatype Luck = Luck(
    query: Masters.Reach, dialled: bool, delivered: bool, diskOk: bool,
    replicaQuery: Masters.Reach, dials: set<string>, responded: bool, notified: bool)

  /** The request reaches the primary. */
  predicate Arrives(luck: Luck, primaryUp: bool) {
    luck.query.Answered? && primaryUp && luck.dialled && luck.delivered
  }

  class Client {
    const username: string

    constructor (username: string)
      ensures this.username == username
    {
      this.username := username;
    }

    /** Number first, then the primary, and the log only after the primary's answer:
        whatever is logged is already held by the primary at that number or above. */
    method Save(site: string, ciphertext: Bytes, master: Masters.Server, primary: ChunkServers.Server, luck: Luck)
      returns (outcome: Outcome, sent: seq<ChunkServers.Message>)
      requires master.Valid()
      modifies master.meta, master.wal, primary.store
      ensures var n := (old(master.meta.seqNum) + 1) % 0x1_0000_0000_0000_0000;
              var key, was := username + "/" + site, old(primary.store.entries);
              var up := Masters.PrimaryUp(master.registry.chunks, master.meta.primary);
              var stored := luck.diskOk || (key in was && n <= was[key].seqNum);
              && (outcome == Saved <==>
                    luck.query.Answered? && up && luck.dialled && luck.delivered && stored && luck.responded)
              && (outcome == MasterUnavailable <==> !luck.query.Answered?)
              && (outcome == PrimaryUnavailable <==> luck.query.Answered? && !(up && luck.dialled))
              && master.wal.entries == if outcome == Saved && luck.notified
                                       then old(master.wal.entries) + [Op(key, ciphertext, n, false)]
                                       else old(master.wal.entries)
      ensures var op := Op(EntryKey(username, site), ciphertext, Wals.Next(old(master.meta.seqNum)), false);
              var up := Masters.PrimaryUp(master.registry.chunks, master.meta.primary);
              var stored := luck.diskOk || Stale(old(primary.store.entries), op);
              && Ordered(op, outcome, luck, up, old(master.wal.entries), master.wal.entries,
                         old(primary.store.View()), primary.store.View())
              && master.meta.seqNum == CounterAfter(old(master.meta.seqNum), up, luck, stored)
              && if Arrives(luck, up) && stored
                 then ChunkServers.Replicates(luck.replicaQuery.Answered?, master.registry.chunks, master.meta.primary,
                                              luck.dials, op, sent)
                 else sent == []
    {
      sent := [];
      var key := username + "/" + site;
      if luck.query.Unreached? {
        return MasterUnavailable, [];
      }
      var r := master.HandleGetPrimary();
      if luck.query.AnswerLost? {
        return MasterUnavailable, [];
      }
      if r.primaryAddr == "" || !luck.dialled {
        return PrimaryUnavailable, [];
      }
      if !luck.delivered {
        return WriteFailed, [];
      }
      var ok;
      ok, sent := primary.HandleWrite(key, ciphertext, r.seqNum, master, luck.replicaQuery, luck.dials, luck.diskOk);
      if !luck.responded || !ok {
        return WriteFailed, sent;
      }
      if luck.notified {
        master.HandleWALNotify(key, ciphertext, r.seqNum, false);
      }
      outcome := Saved;
    }

    method Delete(site: string, master: Masters.Server, primary: ChunkServers.Server, luck: Luck)
      returns (outcome: Outcome, sent: seq<ChunkServers.Message>)
      requires master.Valid()
      modifies master.meta, master.wal, primary.store
      ensures var n := (old(master.meta.seqNum) + 1) % 0x1_0000_0000_0000_0000;
              var key, was := username + "/" + site, old(primary.store.entries);
              var up := Masters.PrimaryUp(master.registry.chunks, master.meta.primary);
              var stored := luck.diskOk || (key in was && n <= was[key].seqNum);
              && (outcome == Saved <==>
                    luck.query.Answered? && up && luck.dialled && luck.delivered && stored && luck.responded)
              && (outcome == MasterUnavailable <==> !luck.query.Answered?)
              && (outcome == PrimaryUnavailable <==> luck.query.Answered? && !(up && luck.dialled))
              && master.wal.entries == if outcome == Saved && luck.notified
                                       then old(master.wal.entries) + [Op(key, [], n, true)]
                                       else old(master.wal.entries)
      ensures var op := Op(EntryKey(username, site), [], Wals.Next(old(master.meta.seqNum)), true);
              var up := Masters.PrimaryUp(master.registry.chunks, master.meta.primary);
              var stored := luck.diskOk || Stale(old(primary.store.entries), op);
              && Ordered(op, outcome, luck, up, old(master.wal.entries), master.wal.entries,
                         old(primary.store.View()), primary.store.View())
              && master.meta.seqNum == CounterAfter(old(master.meta.seqNum), up, luck, stored)
              && if Arrives(luck, up) && stored
                 then ChunkServers.Replicates(luck.replicaQuery.Answered?, master.registry.chunks, master.meta.primary,
                                              luck.dials, op, sent)
                 else sent == []
    {
      sent := [];
      var key := username + "/" + site;
      if luck.query.Unreached? {
        return MasterUnavailable, [];
      }
      var r := master.HandleGetPrimary();
      if luck.query.AnswerLost? {
        return MasterUnavailable, [];
      }
      if r.primaryAddr == "" || !luck.dialled {
        return PrimaryUnavailable, [];
      }
      if !luck.delivered {
        return WriteFailed, [];
      }
      var ok;
      ok, sent := primary.HandleDelete(key, r.seqNum, master, luck.replicaQuery, luck.dials, luck.diskOk);
      if !luck.responded || !ok {
        return WriteFailed, sent;
      }
      if luck.notified {
        master.HandleWALNotify(key, [], r.seqNum, true);
      }
      outcome := Saved;
    }

    /** The sites behind the listed keys, the bare prefix left out. */
    method List(store: Store) returns (sites: seq<string>)
      ensures forall site :: site in sites <==>
                var key := username + "/" + site;
                site != "" && key in store.entries && !store.entries[key].deleted
      ensures forall i, j :: 0 <= i < j < |sites| ==> sites[i] != sites[j]
    {
      var prefix := username + "/";
      var keys := store.KeysWithPrefix(prefix);
      sites := [];
      for i := 0 to |keys|
        invariant forall site :: site in sites <==> site != "" && EntryKey(username, site) in keys[..i]
        invariant forall j, k :: 0 <= j < k < |sites| ==> sites[j] != sites[k]
      {
        assert keys[i] in keys;
        var after := keys[i][|prefix|..];
        SiteOfKey(username, keys, i, after);
        if after != "" {
          sites := sites + [after];
        }
      }
      assert keys[..|keys|] == keys;
      assert forall site :: prefix <= EntryKey(username, site);
    }
  }

  /** The `i`-th listed key stands for one site, not listed before. */
  lemma SiteOfKey(user: string, keys: seq<Key>, i: nat, site: string)
    requires i < |keys| && Prefix(user) <= keys[i] && site == keys[i][|Prefix(user)|..]
    requires forall j, k :: 0 <= j < k < |keys| ==> keys[j] != keys[k]
    ensures EntryKey(user, site) !in keys[..i]
    ensures forall other ::
              EntryKey(user, other) in keys[..i + 1] <==> EntryKey(user, other) in keys[..i] || other == site
  {
    assert keys[i] == EntryKey(user, site);
    assert keys[..i + 1] == keys[..i] + [keys[i]];
    forall other
      ensures EntryKey(user, other) in keys[..i + 1] <==> EntryKey(user, other) in keys[..i] || other == site
    {
      SameUserInjective(user, other, site);
    }
  }

  /** One number for the client, whether or not it hears of it, and one for the primary's own
      query if that reaches the master. */
  function CounterAfter(n: nat, up: bool, luck: Luck, stored: bool): nat {
    if !up || luck.query.Unreached? then n
    else if Arrives(luck, up) && stored && !luck.replicaQuery.Unreached? then Wals.Next(Wals.Next(n))
    else Wals.Next(n)
  }

  /** The effect of one save or delete on the primary and the log. */
  ghost predicate Ordered(op: Op, outcome: Outcome, luck: Luck, up: bool,
                          logBefore: seq<Op>, logAfter: seq<Op>, before: Copy, after: Copy) {
    var stored := luck.diskOk || Stale(before.mem.entries, op);
    && (outcome == if !luck.query.Answered? then MasterUnavailable
                   else if !up || !luck.dialled then PrimaryUnavailable
                   else if !luck.delivered || !luck.responded || !stored then WriteFailed
                   else Saved)
    && (logAfter == if outcome == Saved && luck.notified then logBefore + [op] else logBefore)
    && (after == if Arrives(luck, up)
                 then Copy(Apply(before.mem, op), Persist(before.disk, before.mem, op, luck.diskOk))
                 else before)
  }

  /** What holds between client operations, whatever fails: the primary's memory covers the
      log, and its disk trails its memory. */
  ghost predicate Sound(c: Copy, log: seq<Op>) {
    Covers(c.mem.entries, Elements(log)) && Trails(c.disk, c.mem)
  }

  /** Whatever an operation logs, the primary's memory holds. The primary's disk still covers
      the log unless the operation was logged although memory was ahead of the disk on its
      key: stale in memory, and not on disk. */
  lemma LoggedIsDurableIff(op: Op, outcome: Outcome, luck: Luck, up: bool,
                           logBefore: seq<Op>, logAfter: seq<Op>, before: Copy, after: Copy)
    requires Ordered(op, outcome, luck, up, logBefore, logAfter, before, after)
    requires Sound(before, logBefore) && Covers(Held(before.disk), Elements(logBefore)) && Codec.SafeKey(op.key)
    ensures Sound(after, logAfter)
    ensures Covers(Held(after.disk), Elements(logAfter)) <==>
              (outcome == Saved && luck.notified && Stale(before.mem.entries, op)
               ==> Holds(Held(before.disk), op.key, op.seqNum))
  {
    hide Codec.SafeKey, SafeDisk, Covers, Persist, Apply, Stale;
    PersistTrails(before.mem, before.disk, op, luck.diskOk);
    ApplyRaises(before.mem, op);
    var logged := outcome == Saved && luck.notified;
    CoversGrows(before.mem.entries, after.mem.entries, logBefore, op, logged);
    CoversGrows(Held(before.disk), Held(after.disk), logBefore, op, logged);
  }

  lemma ApplyRaises(m: Image, op: Op)
    ensures forall k, n: nat :: Holds(m.entries, k, n) ==> Holds(Apply(m, op).entries, k, n)
    ensures Holds(Apply(m, op).entries, op.key, op.seqNum)
  {
  }

  lemma CoversGrows(es: map<Key, Entry>, grown: map<Key, Entry>, log: seq<Op>, op: Op, logged: bool)
    requires Covers(es, Elements(log)) && forall k, n: nat :: Holds(es, k, n) ==> Holds(grown, k, n)
    ensures Covers(grown, Elements(if logged then log + [op] else log))
       <==> (logged ==> Holds(grown, op.key, op.seqNum))
  {
    assert Elements(log + [op]) == Elements(log) + {op};
    forall o | o in Elements(log)
      ensures Holds(grown, o.key, o.seqNum)
    {
      assert Holds(es, o.key, o.seqNum);
    }
    assert op in Elements(log + [op]);
  }

  /** So while the disk mirrors memory, everything logged is durable at the primary. */
  lemma MirroredLogIsDurable(op: Op, outcome: Outcome, luck: Luck, up: bool,
                             logBefore: seq<Op>, logAfter: seq<Op>, before: Copy, after: Copy)
    requires Ordered(op, outcome, luck, up, logBefore, logAfter, before, after)
    requires Mirrors(before.mem, before.disk) && Covers(Held(before.disk), Elements(logBefore)) && Codec.SafeKey(op.key)
    ensures Trails(after.disk, after.mem) && Covers(Held(after.disk), Elements(logAfter))
    ensures luck.diskOk ==> Mirrors(after.mem, after.disk)
  {
    hide Codec.SafeKey, SafeDisk;
    MirrorTrails(before.mem, before.disk);
    LoggedIsDurableIff(op, outcome, luck, up, logBefore, logAfter, before, after);
    PersistKeepsMirror(before.mem, before.disk, op, luck.diskOk);
  }

  /** The exception is within reach. The first save fails to write its file; a new master, which
      finds nothing logged, gives the next save of the site the same number; the primary, ahead
      of its disk, takes that one for stale and reports success; and it is logged while the
      directory is still empty. */
  method LoggedWithoutAFile(username: string, site: string, value: Bytes, lost: Bytes)
    returns (outcome: Outcome, master: Masters.Server, primary: ChunkServers.Server)
    ensures outcome == Saved && master.wal.entries == [Op(username + "/" + site, lost, 1, false)]
    ensures primary.store.disk == map[] && Holds(primary.store.entries, EntryKey(username, site), 1)
    ensures !Covers(Held(primary.store.disk), Elements(master.wal.entries))
  {
    var store := new Store(map[], []);
    primary := new ChunkServers.Server("primary", store);
    var first := new Masters.Server("primary", []);
    primary.RegisterWithMaster(first, "primary:9000", 0);
    var client := new Client(username);
    var luck := Luck(Masters.Answered, true, true, false, Masters.Unreached, {}, true, true);
    var failed, sent := client.Save(site, value, first, primary, luck);
    assert failed == WriteFailed && first.wal.entries == [];
    master := new Masters.Server("primary", first.wal.entries);
    primary.RegisterWithMaster(master, "primary:9000", 0);
    outcome, sent := client.Save(site, lost, master, primary, luck);
    NothingCovers(master.wal.entries[0]);
  }

  lemma NothingCovers(op: Op)
    ensures Held(map[]) == map[] && !Covers(map[], Elements([op]))
  {
    assert op in Elements([op]);
  }

  // ---- Namespaces -----------------------------------------------------------

  lemma SameUserInjective(user: string, s1: string, s2: string)
    ensures EntryKey(user, s1) == EntryKey(user, s2) <==> s1 == s2
  {
    assert EntryKey(user, s1)[|user| + 1..] == s1;
    assert EntryKey(user, s2)[|user| + 1..] == s2;
  }

  predicate NoSlash(s: string) {
    '/' !in s
  }

  /** Two users can meet on a key exactly when the prefix of one extends the other's. */
  lemma UsersMeetIff(u1: string, u2: string)
    ensures (exists s1, s2 :: EntryKey(u1, s1) == EntryKey(u2, s2))
       <==> Prefix(u1) <= Prefix(u2) || Prefix(u2) <= Prefix(u1)
  {
    var p1, p2 := Prefix(u1), Prefix(u2);
    if s1, s2 :| EntryKey(u1, s1) == EntryKey(u2, s2) {
      var key := EntryKey(u1, s1);
      assert p1 == key[..|p1|] && p2 == key[..|p2|];
    }
    if p1 <= p2 {
      assert EntryKey(u1, p2[|p1|..]) == p2 == EntryKey(u2, "");
    }
    if p2 <= p1 {
      assert EntryKey(u2, p1[|p2|..]) == p1 == EntryKey(u1, "");
    }
  }

  /** For usernames without a slash the key determines user and site. */
  lemma EntryKeyInjective(u1: string, s1: string, u2: string, s2: string)
    requires NoSlash(u1) && NoSlash(u2) && EntryKey(u1, s1) == EntryKey(u2, s2)
    ensures u1 == u2 && s1 == s2
  {
    var key := EntryKey(u1, s1);
    assert forall i :: 0 <= i < |u1| ==> key[i] == u1[i] != '/';
    assert forall i :: 0 <= i < |u2| ==> key[i] == u2[i] != '/';
    assert key[|u1|] == '/' && key[|u2|] == '/';
    assert u1 == key[..|u1|] && u2 == key[..|u2|];
    SameUserInjective(u1, s1, s2);
  }

  ghost predicate OfAnother(op: Op, user: string) {
    exists u, s :: NoSlash(u) && u != user && op.key == EntryKey(u, s)
  }

  /** No stream of operations by other users changes what a user gets or lists. */
  lemma {:induction false} OthersLeaveMine(m: Image, ops: seq<Op>, user: string, site: string)
    requires NoSlash(user)
    requires forall op :: op in ops ==> OfAnother(op, user)
    ensures var k := EntryKey(user, site);
            var r := ApplyAll(m, ops).entries;
            && (k in r <==> k in m.entries)
            && (k in r ==> r[k] == m.entries[k])
    decreases |ops|
  {
    if ops == [] {
    } else {
      var front, op := ops[..|ops| - 1], ops[|ops| - 1];
      assert ops == front + [op];
      OthersLeaveMine(m, front, user, site);
      assert OfAnother(op, user);
      var u, s :| NoSlash(u) && u != user && op.key == EntryKey(u, s);
      if op.key == EntryKey(user, site) {
        EntryKeyInjective(u, s, user, site);
      }
    }
  }
}
