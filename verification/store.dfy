/** The chunk store as the mutable object it is: two fields guarded by one lock, and a
    directory it writes through to. Every method is one critical section. */
module Stores {
  import opened Lww
  import opened Disk
  import Codec

  class Store {
    var entries: map<Key, Entry>
    var lastSeq: nat
    var disk: Files

    function Mem(): Image
      reads this
    {
      Image(entries, lastSeq)
    }

    ghost function View(): Copy
      reads this
    {
      Copy(Mem(), disk)
    }

    /** Opens a store on a directory that already holds `contents`. */
    constructor (contents: Files, files: seq<string>)
      requires Listing(files, contents)
      ensures disk == contents && Mem() == Scan(files, contents)
    {
      entries, lastSeq, disk := map[], 0, contents;
      new;
      LoadFromDisk(files);
    }

    method LoadFromDisk(files: seq<string>)
      requires Mem() == EMPTY && forall f :: f in files ==> f in disk && JsonFile(f)
      modifies `entries, `lastSeq
      ensures Mem() == Scan(files, disk)
    {
      for i := 0 to |files|
        invariant disk == old(disk)
        invariant Mem() == Scan(files[..i], disk)
      {
        assert files[..i + 1][..i] == files[..i];
        var e := disk[files[i]];
        var key := Codec.Unsanitize(files[i][..|files[i]| - 5]);
        entries := entries[key := e];
        if e.seqNum > lastSeq {
          lastSeq := e.seqNum;
        }
      }
      assert files[..|files|] == files;
    }

    /** Writes unless the key is already held at this number or above; a failing file
        write is reported, after memory has changed. */
    method Put(key: Key, value: Bytes, seqNum: nat, diskOk: bool) returns (ok: bool)
      modifies this
      ensures Mem() == Apply(old(Mem()), Op(key, value, seqNum, false))
      ensures disk == Persist(old(disk), old(Mem()), Op(key, value, seqNum, false), diskOk)
      ensures ok <==> diskOk || Holds(old(entries), key, seqNum)
      ensures if key in old(entries) && seqNum <= old(entries)[key].seqNum
              then ok && entries == old(entries) && lastSeq == old(lastSeq) && disk == old(disk)
              else
                && ok == diskOk && entries == old(entries)[key := Entry(value, seqNum, false)]
                && lastSeq == (if seqNum > old(lastSeq) then seqNum else old(lastSeq))
                && disk == if diskOk
                           then old(disk)[Codec.Sanitized(key) + ".json" := Entry(value, seqNum, false)]
                           else old(disk)
    {
      if key in entries && seqNum <= entries[key].seqNum {
        return true;
      }
      var e := Entry(value, seqNum, false);
      entries := entries[key := e];
      if seqNum > lastSeq {
        lastSeq := seqNum;
      }
      ok := PersistEntry(key, e, diskOk);
    }

    method Delete(key: Key, seqNum: nat, diskOk: bool) returns (ok: bool)
      modifies this
      ensures Mem() == Apply(old(Mem()), Op(key, [], seqNum, true))
      ensures disk == Persist(old(disk), old(Mem()), Op(key, [], seqNum, true), diskOk)
      ensures ok <==> diskOk || Holds(old(entries), key, seqNum)
      ensures if key in old(entries) && seqNum <= old(entries)[key].seqNum
              then ok && entries == old(entries) && lastSeq == old(lastSeq) && disk == old(disk)
              else
                && ok == diskOk && entries == old(entries)[key := Entry([], seqNum, true)]
                && lastSeq == (if seqNum > old(lastSeq) then seqNum else old(lastSeq))
                && disk == if diskOk
                           then old(disk)[Codec.Sanitized(key) + ".json" := Entry([], seqNum, true)]
                           else old(disk)
    {
      if key in entries && seqNum <= entries[key].seqNum {
        return true;
      }
      var e := Entry([], seqNum, true);
      entries := entries[key := e];
      if seqNum > lastSeq {
        lastSeq := seqNum;
      }
      ok := PersistEntry(key, e, diskOk);
    }

    method PersistEntry(key: Key, e: Entry, diskOk: bool) returns (ok: bool)
      modifies `disk
      ensures ok == diskOk
      ensures disk == if diskOk then old(disk)[Codec.Sanitized(key) + ".json" := e] else old(disk)
    {
      var name := Codec.Sanitize(key);
      if diskOk {
        disk := disk[name + ".json" := e];
      }
      ok := diskOk;
    }

    method Get(key: Key) returns (r: Option<Entry>)
      ensures r.Some? <==> key in Visible(entries)
      ensures r.Some? <==> key in entries && !entries[key].deleted
      ensures r.Some? ==> r.value == entries[key] && r.value.value == Visible(entries)[key]
    {
      if key !in entries || entries[key].deleted {
        return None;
      }
      r := Some(entries[key]);
    }

    /** The live keys under a prefix, each once, in no particular order. */
    method KeysWithPrefix(prefix: string) returns (keys: seq<Key>)
      ensures forall k :: k in keys <==> k in Visible(entries) && prefix <= k
      ensures forall k :: k in keys <==> k in entries && !entries[k].deleted && prefix <= k
      ensures forall i, j :: 0 <= i < j < |keys| ==> keys[i] != keys[j]
    {
      keys := [];
      var rest := entries.Keys;
      while rest != {}
        invariant rest <= entries.Keys
        invariant forall k :: k in keys <==> k in entries.Keys - rest && !entries[k].deleted && prefix <= k
        invariant forall i, j :: 0 <= i < j < |keys| ==> keys[i] != keys[j]
        decreases rest
      {
        var k :| k in rest;
        if !entries[k].deleted && prefix <= k {
          keys := keys + [k];
        }
        rest := rest - {k};
      }
    }
  }

  /** A crash loses the memory and keeps the files: reopening them gives the same store,
      for every scan order, as long as the disk mirrored the memory. */
  method Reopen(s: Store, files: seq<string>) returns (t: Store)
    requires Listing(files, s.disk)
    ensures fresh(t) && t.disk == s.disk
    ensures Mirrors(s.Mem(), s.disk) ==> t.View() == s.View()
  {
    t := new Store(s.disk, files);
    if Mirrors(s.Mem(), s.disk) {
      ReloadExact(s.Mem(), s.disk, files);
    }
  }
}
