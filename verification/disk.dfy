/** The disk side of a chunk store: one file per key under its sanitized name, and the
    scan that rebuilds memory from the files. A disk is the directory's contents, a map
    from file name to the entry the file decodes to. */
module Disk {
  import opened Lww
  import opened Codec

  type Files = map<string, Entry>

  function FileOf(key: Key): string {
    Sanitized(key) + ".json"
  }

  predicate JsonFile(f: string) {
    |f| >= 5 && f[|f| - 5..] == ".json"
  }

  function KeyOf(f: string): Key
    requires JsonFile(f)
  {
    Unsanitized(f[..|f| - 5])
  }

  /** The files after one operation on memory `m`: a stale operation writes nothing, and
      neither does one whose file write fails. */
  function Persist(disk: Files, m: Image, op: Op, diskOk: bool): Files {
    if Stale(m.entries, op) || !diskOk then disk else disk[FileOf(op.key) := EntryOf(op)]
  }

  /** `files` is what globbing `*.json` returns, in some order. */
  ghost predicate Listing(files: seq<string>, disk: Files) {
    && (forall i, j :: 0 <= i < j < |files| ==> files[i] != files[j])
    && (forall f :: f in files <==> f in disk && JsonFile(f))
  }

  /** The scan of the files in the listed order; a later file for the same key wins. */
  function Scan(files: seq<string>, disk: Files): Image
    requires forall f :: f in files ==> f in disk && JsonFile(f)
  {
    if files == [] then EMPTY
    else
      var m, f := Scan(files[..|files| - 1], disk), files[|files| - 1];
      Image(m.entries[KeyOf(f) := disk[f]], Max(m.lastSeq, disk[f].seqNum))
  }

  /** The files globbed are the stems with `.json`, and each stands for the decoding of its
      stem. */
  lemma FilesAreStems(f: string)
    ensures JsonFile(f) <==> exists stem: string :: f == stem + ".json"
    ensures forall stem: string :: f == stem + ".json" ==> JsonFile(f) && KeyOf(f) == Unsanitized(stem)
  {
    if JsonFile(f) {
      assert f == f[..|f| - 5] + ".json";
    }
    forall stem: string | f == stem + ".json"
      ensures JsonFile(f) && KeyOf(f) == Unsanitized(stem)
    {
      assert f[..|f| - 5] == stem;
    }
  }

  /** What any scan finds, unsafe files included: of the files that decode to one key the
      last scanned. */
  lemma {:induction false} ScanLastWins(files: seq<string>, disk: Files, i: nat)
    requires forall f :: f in files ==> f in disk && JsonFile(f)
    requires i < |files| && forall j :: i < j < |files| ==> KeyOf(files[j]) != KeyOf(files[i])
    ensures KeyOf(files[i]) in Scan(files, disk).entries && Scan(files, disk).entries[KeyOf(files[i])] == disk[files[i]]
    decreases |files|
  {
    hide JsonFile, KeyOf;
    var n := |files| - 1;
    if i == n {
    } else {
      assert KeyOf(files[n]) != KeyOf(files[i]);
      ScanLastWins(files[..n], disk, i);
    }
  }

  /** And the largest number in any of them. */
  lemma {:induction false} ScanLargest(files: seq<string>, disk: Files)
    requires forall f :: f in files ==> f in disk && JsonFile(f)
    ensures forall f :: f in files ==> disk[f].seqNum <= Scan(files, disk).lastSeq
    ensures Scan(files, disk).lastSeq == 0 || exists f :: f in files && disk[f].seqNum == Scan(files, disk).lastSeq
    decreases |files|
  {
    hide JsonFile, KeyOf;
    if files == [] {
    } else {
      var front, f := files[..|files| - 1], files[|files| - 1];
      assert files == front + [f];
      ScanLargest(front, disk);
      assert f in files;
    }
  }

  /** `f` is the file of a safe key. */
  predicate SafeFile(f: string) {
    JsonFile(f) && SafeKey(KeyOf(f)) && FileOf(KeyOf(f)) == f
  }

  ghost predicate SafeDisk(disk: Files) {
    forall f :: f in disk ==> SafeFile(f)
  }

  /** What a safe disk says, key by key. */
  ghost function Held(disk: Files): map<Key, Entry>
    requires SafeDisk(disk)
  {
    map k | k in (set f | f in disk :: KeyOf(f)) :: disk[FileOf(k)]
  }

  lemma HeldShows(disk: Files)
    requires SafeDisk(disk)
    ensures forall f :: f in disk ==> JsonFile(f)
    ensures Held(disk).Keys == set f | f in disk :: KeyOf(f)
    ensures forall f :: f in disk ==> KeyOf(f) in Held(disk) && Held(disk)[KeyOf(f)] == disk[f]
    ensures forall k :: k in Held(disk) ==> SafeKey(k) && FileOf(k) in disk && Held(disk)[k] == disk[FileOf(k)]
  {
    hide JsonFile, SafeKey, KeyOf, FileOf;
  }

  /** Memory and disk say the same, and the keys survive the codec. */
  ghost predicate Mirrors(m: Image, disk: Files) {
    SafeDisk(disk) && Tight(m) && m.entries == Held(disk)
  }

  lemma FileRoundTrip(key: Key)
    requires SafeKey(key)
    ensures JsonFile(FileOf(key)) && KeyOf(FileOf(key)) == key
  {
    SafeKeyReturns(key);
    FileStem(key);
  }

  lemma FileStem(key: Key)
    ensures JsonFile(FileOf(key)) && FileOf(key)[..|FileOf(key)| - 5] == Sanitized(key)
  {
  }

  // ---- Reload of a safe disk -------------------------------------------------

  lemma {:induction false} ScanShows(files: seq<string>, disk: Files)
    requires SafeDisk(disk) && forall f :: f in files ==> f in disk
    requires forall f :: f in files ==> JsonFile(f)
    ensures Tight(Scan(files, disk))
    ensures Scan(files, disk).entries.Keys == set f | f in files :: KeyOf(f)
    ensures forall f :: f in files ==>
              KeyOf(f) in Scan(files, disk).entries && Scan(files, disk).entries[KeyOf(f)] == disk[f]
    decreases |files|
  {
    hide JsonFile, SafeKey, KeyOf, FileOf;
    if files == [] {
    } else {
      var front, f := files[..|files| - 1], files[|files| - 1];
      assert files == front + [f];
      ScanShows(front, disk);
      ScanStep(front, f, disk, Scan(front, disk), Scan(files, disk));
      assert forall g :: g in files <==> g in front || g == f;
    }
  }

  lemma ScanStep(front: seq<string>, f: string, disk: Files, m: Image, r: Image)
    requires SafeDisk(disk) && f in disk && JsonFile(f) && forall g :: g in front ==> g in disk && JsonFile(g)
    requires Tight(m) && m.entries.Keys == set g | g in front :: KeyOf(g)
    requires forall g :: g in front ==> KeyOf(g) in m.entries && m.entries[KeyOf(g)] == disk[g]
    requires r == Image(m.entries[KeyOf(f) := disk[f]], Max(m.lastSeq, disk[f].seqNum))
    ensures Tight(r)
    ensures r.entries.Keys == (set g | g in front :: KeyOf(g)) + {KeyOf(f)}
    ensures r.entries[KeyOf(f)] == disk[f]
    ensures forall g :: g in front ==> r.entries[KeyOf(g)] == disk[g]
  {
    hide JsonFile, SafeKey, KeyOf, FileOf;
    var key := KeyOf(f);
    assert key in m.entries ==> m.entries[key] == disk[f] by {
      if key in m.entries {
        var g :| g in front && KeyOf(g) == key;
        assert FileOf(KeyOf(g)) == g && FileOf(key) == f;
      }
    }
    if r.lastSeq != 0 && disk[f].seqNum < m.lastSeq {
      var k :| k in m.entries && m.entries[k].seqNum == m.lastSeq;
      assert k in r.entries && r.entries[k].seqNum == r.lastSeq;
    } else if r.lastSeq != 0 {
      assert key in r.entries && r.entries[key].seqNum == r.lastSeq;
    }
  }

  lemma TightUnique(a: Image, b: Image)
    requires Tight(a) && Tight(b) && a.entries == b.entries
    ensures a == b
  {
  }

  /** A reload restores the mirror, whatever memory was. */
  lemma ReloadMirrors(disk: Files, files: seq<string>)
    requires SafeDisk(disk) && Listing(files, disk)
    ensures Mirrors(Scan(files, disk), disk)
  {
    hide JsonFile, SafeKey, KeyOf, FileOf;
    ScanShows(files, disk);
    HeldShows(disk);
    var es := Scan(files, disk).entries;
    assert es.Keys == Held(disk).Keys;
    forall k | k in es
      ensures es[k] == Held(disk)[k]
    {
      var f :| f in disk && KeyOf(f) == k;
      assert f in files;
    }
    assert es == Held(disk);
  }

  /** Reload is exact: whatever the order of the scan, it rebuilds the entries, the
      tombstones and `lastSeq` of the memory the disk mirrors. */
  lemma ReloadExact(m: Image, disk: Files, files: seq<string>)
    requires Mirrors(m, disk) && Listing(files, disk)
    ensures Scan(files, disk) == m
  {
    hide SafeDisk, Scan;
    ReloadMirrors(disk, files);
    TightUnique(Scan(files, disk), m);
  }

  /** One operation keeps the mirror exactly when its file write succeeds or it had
      nothing to write. */
  lemma PersistKeepsMirror(m: Image, disk: Files, op: Op, diskOk: bool)
    requires Mirrors(m, disk) && SafeKey(op.key)
    ensures Mirrors(Apply(m, op), Persist(disk, m, op, diskOk)) <==> diskOk || Stale(m.entries, op)
  {
    ApplyTight(m, op);
    FileRoundTrip(op.key);
    if !Stale(m.entries, op) {
      if diskOk {
        WriteIsHeld(disk, op);
      } else {
        assert Apply(m, op).entries[op.key].seqNum == op.seqNum;
        assert op.key in m.entries ==> m.entries[op.key].seqNum < op.seqNum;
      }
    }
  }

  /** Memory may run ahead of the disk, as failed file writes leave it, but the disk never
      shows a larger number than memory. */
  ghost predicate Trails(disk: Files, m: Image) {
    SafeDisk(disk) && forall k :: k in Held(disk) ==> Holds(m.entries, k, Held(disk)[k].seqNum)
  }

  lemma MirrorTrails(m: Image, disk: Files)
    requires Mirrors(m, disk)
    ensures Trails(disk, m)
  {
  }

  /** Whether or not its file write succeeds, an operation keeps the disk trailing and its
      numbers rising. It ends up on disk if its file was written or, when it was stale in
      memory, if the disk held the key at its number already; not otherwise. */
  lemma PersistTrails(m: Image, disk: Files, op: Op, diskOk: bool)
    requires Trails(disk, m) && SafeKey(op.key)
    ensures var disk' := Persist(disk, m, op, diskOk);
            && Trails(disk', Apply(m, op))
            && (forall k, n: nat :: Holds(Held(disk), k, n) ==> Holds(Held(disk'), k, n))
            && (Holds(Held(disk'), op.key, op.seqNum)
                <==> if Stale(m.entries, op) then Holds(Held(disk), op.key, op.seqNum) else diskOk)
  {
    hide SafeDisk, SafeKey, FileOf, Held;
    if !Stale(m.entries, op) && diskOk {
      WriteIsHeld(disk, op);
    }
  }

  lemma WriteIsHeld(disk: Files, op: Op)
    requires SafeDisk(disk) && SafeKey(op.key)
    ensures var disk' := disk[FileOf(op.key) := EntryOf(op)];
            SafeDisk(disk') && Held(disk') == Held(disk)[op.key := EntryOf(op)]
  {
    hide JsonFile, SafeKey, KeyOf, FileOf;
    var file := FileOf(op.key);
    var disk' := disk[file := EntryOf(op)];
    FileRoundTrip(op.key);
    HeldShows(disk);
    HeldShows(disk');
    var before, after := Held(disk), Held(disk');
    hide Held, SafeDisk, SafeFile;
    assert after.Keys == before.Keys + {op.key} by {
      assert (set f | f in disk' :: KeyOf(f)) == (set f | f in disk :: KeyOf(f)) + {KeyOf(file)};
    }
    forall k | k in after
      ensures after[k] == before[op.key := EntryOf(op)][k]
    {
      assert after[k] == disk'[FileOf(k)];
      if k != op.key {
        assert KeyOf(FileOf(k)) == k by {
          FileRoundTrip(k);
        }
        assert FileOf(k) in disk;
      }
    }
  }

  // ---- Whole histories, any keys ----------------------------------------------

  /** A running store: its memory and its directory. */
  datatype Copy = Copy(mem: Image, disk: Files)

  const BLANK := Copy(EMPTY, map[])

  /** One operation whose file write succeeds. */
  function Receive(c: Copy, op: Op): Copy {
    Copy(Apply(c.mem, op), Persist(c.disk, c.mem, op, true))
  }

  function ReceiveAll(c: Copy, ops: seq<Op>): Copy {
    if ops == [] then c
    else Receive(ReceiveAll(c, ops[..|ops| - 1]), ops[|ops| - 1])
  }

  lemma {:induction false} ReceiveAllMem(c: Copy, ops: seq<Op>)
    ensures ReceiveAll(c, ops).mem == ApplyAll(c.mem, ops)
    decreases |ops|
  {
    if ops == [] {
    } else {
      ReceiveAllMem(c, ops[..|ops| - 1]);
    }
  }

  ghost predicate SafeOps(ops: seq<Op>) {
    forall op :: op in ops ==> SafeKey(op.key)
  }

  /** Disk mirrors memory over any stream on safe keys. */
  lemma {:induction false} StreamKeepsMirror(c: Copy, ops: seq<Op>)
    requires SafeOps(ops) && Mirrors(c.mem, c.disk)
    ensures Mirrors(ReceiveAll(c, ops).mem, ReceiveAll(c, ops).disk)
    decreases |ops|
  {
    if ops == [] {
    } else {
      var front := ops[..|ops| - 1];
      assert ops == front + [ops[|ops| - 1]];
      StreamKeepsMirror(c, front);
      var before := ReceiveAll(c, front);
      PersistKeepsMirror(before.mem, before.disk, ops[|ops| - 1], true);
    }
  }

  lemma BlankMirrors()
    ensures Mirrors(BLANK.mem, BLANK.disk)
  {
    HeldShows(map[]);
    assert Held(map[]) == map[];
  }

  ghost function FilesOf(keys: set<Key>): set<string> {
    set k | k in keys :: FileOf(k)
  }

  lemma {:induction false} HistoryFiles(ops: seq<Op>)
    ensures ReceiveAll(BLANK, ops).disk.Keys == FilesOf(ReceiveAll(BLANK, ops).mem.entries.Keys)
    decreases |ops|
  {
    if ops == [] {
    } else {
      var front, op := ops[..|ops| - 1], ops[|ops| - 1];
      HistoryFiles(front);
      var m := ReceiveAll(BLANK, front).mem;
      if !Stale(m.entries, op) {
        assert ReceiveAll(BLANK, ops).mem.entries.Keys == m.entries.Keys + {op.key};
        assert FilesOf(m.entries.Keys + {op.key}) == FilesOf(m.entries.Keys) + {FileOf(op.key)};
      }
    }
  }

  lemma {:induction false} ScanKeys(files: seq<string>, disk: Files)
    requires forall f :: f in files ==> f in disk && JsonFile(f)
    ensures Scan(files, disk).entries.Keys == set f | f in files :: KeyOf(f)
    decreases |files|
  {
    if files == [] {
    } else {
      var front, f := files[..|files| - 1], files[|files| - 1];
      assert files == front + [f];
      ScanKeys(front, disk);
      hide JsonFile, KeyOf;
      assert Scan(files, disk).entries.Keys == Scan(front, disk).entries.Keys + {KeyOf(f)};
    }
  }

  lemma {:induction false} Heaviest(keys: set<Key>) returns (h: Key)
    requires keys != {}
    ensures h in keys && forall k :: k in keys ==> Weight(k) <= Weight(h)
    decreases |keys|
  {
    h :| h in keys;
    if keys != {h} {
      var rest := keys - {h};
      assert rest != {};
      var h' := Heaviest(rest);
      if Weight(h) < Weight(h') {
        h := h';
      }
    }
  }

  /** Reopening a store knows the same keys if and only if every key it held is safe; then
      it is the same store. No set of unsafe keys hides the loss, because every unsafe key
      comes back strictly lighter. */
  lemma ReopenIffSafe(ops: seq<Op>, files: seq<string>)
    requires Listing(files, ReceiveAll(BLANK, ops).disk)
    ensures var c := ReceiveAll(BLANK, ops);
            var keys := c.mem.entries.Keys;
            && (Scan(files, c.disk).entries.Keys == keys <==> forall k :: k in keys ==> SafeKey(k))
            && (SafeOps(ops) ==> Scan(files, c.disk) == c.mem)
  {
    var c := ReceiveAll(BLANK, ops);
    if SafeOps(ops) {
      BlankMirrors();
      StreamKeepsMirror(BLANK, ops);
      ReloadExact(c.mem, c.disk, files);
    }
    ReopenedKeys(ops, files);
    hide SafeKey, Scan, ReceiveAll;
    DecodedKeys(c.mem.entries.Keys);
  }

  /** A set of keys survives the codec if and only if all of them are safe. */
  lemma DecodedKeys(keys: set<Key>)
    ensures (set k | k in keys :: Unsanitized(Sanitized(k))) == keys <==> forall k :: k in keys ==> SafeKey(k)
  {
    hide SafeKey, Unsanitized, Sanitized, Weight;
    var back := set k | k in keys :: Unsanitized(Sanitized(k));
    var unsafe := set k | k in keys && !SafeKey(k);
    forall k | k in keys
      ensures Unsanitized(Sanitized(k)) == k <==> SafeKey(k)
      ensures k in unsafe ==> Weight(Unsanitized(Sanitized(k))) < Weight(k)
    {
      RoundTripIffSafe(k);
      CodecNeverGains(k);
    }
    if unsafe == {} {
      assert forall k :: k in keys ==> k !in unsafe;
      assert back == keys;
    } else {
      var h := Heaviest(unsafe);
      assert h in keys && h !in back;
    }
  }

  lemma ReopenedKeys(ops: seq<Op>, files: seq<string>)
    requires Listing(files, ReceiveAll(BLANK, ops).disk)
    ensures Scan(files, ReceiveAll(BLANK, ops).disk).entries.Keys
         == set k | k in ReceiveAll(BLANK, ops).mem.entries.Keys :: Unsanitized(Sanitized(k))
  {
    var c := ReceiveAll(BLANK, ops);
    HistoryFiles(ops);
    ScanKeys(files, c.disk);
    forall k
      ensures JsonFile(FileOf(k)) && KeyOf(FileOf(k)) == Unsanitized(Sanitized(k))
    {
      FileStem(k);
    }
    hide JsonFile, FileOf, KeyOf, Scan, ReceiveAll, Unsanitized, Sanitized, FilesOf;
    assert forall f :: f in files <==> f in FilesOf(c.mem.entries.Keys);
    StemsOfFiles(files, c.mem.entries.Keys);
  }

  lemma StemsOfFiles(files: seq<string>, keys: set<Key>)
    requires forall f :: f in files <==> f in FilesOf(keys)
    requires forall k :: JsonFile(FileOf(k)) && KeyOf(FileOf(k)) == Unsanitized(Sanitized(k))
    requires forall f :: f in files ==> JsonFile(f)
    ensures (set f | f in files :: KeyOf(f)) == set k | k in keys :: Unsanitized(Sanitized(k))
  {
    hide JsonFile, FileOf, KeyOf, Unsanitized, Sanitized;
    var scanned, decoded := set f | f in files :: KeyOf(f), set k | k in keys :: Unsanitized(Sanitized(k));
    forall x | x in scanned
      ensures x in decoded
    {
      var f :| f in files && KeyOf(f) == x;
      var k :| k in keys && FileOf(k) == f;
      assert Unsanitized(Sanitized(k)) == x;
    }
    forall x | x in decoded
      ensures x in scanned
    {
      var k :| k in keys && Unsanitized(Sanitized(k)) == x;
      assert FileOf(k) in FilesOf(keys);
    }
  }
}
