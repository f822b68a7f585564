/** The last-writer-wins map at the heart of a chunk store, as values:
    what one `Put` or `Delete` does to the in-memory state (`Apply`), what a whole
    stream of them does (`ApplyAll`), and the laws that make the order, the
    repetition and the interleaving of such streams irrelevant. */
module Lww {
  datatype Option<+T> = None | Some(value: T)

  type Key = string
  type Bytes = seq<bv8>

  /** A stored value with its sequence number; a tombstone when `deleted`. */
  datatype Entry = Entry(value: Bytes, seqNum: nat, deleted: bool)

  /** One write or delete as it travels: a client request, a replicate message,
      a WAL record, a recovery entry. */
  datatype Op = Op(key: Key, value: Bytes, seqNum: nat, isDelete: bool)

  /** The in-memory state of a store. */
  datatype Image = Image(entries: map<Key, Entry>, lastSeq: nat)

  const EMPTY := Image(map[], 0)

  /** The entry an operation stores; a delete drops whatever value came with it. */
  function EntryOf(op: Op): Entry {
    if op.isDelete then Entry([], op.seqNum, true) else Entry(op.value, op.seqNum, false)
  }

  function Max(a: nat, b: nat): nat {
    if a < b then b else a
  }

  /** The map holds key `k` at number `n` or above. */
  predicate Holds(es: map<Key, Entry>, k: Key, n: nat) {
    k in es && n <= es[k].seqNum
  }

  predicate Stale(es: map<Key, Entry>, op: Op) {
    Holds(es, op.key, op.seqNum)
  }

  function Apply(m: Image, op: Op): Image {
    if Stale(m.entries, op) then m
    else Image(m.entries[op.key := EntryOf(op)], Max(m.lastSeq, op.seqNum))
  }

  function ApplyAll(m: Image, ops: seq<Op>): Image {
    if ops == [] then m
    else Apply(ApplyAll(m, ops[..|ops| - 1]), ops[|ops| - 1])
  }

  function Elements(ops: seq<Op>): set<Op> {
    set op | op in ops
  }

  /** What a reader is shown: tombstones are invisible. */
  function Visible(es: map<Key, Entry>): map<Key, Bytes> {
    map k | k in es && !es[k].deleted :: es[k].value
  }

  /** `lastSeq` is exactly the largest number among the entries. */
  ghost predicate Tight(m: Image) {
    && (forall k :: k in m.entries ==> m.entries[k].seqNum <= m.lastSeq)
    && (m.lastSeq == 0 || exists k :: k in m.entries && m.entries[k].seqNum == m.lastSeq)
  }

  // ---- Streams ------------------------------------------------------------

  lemma {:induction false} ApplyAllConcat(m: Image, a: seq<Op>, b: seq<Op>)
    ensures ApplyAll(m, a + b) == ApplyAll(ApplyAll(m, a), b)
    decreases |b|
  {
    if b == [] {
      assert a + b == a;
    } else {
      var b' := b[..|b| - 1];
      assert (a + b)[..|a + b| - 1] == a + b';
      ApplyAllConcat(m, a, b');
    }
  }

  lemma ApplyOne(m: Image, op: Op)
    ensures ApplyAll(m, [op]) == Apply(m, op)
  {
    var front := [op][..0];
    assert ApplyAll(m, front) == m;
  }

  lemma {:induction false} ApplyAllTight(m: Image, ops: seq<Op>)
    requires Tight(m)
    ensures Tight(ApplyAll(m, ops))
    decreases |ops|
  {
    if ops == [] {
    } else {
      var before := ApplyAll(m, ops[..|ops| - 1]);
      ApplyAllTight(m, ops[..|ops| - 1]);
      ApplyTight(before, ops[|ops| - 1]);
    }
  }

  lemma ApplyTight(m: Image, op: Op)
    requires Tight(m)
    ensures Tight(Apply(m, op))
  {
    var r := Apply(m, op);
    if r != m && r.lastSeq != 0 {
      if op.seqNum >= m.lastSeq {
        assert r.entries[op.key].seqNum == r.lastSeq;
      } else {
        var k :| k in m.entries && m.entries[k].seqNum == m.lastSeq;
        assert k != op.key;
        assert r.entries[k].seqNum == r.lastSeq;
      }
    }
  }

  /** `r` is the join of image `m` with the set `s` of offered operations: it holds
      everything offered at or above its number, stores nothing that was not offered
      or already there, lets an incumbent keep a tie, and its high-water mark is the
      largest number seen. */
  ghost predicate Join(m: Image, s: set<Op>, r: Image) {
    && Covers(r.entries, s)
    && (forall k :: k in m.entries ==> Holds(r.entries, k, m.entries[k].seqNum))
    && (forall k :: k in r.entries ==> Sourced(m, s, k, r.entries[k]))
    && m.lastSeq <= r.lastSeq
    && (forall op :: op in s ==> op.seqNum <= r.lastSeq)
    && (r.lastSeq == m.lastSeq || exists op :: op in s && op.seqNum == r.lastSeq)
  }

  /** Every operation of `s` is held at its number or above. */
  ghost predicate Covers(es: map<Key, Entry>, s: set<Op>) {
    forall op :: op in s ==> Holds(es, op.key, op.seqNum)
  }

  ghost predicate Sourced(m: Image, s: set<Op>, k: Key, e: Entry) {
    (k in m.entries && e == m.entries[k]) || exists op :: Supplies(m, s, k, e, op)
  }

  predicate Supplies(m: Image, s: set<Op>, k: Key, e: Entry, op: Op) {
    op in s && op.key == k && EntryOf(op) == e && !Stale(m.entries, op)
  }

  /** Whatever the order and the repetition, a stream computes the join of its set;
      in particular `lastSeq` is the largest offered number although rejected calls
      never touch it. */
  lemma {:induction false} ApplyAllJoins(m: Image, ops: seq<Op>)
    requires Tight(m)
    ensures Join(m, Elements(ops), ApplyAll(m, ops))
    decreases |ops|
  {
    if ops == [] {
    } else {
      var front, op := ops[..|ops| - 1], ops[|ops| - 1];
      ApplyAllJoins(m, front);
      ApplyAllTight(m, front);
      assert ops == front + [op];
      assert Elements(ops) == Elements(front) + {op};
      JoinStep(m, Elements(front), ApplyAll(m, front), op);
    }
  }

  lemma JoinStep(m: Image, s: set<Op>, r: Image, op: Op)
    requires Tight(m) && Tight(r) && Join(m, s, r)
    ensures Join(m, s + {op}, Apply(r, op))
  {
    var s', r' := s + {op}, Apply(r, op);
    StepCovers(s, r, op);
    forall k | k in r'.entries
      ensures Sourced(m, s', k, r'.entries[k])
    {
      if k in r.entries && r'.entries[k] == r.entries[k] {
        SourcedMore(m, s, s', k, r.entries[k]);
      } else {
        assert Supplies(m, s', k, r'.entries[k], op);
      }
    }
    hide Covers, Sourced;
    if r'.lastSeq == r.lastSeq != m.lastSeq {
      var o :| o in s && o.seqNum == r.lastSeq;
      assert o in s' && o.seqNum == r'.lastSeq;
    } else if r'.lastSeq != r.lastSeq {
      assert op in s' && op.seqNum == r'.lastSeq;
    }
  }

  lemma StepCovers(s: set<Op>, r: Image, op: Op)
    requires Covers(r.entries, s)
    ensures Covers(Apply(r, op).entries, s + {op})
  {
  }

  lemma SourcedMore(m: Image, s: set<Op>, s': set<Op>, k: Key, e: Entry)
    requires s <= s' && Sourced(m, s, k, e)
    ensures Sourced(m, s', k, e)
  {
    if !(k in m.entries && e == m.entries[k]) {
      var o :| Supplies(m, s, k, e, o);
      assert Supplies(m, s', k, e, o);
    }
  }

  // ---- Convergence ---------------------------------------------------------

  /** No operation in `s` on the same key outranks `op`, and neither does the base. */
  ghost predicate Wins(m: Image, s: set<Op>, op: Op) {
    && op in s
    && !Stale(m.entries, op)
    && forall o :: o in s && o.key == op.key ==> o.seqNum <= op.seqNum
  }

  /** Two winners for one key store the same entry: the only ties that matter are
      at the top. Implied by "equal numbers mean equal operations". */
  ghost predicate Decided(m: Image, s: set<Op>) {
    forall a, b :: Wins(m, s, a) && Wins(m, s, b) && a.key == b.key ==> EntryOf(a) == EntryOf(b)
  }

  lemma JoinUnique(m: Image, s: set<Op>, r1: Image, r2: Image)
    requires Decided(m, s) && Join(m, s, r1) && Join(m, s, r2)
    ensures r1 == r2
  {
    forall k | k in r1.entries
      ensures k in r2.entries && r1.entries[k] == r2.entries[k]
    {
      JoinKey(m, s, r1, r2, k);
    }
    forall k | k in r2.entries
      ensures k in r1.entries
    {
      JoinKey(m, s, r2, r1, k);
    }
    assert r1.entries == r2.entries;
  }

  lemma JoinKey(m: Image, s: set<Op>, r1: Image, r2: Image, k: Key)
    requires Decided(m, s) && Join(m, s, r1) && Join(m, s, r2) && k in r1.entries
    ensures k in r2.entries && r1.entries[k] == r2.entries[k]
  {
    assert Sourced(m, s, k, r1.entries[k]);
    if k in m.entries && r1.entries[k] == m.entries[k] {
      assert Holds(r2.entries, k, m.entries[k].seqNum);
      assert Sourced(m, s, k, r2.entries[k]);
    } else {
      var a :| Supplies(m, s, k, r1.entries[k], a);
      SupplierWins(m, s, r1, k, a);
      assert Holds(r2.entries, a.key, a.seqNum);
      assert Sourced(m, s, k, r2.entries[k]);
      var b :| Supplies(m, s, k, r2.entries[k], b);
      SupplierWins(m, s, r2, k, b);
    }
  }

  lemma SupplierWins(m: Image, s: set<Op>, r: Image, k: Key, op: Op)
    requires Join(m, s, r) && k in r.entries && Supplies(m, s, k, r.entries[k], op)
    ensures Wins(m, s, op)
  {
    forall o | o in s && o.key == op.key
      ensures o.seqNum <= op.seqNum
    {
      assert Holds(r.entries, o.key, o.seqNum);
    }
  }

  /** Strong convergence: streams offering the same operations, in any order and with
      any repetition, leave the same entries and the same `lastSeq`. */
  lemma StrongConvergence(m: Image, a: seq<Op>, b: seq<Op>)
    requires Tight(m) && Elements(a) == Elements(b) && Decided(m, Elements(a))
    ensures ApplyAll(m, a) == ApplyAll(m, b)
  {
    ApplyAllJoins(m, a);
    ApplyAllJoins(m, b);
    JoinUnique(m, Elements(a), ApplyAll(m, a), ApplyAll(m, b));
  }

  ghost predicate OrderFree(m: Image, ops: seq<Op>) {
    forall other: seq<Op> {:trigger Elements(other)} :: Elements(other) == Elements(ops) ==>
      ApplyAll(m, other) == ApplyAll(m, ops)
  }

  /** Convergence is exact: every rearrangement agrees if and only if no two winners of
      one key differ. */
  lemma ConvergesIffDecided(m: Image, ops: seq<Op>)
    requires Tight(m)
    ensures OrderFree(m, ops) <==> Decided(m, Elements(ops))
  {
    var s := Elements(ops);
    if Decided(m, s) {
      forall other: seq<Op> {:trigger Elements(other)} | Elements(other) == s
        ensures ApplyAll(m, other) == ApplyAll(m, ops)
      {
        StrongConvergence(m, other, ops);
      }
    }
    if OrderFree(m, ops) {
      forall a, b | Wins(m, s, a) && Wins(m, s, b) && a.key == b.key
        ensures EntryOf(a) == EntryOf(b)
      {
        FirstWinnerStays(m, ops, a);
        FirstWinnerStays(m, ops, b);
        assert Elements([a] + ops) == s && Elements([b] + ops) == s;
      }
    }
  }

  /** A winner that arrives first is never displaced. */
  lemma FirstWinnerStays(m: Image, ops: seq<Op>, a: Op)
    requires Tight(m) && Wins(m, Elements(ops), a)
    ensures a.key in ApplyAll(m, [a] + ops).entries
    ensures ApplyAll(m, [a] + ops).entries[a.key] == EntryOf(a)
  {
    var base := Apply(m, a);
    ApplyTight(m, a);
    ApplyOne(m, a);
    ApplyAllConcat(m, [a], ops);
    ApplyAllJoins(base, ops);
    var r := ApplyAll(base, ops);
    assert Holds(r.entries, a.key, base.entries[a.key].seqNum);
    assert Sourced(base, Elements(ops), a.key, r.entries[a.key]);
  }

  /** From an empty store `lastSeq` is the largest number ever offered, although rejected
      calls return before touching it. */
  lemma LastSeqIsMaxOffered(ops: seq<Op>)
    ensures forall op :: op in ops ==> op.seqNum <= ApplyAll(EMPTY, ops).lastSeq
    ensures ops != [] ==> exists op :: op in ops && op.seqNum == ApplyAll(EMPTY, ops).lastSeq
  {
    var r := ApplyAll(EMPTY, ops);
    ApplyAllJoins(EMPTY, ops);
    assert forall op :: op in ops ==> op in Elements(ops);
    if ops != [] && r.lastSeq == 0 {
      assert ops[0] in ops && ops[0].seqNum == r.lastSeq;
    } else if ops != [] {
      var op :| op in Elements(ops) && op.seqNum == r.lastSeq;
      assert op in ops;
    }
  }

  // ---- Interleaving --------------------------------------------------------

  /** `z` runs the two streams `x` and `y` together, each in its own order. */
  ghost predicate Interleaves(z: seq<Op>, x: seq<Op>, y: seq<Op>)
    decreases |z|
  {
    if z == [] then x == [] && y == []
    else
      || (x != [] && x[0] == z[0] && Interleaves(z[1..], x[1..], y))
      || (y != [] && y[0] == z[0] && Interleaves(z[1..], x, y[1..]))
  }

  lemma {:induction false} InterleavesElements(z: seq<Op>, x: seq<Op>, y: seq<Op>)
    requires Interleaves(z, x, y)
    ensures Elements(z) == Elements(x) + Elements(y)
    decreases |z|
  {
    if z == [] {
    } else {
      assert z == [z[0]] + z[1..];
      if x != [] && x[0] == z[0] && Interleaves(z[1..], x[1..], y) {
        InterleavesElements(z[1..], x[1..], y);
        assert x == [x[0]] + x[1..];
        assert Elements(z) == {z[0]} + Elements(z[1..]) && Elements(x) == {z[0]} + Elements(x[1..]);
      } else {
        InterleavesElements(z[1..], x, y[1..]);
        assert y == [y[0]] + y[1..];
        assert Elements(z) == {z[0]} + Elements(z[1..]) && Elements(y) == {z[0]} + Elements(y[1..]);
      }
    }
  }

  /** Recovery needs no lock over the whole replay: any interleaving of the replayed
      stream with live traffic equals running them one after the other, either way. */
  lemma ReplayNeedsNoLock(m: Image, z: seq<Op>, replay: seq<Op>, live: seq<Op>)
    requires Tight(m) && Interleaves(z, replay, live)
    requires Decided(m, Elements(replay) + Elements(live))
    ensures ApplyAll(m, z) == ApplyAll(ApplyAll(m, replay), live)
    ensures ApplyAll(m, z) == ApplyAll(ApplyAll(m, live), replay)
  {
    InterleavesElements(z, replay, live);
    assert Elements(replay + live) == Elements(z) == Elements(live + replay);
    StrongConvergence(m, z, replay + live);
    StrongConvergence(m, z, live + replay);
    ApplyAllConcat(m, replay, live);
    ApplyAllConcat(m, live, replay);
  }

  // ---- Refinement to a plain map -------------------------------------------

  /** The naive specification: a plain map overwritten in the order given. */
  function Overwrite(p: map<Key, Bytes>, op: Op): map<Key, Bytes> {
    if op.isDelete then p - {op.key} else p[op.key := op.value]
  }

  function OverwriteAll(ops: seq<Op>): map<Key, Bytes> {
    if ops == [] then map[]
    else Overwrite(OverwriteAll(ops[..|ops| - 1]), ops[|ops| - 1])
  }

  ghost predicate Ascending(ops: seq<Op>) {
    forall i, j :: 0 <= i < j < |ops| ==> ops[i].seqNum <= ops[j].seqNum
  }

  function Insert(op: Op, sorted: seq<Op>): seq<Op> {
    if sorted == [] || op.seqNum < sorted[0].seqNum then [op] + sorted
    else [sorted[0]] + Insert(op, sorted[1..])
  }

  function SortBySeq(ops: seq<Op>): seq<Op> {
    if ops == [] then [] else Insert(ops[0], SortBySeq(ops[1..]))
  }

  lemma {:induction false} InsertKeeps(op: Op, sorted: seq<Op>)
    ensures multiset(Insert(op, sorted)) == multiset(sorted) + multiset{op}
    decreases |sorted|
  {
    if sorted == [] {
    } else {
      assert sorted == [sorted[0]] + sorted[1..];
      InsertKeeps(op, sorted[1..]);
    }
  }

  lemma {:induction false} InsertSorts(op: Op, sorted: seq<Op>)
    requires Ascending(sorted)
    ensures Ascending(Insert(op, sorted))
    decreases |sorted|
  {
    if sorted != [] && op.seqNum >= sorted[0].seqNum {
      var tail := Insert(op, sorted[1..]);
      InsertSorts(op, sorted[1..]);
      InsertFloor(op, sorted[1..], sorted[0].seqNum);
      ConsAscends(sorted[0], tail);
    }
  }

  lemma InsertFloor(op: Op, sorted: seq<Op>, floor: nat)
    requires floor <= op.seqNum && forall o :: o in sorted ==> floor <= o.seqNum
    ensures forall o :: o in Insert(op, sorted) ==> floor <= o.seqNum
  {
    InsertKeeps(op, sorted);
    assert forall o :: o in Insert(op, sorted) ==> o in multiset(Insert(op, sorted));
  }

  lemma ConsAscends(first: Op, tail: seq<Op>)
    requires Ascending(tail) && forall o :: o in tail ==> first.seqNum <= o.seqNum
    ensures Ascending([first] + tail)
  {
  }

  lemma {:induction false} SortBySeqSorts(ops: seq<Op>)
    ensures Ascending(SortBySeq(ops))
    ensures multiset(SortBySeq(ops)) == multiset(ops)
    decreases |ops|
  {
    if ops == [] {
    } else {
      assert ops == [ops[0]] + ops[1..];
      SortBySeqSorts(ops[1..]);
      InsertSorts(ops[0], SortBySeq(ops[1..]));
      InsertKeeps(ops[0], SortBySeq(ops[1..]));
    }
  }

  /** Operation `i` is the last one on its key. */
  ghost predicate LastOn(ops: seq<Op>, i: int, k: Key) {
    0 <= i < |ops| && ops[i].key == k && forall j :: i < j < |ops| ==> ops[j].key != k
  }

  /** What the plain map shows for `k` is decided by the last operation on `k`. */
  lemma {:induction false} OverwriteAllShows(ops: seq<Op>, k: Key) returns (i: int)
    ensures i == -1 ==> k !in OverwriteAll(ops) && forall op :: op in ops ==> op.key != k
    ensures i != -1 ==> LastOn(ops, i, k)
    ensures i != -1 ==> (k in OverwriteAll(ops) <==> !ops[i].isDelete)
    ensures i != -1 && !ops[i].isDelete ==> OverwriteAll(ops)[k] == ops[i].value
    decreases |ops|
  {
    if ops == [] {
      i := -1;
    } else if ops[|ops| - 1].key == k {
      i := |ops| - 1;
    } else {
      var front := ops[..|ops| - 1];
      assert ops == front + [ops[|ops| - 1]];
      i := OverwriteAllShows(front, k);
    }
  }

  /** Refinement: after any stream, a store shows what sorting the offered operations
      by number and naively overwriting a plain map would show, for every sorted order. */
  lemma SequentialRefinement(ops: seq<Op>, sorted: seq<Op>)
    requires Elements(sorted) == Elements(ops) && Ascending(sorted)
    requires Decided(EMPTY, Elements(ops))
    ensures Visible(ApplyAll(EMPTY, ops).entries) == OverwriteAll(sorted)
  {
    var es := ApplyAll(EMPTY, ops).entries;
    ApplyAllJoins(EMPTY, ops);
    forall k
      ensures k in Visible(es) <==> k in OverwriteAll(sorted)
      ensures k in Visible(es) ==> Visible(es)[k] == OverwriteAll(sorted)[k]
    {
      var i := OverwriteAllShows(sorted, k);
      if i == -1 {
        NothingShown(ops, sorted, k);
      } else {
        LastDecides(ops, sorted, k, i);
      }
    }
  }

  lemma NothingShown(ops: seq<Op>, sorted: seq<Op>, k: Key)
    requires Elements(sorted) == Elements(ops) && forall op :: op in sorted ==> op.key != k
    ensures k !in ApplyAll(EMPTY, ops).entries
  {
    ApplyAllJoins(EMPTY, ops);
    assert forall op :: op in Elements(ops) ==> op in Elements(sorted);
  }

  /** The last operation on `k` in an ascending order is the one the store kept. */
  lemma LastDecides(ops: seq<Op>, sorted: seq<Op>, k: Key, i: int)
    requires Elements(sorted) == Elements(ops) && Ascending(sorted) && LastOn(sorted, i, k)
    requires Decided(EMPTY, Elements(ops))
    ensures k in ApplyAll(EMPTY, ops).entries && ApplyAll(EMPTY, ops).entries[k] == EntryOf(sorted[i])
  {
    var s, r := Elements(ops), ApplyAll(EMPTY, ops);
    ApplyAllJoins(EMPTY, ops);
    assert sorted[i] in Elements(sorted);
    assert Holds(r.entries, k, sorted[i].seqNum);
    assert Sourced(EMPTY, s, k, r.entries[k]);
    var o :| Supplies(EMPTY, s, k, r.entries[k], o);
    SupplierWins(EMPTY, s, r, k, o);
    forall op | op in s && op.key == k
      ensures op.seqNum <= sorted[i].seqNum
    {
      assert op in Elements(sorted);
      var j :| 0 <= j < |sorted| && sorted[j] == op;
      assert j <= i;
    }
    assert Wins(EMPTY, s, sorted[i]);
  }

  lemma SortedReplay(ops: seq<Op>)
    requires Decided(EMPTY, Elements(ops))
    ensures Visible(ApplyAll(EMPTY, ops).entries) == OverwriteAll(SortBySeq(ops))
  {
    SortBySeqSorts(ops);
    forall op
      ensures op in SortBySeq(ops) <==> op in ops
    {
      assert op in multiset(SortBySeq(ops)) <==> op in multiset(ops);
    }
    assert Elements(SortBySeq(ops)) == Elements(ops);
    SequentialRefinement(ops, SortBySeq(ops));
  }

  // ---- Monotone numbers, no resurrection -----------------------------------

  lemma {:induction false} NumbersNeverDecrease(m: Image, ops: seq<Op>, k: Key, n: nat)
    requires Holds(m.entries, k, n)
    ensures Holds(ApplyAll(m, ops).entries, k, n)
    ensures m.lastSeq <= ApplyAll(m, ops).lastSeq
    decreases |ops|
  {
    if ops == [] {
    } else {
      NumbersNeverDecrease(m, ops[..|ops| - 1], k, n);
    }
  }

  /** Once a delete has taken effect, only a write with a larger number makes the key
      readable or listed again. */
  lemma NoResurrection(m: Image, del: Op, ops: seq<Op>)
    requires Tight(m) && del.isDelete && !Stale(m.entries, del)
    ensures var shown := Visible(ApplyAll(Apply(m, del), ops).entries);
            del.key in shown ==>
              exists op :: && op in ops && op.key == del.key && !op.isDelete
                           && op.seqNum > del.seqNum && op.value == shown[del.key]
  {
    var base := Apply(m, del);
    var r := ApplyAll(base, ops);
    ApplyTight(m, del);
    ApplyAllJoins(base, ops);
    if del.key in Visible(r.entries) {
      assert Sourced(base, Elements(ops), del.key, r.entries[del.key]);
      var op :| Supplies(base, Elements(ops), del.key, r.entries[del.key], op);
      assert op in ops && op.key == del.key && !op.isDelete && op.seqNum > del.seqNum;
    }
  }
}
