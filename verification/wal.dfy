/** The master's write-ahead log and what replaying it can and cannot repair. */
module Wals {
  import opened Lww

  /** The records numbered above `n`, in log order. */
  function After(log: seq<Op>, n: nat): seq<Op> {
    if log == [] then []
    else
      var front, op := After(log[..|log| - 1], n), log[|log| - 1];
      if op.seqNum > n then front + [op] else front
  }

  function MaxSeq(log: seq<Op>): nat {
    if log == [] then 0 else Max(MaxSeq(log[..|log| - 1]), log[|log| - 1].seqNum)
  }

  class WAL {
    var entries: seq<Op>

    constructor (saved: seq<Op>)
      ensures entries == saved
    {
      entries := saved;
    }

    method Append(key: Key, value: Bytes, seqNum: nat, isDelete: bool)
      modifies this
      ensures entries == old(entries) + [Op(key, value, seqNum, isDelete)]
    {
      entries := entries + [Op(key, value, seqNum, isDelete)];
    }

    method EntriesAfter(seqNum: nat) returns (result: seq<Op>)
      ensures result == After(entries, seqNum)
    {
      result := [];
      for i := 0 to |entries|
        invariant result == After(entries[..i], seqNum)
      {
        assert entries[..i + 1][..i] == entries[..i];
        if entries[i].seqNum > seqNum {
          result := result + [entries[i]];
        }
      }
      assert entries[..|entries|] == entries;
    }

    method MaxSeqNum() returns (max: nat)
      ensures max == MaxSeq(entries)
      ensures forall op :: op in entries ==> op.seqNum <= max
      ensures max == 0 || exists op :: op in entries && op.seqNum == max
    {
      max := 0;
      for i := 0 to |entries|
        invariant max == MaxSeq(entries[..i])
      {
        assert entries[..i + 1][..i] == entries[..i];
        if entries[i].seqNum > max {
          max := entries[i].seqNum;
        }
      }
      assert entries[..|entries|] == entries;
      MaxSeqBounds(entries);
    }
  }

  /** The maximum is one of the logged numbers and bounds them all, whatever the order
      the log was appended in. */
  lemma {:induction false} MaxSeqBounds(log: seq<Op>)
    ensures forall op :: op in log ==> op.seqNum <= MaxSeq(log)
    ensures MaxSeq(log) == 0 || exists op :: op in log && op.seqNum == MaxSeq(log)
    decreases |log|
  {
    if log == [] {
    } else {
      var front, last := log[..|log| - 1], log[|log| - 1];
      assert log == front + [last];
      MaxSeqBounds(front);
      if MaxSeq(log) == last.seqNum {
        assert last in log;
      }
    }
  }

  lemma {:induction false} AfterIsFilter(log: seq<Op>, n: nat)
    ensures Elements(After(log, n)) == set op | op in log && op.seqNum > n
    decreases |log|
  {
    if log == [] {
    } else {
      var front, last := log[..|log| - 1], log[|log| - 1];
      assert log == front + [last];
      AfterIsFilter(front, n);
      assert Elements(After(log, n)) == Elements(After(front, n)) + if last.seqNum > n then {last} else {};
    }
  }

  lemma AfterHas(log: seq<Op>, n: nat)
    ensures forall op :: op in After(log, n) <==> op in log && op.seqNum > n
  {
    AfterIsFilter(log, n);
    assert forall op :: op in After(log, n) <==> op in Elements(After(log, n));
  }

  /** The order of the log is kept, and every record is sent as often as it was logged. */
  lemma {:induction false} AfterKeepsOrder(a: seq<Op>, b: seq<Op>, n: nat)
    ensures After(a + b, n) == After(a, n) + After(b, n)
    decreases |b|
  {
    if b == [] {
      assert a + b == a;
    } else {
      assert (a + b)[..|a + b| - 1] == a + b[..|b| - 1];
      AfterKeepsOrder(a, b[..|b| - 1], n);
    }
  }

  lemma {:induction false} AfterKeepsCounts(log: seq<Op>, n: nat, op: Op)
    ensures multiset(After(log, n))[op] == if op.seqNum > n then multiset(log)[op] else 0
    decreases |log|
  {
    if log == [] {
    } else {
      var front, last := log[..|log| - 1], log[|log| - 1];
      assert log == front + [last];
      AfterKeepsCounts(front, n, op);
    }
  }

  // ---- The reach of recovery --------------------------------------------------

  /** The store after it reported its `lastSeq` and applied everything it was sent. */
  function Recovered(m: Image, log: seq<Op>): Image {
    ApplyAll(m, After(log, m.lastSeq))
  }

  /** The guard a caller could check: every logged operation at or below the reported
      number is either held already or superseded by a logged one above it. */
  ghost predicate Refillable(m: Image, log: seq<Op>) {
    forall op :: op in log && op.seqNum <= m.lastSeq ==>
      Holds(m.entries, op.key, op.seqNum) || Superseded(log, op.key, m.lastSeq)
  }

  predicate Superseded(log: seq<Op>, k: Key, n: nat) {
    exists op :: op in log && op.key == k && op.seqNum > n
  }

  /** Recovery catches a store up exactly when it had no hole below its maximum that
      nothing supersedes; and it touches no key without a newer logged operation. */
  lemma RecoveryReach(m: Image, log: seq<Op>)
    requires Tight(m)
    ensures Covers(Recovered(m, log).entries, Elements(log)) <==> Refillable(m, log)
    ensures forall k :: !Superseded(log, k, m.lastSeq) ==>
              (k in Recovered(m, log).entries <==> k in m.entries)
              && (k in m.entries ==> Recovered(m, log).entries[k] == m.entries[k])
  {
    var sent, r := After(log, m.lastSeq), Recovered(m, log);
    AfterIsFilter(log, m.lastSeq);
    ApplyAllJoins(m, sent);
    forall k | !Superseded(log, k, m.lastSeq)
      ensures k in r.entries <==> k in m.entries
      ensures k in m.entries ==> r.entries[k] == m.entries[k]
    {
      Untouched(m, log, k);
    }
    if Refillable(m, log) {
      forall op | op in log
        ensures Holds(r.entries, op.key, op.seqNum)
      {
        if op.seqNum > m.lastSeq {
          assert op in Elements(sent);
        } else if Superseded(log, op.key, m.lastSeq) {
          var newer :| newer in log && newer.key == op.key && newer.seqNum > m.lastSeq;
          assert newer in Elements(sent);
          assert Holds(r.entries, newer.key, newer.seqNum);
        } else {
          assert Holds(r.entries, op.key, m.entries[op.key].seqNum);
        }
      }
    }
    if Covers(r.entries, Elements(log)) {
      forall op | op in log && op.seqNum <= m.lastSeq
        ensures Holds(m.entries, op.key, op.seqNum) || Superseded(log, op.key, m.lastSeq)
      {
        assert op in Elements(log);
        assert Holds(r.entries, op.key, op.seqNum);
      }
    }
  }

  lemma Untouched(m: Image, log: seq<Op>, k: Key)
    requires Tight(m) && !Superseded(log, k, m.lastSeq)
    ensures k in Recovered(m, log).entries <==> k in m.entries
    ensures k in m.entries ==> Recovered(m, log).entries[k] == m.entries[k]
  {
    var sent, r := After(log, m.lastSeq), Recovered(m, log);
    AfterIsFilter(log, m.lastSeq);
    ApplyAllJoins(m, sent);
    if k in m.entries {
      assert Holds(r.entries, k, m.entries[k].seqNum);
    }
    if k in r.entries {
      assert Sourced(m, Elements(sent), k, r.entries[k]);
      assert forall op :: op in Elements(sent) ==> op in log && op.seqNum > m.lastSeq;
    }
  }

  /** "Fully caught up" fails: a replica that missed operation 1 and received operation 2
      reports 2, is sent nothing, and never shows operation 1. */
  lemma HoleIsNeverRefilled(missed: Op, received: Op)
    requires missed.seqNum < received.seqNum && missed.key != received.key
    ensures var m := ApplyAll(EMPTY, [received]);
            Recovered(m, [missed, received]) == m && !Covers(m.entries, Elements([missed, received]))
  {
    var log := [missed, received];
    var m := ApplyAll(EMPTY, [received]);
    ApplyOne(EMPTY, received);
    assert log[..1] == [missed] && [missed][..0] == [];
    assert After([missed], m.lastSeq) == [];
    assert After(log, m.lastSeq) == [];
    assert missed in Elements(log);
  }

  // ---- The counter after a restart ---------------------------------------------

  const TWO_64: nat := 0x1_0000_0000_0000_0000

  /** The next value of an unsigned 64-bit counter. */
  function Next(counter: nat): nat {
    (counter + 1) % TWO_64
  }

  /** The numbers handed out by `n` requests from a counter standing at `from`. */
  function Issued(from: nat, n: nat): seq<nat> {
    if n == 0 then []
    else
      var front := Issued(from, n - 1);
      front + [Next(if front == [] then from else front[|front| - 1])]
  }

  lemma {:induction false} IssuedAt(from: nat, n: nat)
    requires from + n < TWO_64
    ensures |Issued(from, n)| == n && forall i :: 0 <= i < n ==> Issued(from, n)[i] == from + 1 + i
  {
    if n == 0 {
    } else {
      IssuedAt(from, n - 1);
    }
  }

  /** Within one run numbers are strictly increasing (until the 64-bit counter wraps),
      and after a restart all of them exceed every logged number. */
  lemma IssuedIncrease(log: seq<Op>, n: nat)
    requires MaxSeq(log) + n < TWO_64
    ensures var numbers := Issued(MaxSeq(log), n);
            && (forall i, j :: 0 <= i < j < |numbers| ==> numbers[i] < numbers[j])
            && (forall i, op :: 0 <= i < |numbers| && op in log ==> op.seqNum < numbers[i])
  {
    IssuedAt(MaxSeq(log), n);
    MaxSeqBounds(log);
  }
}
