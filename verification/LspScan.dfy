/**
 What number 0 does, which is outstanding only after a negative initial sequence number.
 The scan for the oldest outstanding number treats 0 as "nothing found yet". Go visits a map in any
 order, so the scan is a function of the order; this module says exactly when the order cannot matter.
 */
module LspScan {
  import opened Collections

  /** The value the scan ends with when it starts from `front` and visits `order`. */
  function Scan(front: int, order: seq<int>): int {
    if order == [] then front
    else
      var m := Scan(front, order[..|order| - 1]);
      var k := order[|order| - 1];
      if k < m || m == 0 then k else m
  }

  ghost predicate IsMinimum(m: int, front: int, order: seq<int>) {
    && m <= front
    && (forall i :: 0 <= i < |order| ==> m <= order[i])
    && (m == front || m in order)
  }

  /** 0 is the least outstanding number and it is not the only one. */
  ghost predicate ZeroLeads(order: seq<int>) {
    0 in order && |order| >= 2 && forall i :: 0 <= i < |order| ==> 0 <= order[i]
  }

  /** What the scan knows after a prefix: it has the minimum, or 0 was met and every negative number is still to come. */
  lemma {:induction false} ScanPrefix(front: int, order: seq<int>)
    requires Distinct(order) && forall i :: 0 <= i < |order| ==> order[i] < front
    ensures var m := Scan(front, order);
            IsMinimum(m, front, order) || (0 in order && m in order && m > 0 && forall i :: 0 <= i < |order| ==> 0 <= order[i])
  {
    if order != [] {
      var n := |order| - 1;
      assert order == order[..n] + [order[n]];
      ScanPrefix(front, order[..n]);
      forall i | 0 <= i < n ensures order[..n][i] == order[i] {}
    }
  }

  /** Whether the scan finds the minimum in every order of visit depends on one condition alone. */
  lemma ScanRightIff(front: int, keys: seq<int>)
    requires Distinct(keys) && forall i :: 0 <= i < |keys| ==> keys[i] < front
    ensures (forall order :: multiset(order) == multiset(keys) ==> IsMinimum(Scan(front, order), front, order)) <==>
            !ZeroLeads(keys)
  {
    if !ZeroLeads(keys) {
      forall order | multiset(order) == multiset(keys) ensures IsMinimum(Scan(front, order), front, order) {
        ScanRight(front, keys, order);
      }
    } else {
      var order := WrongOrder(front, keys);
    }
  }

  lemma SameNumbers(keys: seq<int>, order: seq<int>)
    requires multiset(order) == multiset(keys)
    ensures |order| == |keys| && forall k :: k in order <==> k in keys
  {
    assert |multiset(order)| == |multiset(keys)|;
    forall k ensures k in order <==> k in keys {
      assert k in order <==> k in multiset(order);
      assert k in keys <==> k in multiset(keys);
    }
  }

  lemma Twice(order: seq<int>, i: nat, j: nat)
    requires i < j < |order| && order[i] == order[j]
    ensures multiset(order)[order[i]] >= 2
  {
    var k := order[i];
    assert order == order[..i] + [k] + order[i + 1..];
    assert order[i + 1..][j - i - 1] == k;
    assert k in multiset(order[i + 1..]);
  }

  lemma DistinctMultiset(keys: seq<int>, order: seq<int>)
    requires Distinct(keys) && multiset(order) == multiset(keys)
    ensures Distinct(order)
  {
    forall i, j | 0 <= i < j < |order| ensures order[i] != order[j] {
      if order[i] == order[j] {
        Twice(order, i, j);
        AtMostOnce(keys, order[i]);
      }
    }
  }

  lemma {:induction false} AtMostOnce(keys: seq<int>, k: int)
    requires Distinct(keys)
    ensures multiset(keys)[k] <= 1
  {
    if keys != [] {
      var n := |keys| - 1;
      assert keys == keys[..n] + [keys[n]];
      AtMostOnce(keys[..n], k);
      if keys[n] == k {
        assert k !in keys[..n];
        assert k !in multiset(keys[..n]);
      }
    }
  }

  lemma ScanRight(front: int, keys: seq<int>, order: seq<int>)
    requires Distinct(keys) && (forall i :: 0 <= i < |keys| ==> keys[i] < front) && !ZeroLeads(keys)
    requires multiset(order) == multiset(keys)
    ensures IsMinimum(Scan(front, order), front, order)
  {
    SameNumbers(keys, order);
    DistinctMultiset(keys, order);
    forall i | 0 <= i < |order| ensures order[i] < front {
      assert order[i] in order;
      var x :| 0 <= x < |keys| && keys[x] == order[i];
    }
    ScanPrefix(front, order);
    var m := Scan(front, order);
    if 0 in order && m in order && m > 0 && (forall i :: 0 <= i < |order| ==> 0 <= order[i]) {
      // 0 and m are two different outstanding numbers, so one of them is negative after all.
      TwoNumbers(order, m);
      forall i | 0 <= i < |keys| ensures 0 <= keys[i] {
        assert keys[i] in keys;
        var x :| 0 <= x < |order| && order[x] == keys[i];
      }
      assert false;
    }
  }

  lemma TwoNumbers(order: seq<int>, m: int)
    requires 0 in order && m in order && m != 0
    ensures |order| >= 2
  {
  }

  lemma MoveToFront(keys: seq<int>, z: nat) returns (order: seq<int>)
    requires z < |keys|
    ensures multiset(order) == multiset(keys) && |order| == |keys| && order[0] == keys[z]
  {
    order := [keys[z]] + (keys[..z] + keys[z + 1..]);
    assert keys == keys[..z] + [keys[z]] + keys[z + 1..];
  }

  /** Visiting 0 first makes the scan forget it. */
  lemma WrongOrder(front: int, keys: seq<int>) returns (order: seq<int>)
    requires Distinct(keys) && (forall i :: 0 <= i < |keys| ==> keys[i] < front) && ZeroLeads(keys)
    ensures multiset(order) == multiset(keys)
    ensures !IsMinimum(Scan(front, order), front, order)
  {
    var z :| 0 <= z < |keys| && keys[z] == 0;
    order := MoveToFront(keys, z);
    DistinctMultiset(keys, order);
    SameNumbers(keys, order);
    forall i | 0 <= i < |order| ensures 0 <= order[i] {
      assert order[i] in order;
      var x :| 0 <= x < |keys| && keys[x] == order[i];
    }
    ForgetsZero(front, order);
  }

  lemma {:induction false} ForgetsZero(front: int, order: seq<int>)
    requires |order| >= 1 && order[0] == 0 && 0 < front && Distinct(order)
    requires forall i :: 0 <= i < |order| ==> 0 <= order[i]
    ensures if |order| == 1 then Scan(front, order) == 0 else Scan(front, order) > 0
  {
    var n := |order| - 1;
    if n == 0 {
      assert order[..0] == [];
      assert Scan(front, order[..0]) == front;
    } else {
      assert order[..n][0] == 0;
      assert order[n] != order[0];
      ForgetsZero(front, order[..n]);
    }
  }

  // ----- acknowledgements of number 0 -----

  /** An acknowledgement releases its number, except that number 0 is taken for a reminder. */
  function Released(unacked: set<int>, k: int): set<int> {
    if k == 0 then unacked else unacked - {k}
  }

  function ReleasedEach(unacked: set<int>, acks: seq<int>): set<int> {
    if acks == [] then unacked else Released(ReleasedEach(unacked, acks[..|acks| - 1]), acks[|acks| - 1])
  }

  /** A number stays outstanding exactly if it is 0 or its acknowledgement has not come, however many come. */
  lemma {:induction false} ZeroStays(unacked: set<int>, acks: seq<int>, k: int)
    requires k in unacked
    ensures k in ReleasedEach(unacked, acks) <==> k == 0 || k !in acks
  {
    if acks != [] {
      var n := |acks| - 1;
      assert acks == acks[..n] + [acks[n]];
      ZeroStays(unacked, acks[..n], k);
    }
  }
}
