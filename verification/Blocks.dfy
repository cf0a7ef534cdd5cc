/** A range of ports cut into blocks of one size. */
module Blocks {
  /** The first number of block j: lo + j * k, by repeated addition. */
  function BlockStart(lo: int, k: nat, j: nat): (s: int)
    ensures s >= lo
  {
    if j == 0 then lo else BlockStart(lo, k, j - 1) + k
  }

  lemma {:induction false} BlockStartIsMultiple(lo: int, k: nat, j: nat)
    ensures BlockStart(lo, k, j) == lo + j * k
  {
    if j > 0 {
      BlockStartIsMultiple(lo, k, j - 1);
      assert j * k == (j - 1) * k + k;
    }
  }

  lemma {:induction false} BlockOrder(lo: int, k: nat, i: nat, j: nat)
    ensures i < j ==> BlockStart(lo, k, i) + k <= BlockStart(lo, k, j)
  {
    if i + 1 < j {
      BlockOrder(lo, k, i, j - 1);
    }
  }

  predicate InBlock(lo: int, k: nat, j: nat, p: int) {
    BlockStart(lo, k, j) <= p < BlockStart(lo, k, j) + k
  }

  /** A number lies in one block only. */
  lemma BlocksApart(lo: int, k: nat, i: nat, j: nat, p: int)
    requires InBlock(lo, k, i, p) && InBlock(lo, k, j, p)
    ensures i == j
  {
    BlockOrder(lo, k, i, j);
    BlockOrder(lo, k, j, i);
  }

  /** Every number from lo on lies in some block. */
  lemma {:induction false} FindBlock(lo: int, k: nat, p: int) returns (j: nat)
    requires k >= 1 && p >= lo
    ensures InBlock(lo, k, j, p)
    decreases p - lo
  {
    if p < lo + k {
      j := 0;
    } else {
      j := FindBlock(lo, k, p - k);
      j := j + 1;
    }
  }

  /** How many blocks fit into lo .. hi. */
  function Capacity(lo: int, hi: int, k: nat): (c: nat)
    requires k >= 1
  {
    if hi < lo then 0 else (hi - lo + 1) / k
  }

  lemma QuotientBounds(room: nat, k: nat, c: nat)
    requires k >= 1 && c == room / k
    ensures c * k <= room < c * k + k
  {
  }

  lemma CapacityExact(lo: int, hi: int, k: nat, j: nat)
    requires k >= 1
    ensures j < Capacity(lo, hi, k) <==> BlockStart(lo, k, j) + k - 1 <= hi
  {
    if lo <= hi {
      var c := Capacity(lo, hi, k);
      QuotientBounds(hi - lo + 1, k, c);
      BlockStartIsMultiple(lo, k, c);
      BlockOrder(lo, k, j, c);
      BlockOrder(lo, k, c, j);
    }
  }

  lemma {:induction false} Counting(c: nat, s: set<nat>)
    requires forall j | j in s :: j < c
    ensures |s| <= c
    ensures |s| == c ==> forall j: nat :: j < c ==> j in s
    ensures (forall j: nat :: j < c ==> j in s) ==> |s| == c
  {
    if c > 0 {
      var last := c - 1;
      var rest := s - {last};
      Counting(last, rest);
      if last in s {
        assert s == rest + {last};
      } else {
        assert s == rest;
      }
    } else {
      assert s == {};
    }
  }
}
