/**
 * Shared vocabulary of the circuit model: qpp's unsigned index type, the
 * exception kinds the circuit classes throw, Option/Outcome/Result wrappers,
 * and small facts about index lists and name counters.
 */
module Basics {

  /** qpp's `idx` is `std::size_t`, a 64-bit unsigned integer. */
  const MaxIdx: nat := 0xFFFF_FFFF_FFFF_FFFF

  type Idx = n: nat | n <= MaxIdx

  /** Unsigned 64-bit decrement `--x`: 0 wraps around to MaxIdx. */
  function Dec(x: Idx): (r: Idx)
    ensures x > 0 ==> r + 1 == x
    ensures x == 0 ==> r == MaxIdx
  {
    if x == 0 then MaxIdx else x - 1
  }

  /** Unsigned 64-bit multiplication `a * b`: the product modulo 2^64. */
  function IdxMul(a: nat, b: nat): (r: Idx)
    ensures a * b <= MaxIdx ==> r == a * b
    ensures a * b > MaxIdx ==> r + MaxIdx + 1 <= a * b
  {
    (a * b) % (MaxIdx + 1)
  }

  /** The product wraps: 2^32 * 2^32 is 0 as an `idx`. */
  lemma IdxMulWraps()
    ensures IdxMul(0x1_0000_0000, 0x1_0000_0000) == 0
  {
  }

  /** The exception classes the circuit code throws, one constructor each. */
  datatype Error =
    | OutOfRange            // exception::OutOfRange, and std::out_of_range of map::at
    | ZeroSize              // exception::ZeroSize
    | QuditAlreadyMeasured  // exception::QuditAlreadyMeasured
    | Duplicates            // exception::Duplicates
    | MatrixNotSquare       // exception::MatrixNotSquare
    | DimsMismatchMatrix    // exception::DimsMismatchMatrix
    | NotImplemented        // exception::NotImplemented
    | HashCollision         // exception::CustomException "Matrix hash collision"
    | InvalidIterator       // exception::InvalidIterator
    | DimsNotEqual          // exception::DimsNotEqual

  datatype Option<T> = None | Some(value: T)

  /** Outcome of an operation that returns nothing or throws. */
  datatype Outcome = Pass | Fail(error: Error)

  /** Outcome of an operation that returns a value or throws. */
  datatype Result<T> = Ok(value: T) | Err(error: Error)

  /** The first error of two checks run one after the other. */
  function OrElse(first: Option<Error>, second: Option<Error>): Option<Error>
  {
    if first.Some? then first else second
  }

  /** `internal::check_no_duplicates`. */
  predicate NoDuplicates(s: seq<nat>)
  {
    forall i, j :: 0 <= i < j < |s| ==> s[i] != s[j]
  }

  /** No index occurs in both lists. */
  predicate Disjoint(a: seq<nat>, b: seq<nat>)
  {
    forall i, j :: 0 <= i < |a| && 0 <= j < |b| ==> a[i] != b[j]
  }

  /** Exact d^n (the source rounds a floating-point `std::pow`). */
  function Pow(b: nat, n: nat): nat
  {
    if n == 0 then 1 else b * Pow(b, n - 1)
  }

  predicate Increasing(s: seq<nat>)
  {
    forall i, j :: 0 <= i < j < |s| ==> s[i] < s[j]
  }

  /** 0, 1, ..., n - 1. */
  function Iota(n: nat): (r: seq<nat>)
    ensures |r| == n
    ensures forall k :: 0 <= k < n ==> r[k] == k
  {
    seq(n, k => k)
  }

  /**
   * The indices i of `flags` with flags[i] == b, in ascending order: what a
   * loop `for (i = 0; i < n; ++i) if (flags[i] == b) result.emplace_back(i)`
   * accumulates.
   */
  function Indices(flags: seq<bool>, b: bool): seq<nat>
  {
    if flags == [] then []
    else Indices(flags[..|flags| - 1], b) + (if flags[|flags| - 1] == b then [|flags| - 1] else [])
  }

  /** Indices lists exactly the positions holding b, each once and in ascending order. */
  lemma {:induction false} IndicesSpec(flags: seq<bool>, b: bool)
    ensures forall k :: 0 <= k < |Indices(flags, b)| ==>
      Indices(flags, b)[k] < |flags| && flags[Indices(flags, b)[k]] == b
    ensures forall i :: 0 <= i < |flags| && flags[i] == b ==> i in Indices(flags, b)
    ensures Increasing(Indices(flags, b))
  {
    if flags != [] {
      var n := |flags| - 1;
      IndicesSpec(flags[..n], b);
      assert forall i :: 0 <= i < n ==> flags[..n][i] == flags[i];
    }
  }

  /**
   * Indices(flags, true) and Indices(flags, false) split 0 .. |flags| - 1: no
   * index is in both and together they have |flags| elements.
   */
  lemma {:induction false} IndicesPartition(flags: seq<bool>)
    ensures |Indices(flags, true)| + |Indices(flags, false)| == |flags|
    ensures forall i, j :: 0 <= i < |Indices(flags, true)| && 0 <= j < |Indices(flags, false)| ==>
      Indices(flags, true)[i] != Indices(flags, false)[j]
  {
    IndicesSpec(flags, true);
    IndicesSpec(flags, false);
    if flags != [] {
      IndicesPartition(flags[..|flags| - 1]);
    }
  }

  /** The flags with every index of ts set. */
  function MarkTargets(flags: seq<bool>, ts: seq<nat>): (r: seq<bool>)
    ensures |r| == |flags|
    ensures forall q :: 0 <= q < |flags| ==> (r[q] <==> flags[q] || q in ts)
  {
    seq(|flags|, q requires 0 <= q < |flags| => flags[q] || q in ts)
  }

  /** `++m[k]` / `m[k] += n` on a std::unordered_map whose missing entries read as 0. */
  function Bump(m: map<string, nat>, k: string, n: nat): (r: map<string, nat>)
    ensures r.Keys == m.Keys + {k}
    ensures r[k] == (if k in m then m[k] else 0) + n
    ensures forall j :: j in m && j != k ==> r[j] == m[j]
  {
    m[k := (if k in m then m[k] else 0) + n]
  }

  /** Sum of m over the keys ks, in no particular order. */
  ghost function SumOver(m: map<string, nat>, ks: set<string>): nat
    requires ks <= m.Keys
    decreases ks
  {
    if ks == {} then 0 else var k :| k in ks; m[k] + SumOver(m, ks - {k})
  }

  /** Sum of all the values of m. */
  ghost function MapTotal(m: map<string, nat>): nat
  {
    SumOver(m, m.Keys)
  }

  /** Any key may be taken out first: the sum does not depend on the order. */
  lemma {:induction false} SumOverRemove(m: map<string, nat>, ks: set<string>, k: string)
    requires ks <= m.Keys && k in ks
    ensures SumOver(m, ks) == m[k] + SumOver(m, ks - {k})
    decreases ks
  {
    var k' :| k' in ks && SumOver(m, ks) == m[k'] + SumOver(m, ks - {k'});
    if k' != k {
      SumOverRemove(m, ks - {k'}, k);
      SumOverRemove(m, ks - {k}, k');
      assert ks - {k'} - {k} == ks - {k} - {k'};
    }
  }

  /** Two maps that agree on ks have the same sum over ks. */
  lemma {:induction false} SumOverAgree(m1: map<string, nat>, m2: map<string, nat>, ks: set<string>)
    requires ks <= m1.Keys && ks <= m2.Keys
    requires forall k :: k in ks ==> m1[k] == m2[k]
    ensures SumOver(m1, ks) == SumOver(m2, ks)
    decreases ks
  {
    if ks != {} {
      var k :| k in ks;
      SumOverRemove(m1, ks, k);
      SumOverRemove(m2, ks, k);
      SumOverAgree(m1, m2, ks - {k});
    }
  }

  /** Adding n to one counter adds n to the total of all counters. */
  lemma BumpTotal(m: map<string, nat>, k: string, n: nat)
    ensures MapTotal(Bump(m, k, n)) == MapTotal(m) + n
  {
    var m' := Bump(m, k, n);
    if k in m {
      assert m'.Keys == m.Keys;
      SumOverRemove(m', m'.Keys, k);
      SumOverRemove(m, m.Keys, k);
      SumOverAgree(m, m', m.Keys - {k});
    } else {
      SumOverRemove(m', m'.Keys, k);
      assert m'.Keys - {k} == m.Keys;
      SumOverAgree(m, m', m.Keys);
    }
  }
}
