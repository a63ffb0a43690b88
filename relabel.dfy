/**
 * The engine's `subsys_` vector as a value. Entry q is the sentinel
 * `static_cast<idx>(-1)` once qudit q has been measured, and otherwise the
 * position of q in the state that is left (the state shrinks by one qudit
 * per measured qudit). The functions here are the reads and the relabelling
 * that `QEngine` performs on it.
 */
module Relabel {
  import opened Basics

  /** `static_cast<idx>(-1)`: the entry of a measured qudit. */
  const Sentinel: Idx := MaxIdx

  /** The number of qudits not yet measured. */
  function CountLive(s: seq<Idx>): (r: nat)
    ensures r <= |s|
  {
    if s == [] then 0
    else CountLive(s[..|s| - 1]) + (if s[|s| - 1] != Sentinel then 1 else 0)
  }

  /** Every live qudit sits at the position given by the live qudits before it. */
  ghost predicate Dense(s: seq<Idx>)
  {
    forall i :: 0 <= i < |s| && s[i] != Sentinel ==> s[i] == CountLive(s[..i])
  }

  /** `get_measured(i)` for every qudit. */
  function MeasuredFlags(s: seq<Idx>): (r: seq<bool>)
    ensures |r| == |s|
    ensures forall i :: 0 <= i < |s| ==> (r[i] <==> s[i] == Sentinel)
  {
    seq(|s|, i requires 0 <= i < |s| => s[i] == Sentinel)
  }

  /** `std::iota`: qudit q at position q, nothing measured. */
  function Identity(n: Idx): (r: seq<Idx>)
    ensures |r| == n
    ensures forall i :: 0 <= i < n ==> r[i] == i
  {
    seq(n, i requires 0 <= i < n => i as Idx)
  }

  /**
   * `set_measured_(i)` on an unmeasured qudit: the sentinel at i and every
   * later live entry decremented (`--subsys_[m]`, which wraps at 0).
   */
  function MarkMeasured(s: seq<Idx>, i: nat): (r: seq<Idx>)
    requires i < |s|
    ensures |r| == |s| && r[i] == Sentinel
    ensures forall m :: 0 <= m < i ==> r[m] == s[m]
    ensures forall m :: 0 <= m < |s| && s[m] == Sentinel ==> r[m] == Sentinel
  {
    seq(|s|, m requires 0 <= m < |s| =>
      if m == i then Sentinel else if m > i && s[m] != Sentinel then Dec(s[m]) else s[m])
  }

  /** `set_measured_` on the targets in order. */
  function MarkAll(s: seq<Idx>, ts: seq<nat>): (r: seq<Idx>)
    requires forall k :: 0 <= k < |ts| ==> ts[k] < |s|
    ensures |r| == |s|
    ensures forall k :: 0 <= k < |ts| ==> r[ts[k]] == Sentinel
    ensures forall m :: 0 <= m < |s| && s[m] == Sentinel ==> r[m] == Sentinel
  {
    if ts == [] then s else MarkMeasured(MarkAll(s, ts[..|ts| - 1]), ts[|ts| - 1])
  }

  /**
   * `get_relative_pos_(v)`: fails if any listed qudit is measured, and
   * otherwise maps every listed qudit to its position.
   */
  function RelPos(s: seq<Idx>, v: seq<nat>): (r: Result<seq<nat>>)
    requires forall k :: 0 <= k < |v| ==> v[k] < |s|
    ensures r.Err? <==> exists k :: 0 <= k < |v| && s[v[k]] == Sentinel
    ensures r.Err? ==> r.error == QuditAlreadyMeasured
    ensures r.Ok? ==> |r.value| == |v| && forall k :: 0 <= k < |v| ==> r.value[k] == s[v[k]]
  {
    if exists k :: 0 <= k < |v| && s[v[k]] == Sentinel then Err(QuditAlreadyMeasured)
    else Ok(seq(|v|, k requires 0 <= k < |v| => s[v[k]] as nat))
  }

  /** Two vectors with the same measured entries have the same number of live qudits. */
  lemma {:induction false} CountLiveAgree(a: seq<Idx>, b: seq<Idx>)
    requires |a| == |b|
    requires forall k :: 0 <= k < |a| ==> (a[k] == Sentinel <==> b[k] == Sentinel)
    ensures CountLive(a) == CountLive(b)
  {
    if a != [] {
      CountLiveAgree(a[..|a| - 1], b[..|b| - 1]);
    }
  }

  /** Measuring one more qudit, and nothing else changing liveness, leaves one live qudit fewer. */
  lemma {:induction false} CountLiveOneLess(a: seq<Idx>, b: seq<Idx>, i: nat)
    requires |a| == |b| && i < |a| && a[i] != Sentinel && b[i] == Sentinel
    requires forall k :: 0 <= k < |a| && k != i ==> (a[k] == Sentinel <==> b[k] == Sentinel)
    ensures CountLive(a) == CountLive(b) + 1
  {
    var n := |a| - 1;
    if i == n {
      CountLiveAgree(a[..n], b[..n]);
    } else {
      CountLiveOneLess(a[..n], b[..n], i);
    }
  }

  /** Live qudits before position j are at most j, and one live qudit at i < j makes it at least 1. */
  lemma {:induction false} CountLivePrefix(s: seq<Idx>, i: nat, j: nat)
    requires i < j <= |s| && s[i] != Sentinel
    ensures CountLive(s[..i]) < CountLive(s[..j])
    decreases j
  {
    assert s[..j][..j - 1] == s[..j - 1];
    if j - 1 > i {
      CountLivePrefix(s, i, j - 1);
    } else {
      assert s[..j - 1] == s[..i];
    }
  }

  /** The initial relabelling. */
  lemma IdentityDense(n: Idx)
    ensures Dense(Identity(n)) && CountLive(Identity(n)) == n
    ensures MeasuredFlags(Identity(n)) == seq(n, _ => false)
  {
    IdentityCount(n, n);
    forall i | 0 <= i < n
      ensures Identity(n)[i] == CountLive(Identity(n)[..i])
    {
      IdentityCount(n, i);
    }
  }

  lemma {:induction false} IdentityCount(n: Idx, j: nat)
    requires j <= n
    ensures CountLive(Identity(n)[..j]) == j
  {
    if j > 0 {
      assert Identity(n)[..j][..j - 1] == Identity(n)[..j - 1];
      IdentityCount(n, j - 1);
    }
  }

  /**
   * Live qudits keep their order and all positions are below the number of
   * live qudits: the positions of the live qudits are 0 .. CountLive - 1,
   * each used once.
   */
  lemma DenseOrder(s: seq<Idx>, i: nat, j: nat)
    requires Dense(s) && i < j < |s| && s[i] != Sentinel && s[j] != Sentinel
    ensures s[i] < s[j] < CountLive(s)
  {
    CountLivePrefix(s, i, j);
    CountLivePrefix(s, j, |s|);
    assert s[..|s|] == s;
  }

  /** A live qudit's position is below the number of live qudits. */
  lemma DenseBound(s: seq<Idx>, i: nat)
    requires Dense(s) && i < |s| && s[i] != Sentinel
    ensures s[i] < CountLive(s)
  {
    CountLivePrefix(s, i, |s|);
    assert s[..|s|] == s;
  }

  /**
   * `set_measured_(i)` on an unmeasured qudit changes the liveness of qudit i
   * only, and every later live entry is positive before its decrement.
   */
  lemma MarkMeasuredLive(s: seq<Idx>, i: nat)
    requires Dense(s) && i < |s| && s[i] != Sentinel
    ensures forall m :: 0 <= m < |s| && m != i ==> (MarkMeasured(s, i)[m] == Sentinel <==> s[m] == Sentinel)
    ensures forall m :: i < m < |s| && s[m] != Sentinel ==> s[m] > 0 && MarkMeasured(s, i)[m] + 1 == s[m]
  {
    forall m | i < m < |s| && s[m] != Sentinel
      ensures s[m] > 0 && s[m] < Sentinel
    {
      CountLivePrefix(s, i, m);
      DenseBound(s, m);
    }
  }

  /** One entry of the relabelled vector is where the dense labelling puts it. */
  lemma MarkMeasuredAt(s: seq<Idx>, i: nat, m: nat)
    requires Dense(s) && i < |s| && s[i] != Sentinel && m < |s|
    requires forall k :: 0 <= k < |s| && k != i ==> (MarkMeasured(s, i)[k] == Sentinel <==> s[k] == Sentinel)
    requires forall k :: i < k < |s| && s[k] != Sentinel ==> MarkMeasured(s, i)[k] + 1 == s[k]
    requires MarkMeasured(s, i)[m] != Sentinel
    ensures MarkMeasured(s, i)[m] == CountLive(MarkMeasured(s, i)[..m])
  {
    var r := MarkMeasured(s, i);
    if m < i {
      assert r[..m] == s[..m];
    } else {
      CountLiveOneLess(s[..m], r[..m], i);
    }
  }

  /**
   * `set_measured_(i)` on an unmeasured qudit keeps the labelling dense,
   * measures exactly qudit i, never wraps a live entry below 0, and leaves
   * one live qudit fewer.
   */
  lemma MarkMeasuredDense(s: seq<Idx>, i: nat)
    requires Dense(s) && i < |s| && s[i] != Sentinel
    ensures forall m :: i < m < |s| && s[m] != Sentinel ==> s[m] > 0
    ensures Dense(MarkMeasured(s, i))
    ensures MeasuredFlags(MarkMeasured(s, i)) == MeasuredFlags(s)[i := true]
    ensures CountLive(MarkMeasured(s, i)) == CountLive(s) - 1
  {
    var r := MarkMeasured(s, i);
    MarkMeasuredLive(s, i);
    forall m | 0 <= m < |s| && r[m] != Sentinel
      ensures r[m] == CountLive(r[..m])
    {
      MarkMeasuredAt(s, i, m);
    }
    assert MeasuredFlags(r) == MeasuredFlags(s)[i := true];
    CountLiveOneLess(s, r, i);
  }

  /**
   * Measuring distinct unmeasured qudits one after another keeps the
   * labelling dense and measures exactly those qudits.
   */
  lemma {:induction false} MarkAllDense(s: seq<Idx>, ts: seq<nat>)
    requires Dense(s) && NoDuplicates(ts)
    requires forall k :: 0 <= k < |ts| ==> ts[k] < |s| && s[ts[k]] != Sentinel
    ensures Dense(MarkAll(s, ts))
    ensures MeasuredFlags(MarkAll(s, ts)) == MarkTargets(MeasuredFlags(s), ts)
    ensures CountLive(MarkAll(s, ts)) + |ts| == CountLive(s)
  {
    if ts == [] {
      assert MarkTargets(MeasuredFlags(s), ts) == MeasuredFlags(s);
    } else {
      var n := |ts| - 1;
      var front := ts[..n];
      var x := ts[n];
      FrontDistinct(ts);
      MarkAllDense(s, front);
      var p := MarkAll(s, front);
      assert MeasuredFlags(p)[x] == (MeasuredFlags(s)[x] || x in front);
      MarkMeasuredDense(p, x);
      MarkTargetsSnoc(MeasuredFlags(s), ts);
    }
  }

  /** Without duplicates, the last target is not among the others, which have none either. */
  lemma FrontDistinct(ts: seq<nat>)
    requires NoDuplicates(ts) && ts != []
    ensures NoDuplicates(ts[..|ts| - 1]) && ts[|ts| - 1] !in ts[..|ts| - 1]
  {
    var front := ts[..|ts| - 1];
    forall a, b | 0 <= a < b < |front| ensures front[a] != front[b] {
      assert front[a] == ts[a] && front[b] == ts[b];
    }
    forall a | 0 <= a < |front| ensures front[a] != ts[|ts| - 1] {
      assert front[a] == ts[a];
    }
  }

  /** Marking a list of targets is marking all but the last, then the last. */
  lemma MarkTargetsSnoc(flags: seq<bool>, ts: seq<nat>)
    requires ts != [] && ts[|ts| - 1] < |flags|
    ensures MarkTargets(flags, ts) == MarkTargets(flags, ts[..|ts| - 1])[ts[|ts| - 1] := true]
  {
    var front := ts[..|ts| - 1];
    assert ts == front + [ts[|ts| - 1]];
    forall q | 0 <= q < |flags|
      ensures MarkTargets(flags, ts)[q] == MarkTargets(flags, front)[ts[|ts| - 1] := true][q]
    {
      assert q in ts <==> q in front || q == ts[|ts| - 1];
    }
  }

  /** A prefix of a dense labelling is dense. */
  lemma DenseFront(s: seq<Idx>)
    requires Dense(s) && s != []
    ensures Dense(s[..|s| - 1])
  {
    var front := s[..|s| - 1];
    forall i | 0 <= i < |front| && front[i] != Sentinel ensures front[i] == CountLive(front[..i]) {
      assert front[..i] == s[..i];
    }
  }

  /**
   * With a dense labelling, the k-th unmeasured qudit in ascending order is
   * at position k.
   */
  lemma {:induction false} LiveRanks(s: seq<Idx>)
    requires Dense(s)
    ensures |Indices(MeasuredFlags(s), false)| == CountLive(s)
    ensures forall k :: 0 <= k < |Indices(MeasuredFlags(s), false)| ==>
      Indices(MeasuredFlags(s), false)[k] < |s| && s[Indices(MeasuredFlags(s), false)[k]] == k
  {
    if s != [] {
      var n := |s| - 1;
      var front := s[..n];
      DenseFront(s);
      assert MeasuredFlags(s)[..n] == MeasuredFlags(front);
      LiveRanks(front);
      var live := Indices(MeasuredFlags(s), false);
      var before := Indices(MeasuredFlags(front), false);
      assert live == before + (if s[n] != Sentinel then [n] else []);
      forall k | 0 <= k < |live| ensures live[k] < |s| && s[live[k]] == k {
        if k < |before| {
          assert live[k] == before[k] && s[before[k]] == front[before[k]];
        }
      }
    }
  }

  /**
   * With a dense labelling, `get_relative_pos_(get_non_measured())` succeeds
   * and gives exactly the positions 0, 1, …, CountLive - 1, in order.
   */
  lemma LivePositions(s: seq<Idx>)
    requires Dense(s)
    ensures |Indices(MeasuredFlags(s), false)| == CountLive(s)
    ensures forall k :: 0 <= k < |Indices(MeasuredFlags(s), false)| ==> Indices(MeasuredFlags(s), false)[k] < |s|
    ensures RelPos(s, Indices(MeasuredFlags(s), false)) == Ok(Iota(CountLive(s)))
  {
    LiveRanks(s);
    var live := Indices(MeasuredFlags(s), false);
    var r := RelPos(s, live);
    assert r.Ok? by {
      IndicesSpec(MeasuredFlags(s), false);
    }
    assert r.value == Iota(CountLive(s));
  }
}
