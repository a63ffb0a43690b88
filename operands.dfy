/**
 * The circuit's operand table `cmat_hash_tbl_`: matrices keyed by their hash,
 * where a hash already bound to a different matrix is a fatal collision.
 */
module Operands {
  import opened Basics
  import opened Kernels

  /**
   * `QCircuit::add_hash_(U, h)`: fails on a collision, otherwise
   * `unordered_map::insert`, which keeps an entry already present.
   */
  function AddHash(t: map<Hash, Matrix>, h: Hash, U: Matrix): (r: Option<map<Hash, Matrix>>)
    ensures r.None? <==> h in t && t[h] != U
    ensures r.Some? ==> r.value.Keys == t.Keys + {h} && r.value[h] == U
    ensures r.Some? ==> forall k :: k in t ==> r.value[k] == t[k]
    ensures h !in t ==> r.Some? && |r.value| == |t| + 1
    ensures h in t && t[h] == U ==> r == Some(t)
  {
    if h in t then
      if t[h] != U then None else Some(t)
    else
      Some(t[h := U])
  }

  /** Every entry is stored under its own hash. */
  predicate ContentAddressed(m: MatrixOps, t: map<Hash, Matrix>)
  {
    forall h :: h in t ==> m.hash(t[h]) == h
  }

  /** Inserting U under its own hash keeps the table content-addressed. */
  lemma AddHashContentAddressed(m: MatrixOps, t: map<Hash, Matrix>, U: Matrix)
    requires ContentAddressed(m, t) && AddHash(t, m.hash(U), U).Some?
    ensures ContentAddressed(m, AddHash(t, m.hash(U), U).value)
  {
  }

  /**
   * In a content-addressed table, inserting U under its own hash fails
   * exactly when the table already holds a different matrix with the same
   * hash: a collision is genuine, never a stale entry.
   */
  lemma CollisionIsGenuine(m: MatrixOps, t: map<Hash, Matrix>, U: Matrix)
    requires ContentAddressed(m, t)
    ensures AddHash(t, m.hash(U), U).None? <==>
      exists V :: V in t.Values && V != U && m.hash(V) == m.hash(U)
  {
    if AddHash(t, m.hash(U), U).None? {
      var V := t[m.hash(U)];
      assert V in t.Values;
    }
    if exists V :: V in t.Values && V != U && m.hash(V) == m.hash(U) {
      var V :| V in t.Values && V != U && m.hash(V) == m.hash(U);
      var h :| h in t && t[h] == V;
      assert h == m.hash(U);
    }
  }

  /** Inserting the same matrix again changes nothing. */
  lemma AddHashIdempotent(t: map<Hash, Matrix>, h: Hash, U: Matrix)
    requires AddHash(t, h, U).Some?
    ensures AddHash(AddHash(t, h, U).value, h, U) == AddHash(t, h, U)
  {
  }
}
