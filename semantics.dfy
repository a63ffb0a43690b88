/**
 * What one step of `QEngine::execute` does to the engine's state, as
 * functions: the gate dispatch on `gate_type_`, the classical-control rule,
 * and the measurement dispatch on `measurement_type_` with its relabelling
 * of `subsys_`.
 */
module Semantics {
  import opened Basics
  import opened Kernels
  import opened Steps
  import opened Relabel
  import opened Circuit

  /** The engine's state: `psi_`, `dits_`, `probs_` and `subsys_`. */
  datatype Machine = Machine(psi: State, dits: seq<nat>, probs: seq<real>, subsys: seq<Idx>)

  /**
   * `h_tbl[h]` on the engine's copy of the operand table: the stored matrix,
   * or the default-constructed one that `operator[]` inserts on a miss.
   */
  function Lookup(t: map<Hash, Matrix>, h: Hash, dflt: Matrix): (r: Matrix)
    ensures h in t ==> r == t[h]
    ensures h !in t ==> r == dflt
  {
    if h in t then t[h] else dflt
  }

  /** The FAN loop: U on each position of rel, one after another, in list order. */
  function FanApply(ops: StateOps, psi: State, U: Matrix, rel: seq<nat>, d: nat): (r: State)
    ensures rel == [] ==> r == psi
    ensures |rel| == 1 ==> r == ops.apply(psi, U, rel, d)
  {
    if rel == [] then psi
    else
      assert |rel| == 1 ==> rel[..0] == [] && [rel[0]] == rel;
      ops.apply(FanApply(ops, psi, U, rel[..|rel| - 1], d), U, [rel[|rel| - 1]], d)
  }

  /** Every control dit holds v. */
  predicate DitsAgree(dits: seq<nat>, ctrl: seq<nat>, v: nat)
    requires forall k :: 0 <= k < |ctrl| ==> ctrl[k] < |dits|
  {
    forall k :: 0 <= k < |ctrl| ==> dits[ctrl[k]] == v
  }

  /** What the gate dispatch needs of a step: its indices are in range, and a classical control reads ctrl_[0] only when there are dits. */
  predicate GateRunnable(g: GateStep, m: Machine)
  {
    && (forall k :: 0 <= k < |g.target| ==> g.target[k] < |m.subsys|)
    && (g.kind.QuantumCtrl() ==> forall k :: 0 <= k < |g.ctrl| ==> g.ctrl[k] < |m.subsys|)
    && (g.kind.ClassicalCtrl() ==> (forall k :: 0 <= k < |g.ctrl| ==> g.ctrl[k] < |m.dits|) && (|m.dits| > 0 ==> |g.ctrl| > 0))
  }

  /**
   * A gate step on the state vector, with U the step's operand. The target
   * positions come first, so a measured target fails every kind, NONE
   * included; a controlled kind then needs its control positions too.
   */
  function GateSpec(ops: StateOps, U: Matrix, g: GateStep, m: Machine, d: nat): (r: Result<State>)
    requires GateRunnable(g, m)
    ensures r.Err? ==> r.error == QuditAlreadyMeasured
    ensures r.Err? <==> RelPos(m.subsys, g.target).Err? || (g.kind.QuantumCtrl() && RelPos(m.subsys, g.ctrl).Err?)
  {
    match RelPos(m.subsys, g.target)
    case Err(e) => Err(e)
    case Ok(tr) =>
      if g.kind.NoGate? then Ok(m.psi)
      else if g.kind.Fan? then Ok(FanApply(ops, m.psi, U, tr, d))
      else if g.kind.ClassicalCtrl() then Ok(ClassicalSpec(ops, U, g.ctrl, tr, m, d))
      else if g.kind.QuantumCtrl() then
        match RelPos(m.subsys, g.ctrl)
        case Err(e) => Err(e)
        case Ok(cr) => Ok(ops.applyCtrl(m.psi, U, cr, tr, d))
      else Ok(ops.apply(m.psi, U, tr, d))  // SINGLE, TWO, THREE, CUSTOM
  }

  /**
   * The classical-control rule: with no dits U applies unconditionally;
   * otherwise U^v applies when every control dit equals v, the value of the
   * first one, and nothing happens when they differ.
   */
  function ClassicalSpec(ops: StateOps, U: Matrix, ctrl: seq<nat>, tr: seq<nat>, m: Machine, d: nat): (r: State)
    requires forall k :: 0 <= k < |ctrl| ==> ctrl[k] < |m.dits|
    requires |m.dits| > 0 ==> |ctrl| > 0
    ensures |m.dits| == 0 ==> r == ops.apply(m.psi, U, tr, d)
    ensures forall v :: |m.dits| > 0 && DitsAgree(m.dits, ctrl, v) ==> r == ops.apply(m.psi, ops.powm(U, v), tr, d)
    ensures (exists i, j :: 0 <= i < |ctrl| && 0 <= j < |ctrl| && m.dits[ctrl[i]] != m.dits[ctrl[j]]) ==> r == m.psi
  {
    if |m.dits| == 0 then ops.apply(m.psi, U, tr, d)
    else if DitsAgree(m.dits, ctrl, m.dits[ctrl[0]]) then ops.apply(m.psi, ops.powm(U, m.dits[ctrl[0]]), tr, d)
    else m.psi
  }

  /** What the measurement dispatch needs of a step: the shape the circuit builder gives it, over this engine. */
  predicate MeasureRunnable(ms: MeasureStep, m: Machine)
  {
    MeasureShaped(ms, |m.subsys|, |m.dits|) && |m.probs| == |m.dits|
  }

  /** The outcome and its probability stored at c_reg, the collapsed state, and the targets relabelled as measured. */
  function Record(m: Machine, c: Collapse, creg: nat, subsys: seq<Idx>): (r: Machine)
    requires creg < |m.dits| && |m.probs| == |m.dits|
    ensures r.psi == c.state && r.subsys == subsys
    ensures |r.dits| == |m.dits| && |r.probs| == |m.probs|
    ensures r.dits[creg] == c.outcome && r.probs[creg] == c.prob
    ensures forall k :: 0 <= k < |m.dits| && k != creg ==> r.dits[k] == m.dits[k] && r.probs[k] == m.probs[k]
  {
    Machine(c.state, m.dits[creg := c.outcome], m.probs[creg := c.prob], subsys)
  }

  /**
   * A measurement step. The target positions come first, so an already
   * measured target fails every kind. Z and V measure one qudit; V_MANY
   * measures its targets jointly and then marks each of them, in order.
   * The V kinds look up the hash recorded for V, which the builder never
   * stores in the table, so they see tbl's entry when one exists under that
   * hash and the default matrix otherwise.
   */
  function MeasureSpec(ops: StateOps, tbl: map<Hash, Matrix>, dflt: Matrix, ms: MeasureStep, m: Machine, d: nat): (r: Result<Machine>)
    requires MeasureRunnable(ms, m)
    ensures r.Err? <==> RelPos(m.subsys, ms.target).Err?
    ensures r.Err? ==> r.error == QuditAlreadyMeasured
  {
    match RelPos(m.subsys, ms.target)
    case Err(e) => Err(e)
    case Ok(tr) =>
      match ms.kind
      case NoMeasure => Ok(m)
      case ZBasis =>
        Ok(Record(m, ops.measureZ(m.psi, tr, d), ms.creg, MarkMeasured(m.subsys, ms.target[0])))
      case VBasis =>
        Ok(Record(m, ops.measureV(m.psi, Lookup(tbl, ms.hashes[0], dflt), tr, d), ms.creg, MarkMeasured(m.subsys, ms.target[0])))
      case VBasisMany =>
        Ok(Record(m, ops.measureV(m.psi, Lookup(tbl, ms.hashes[0], dflt), tr, d), ms.creg, MarkAll(m.subsys, ms.target)))
  }

  /** The FAN loop over a concatenation is the loop over the first part, then over the second. */
  lemma {:induction false} FanApplyConcat(ops: StateOps, psi: State, U: Matrix, a: seq<nat>, b: seq<nat>, d: nat)
    ensures FanApply(ops, psi, U, a + b, d) == FanApply(ops, FanApply(ops, psi, U, a, d), U, b, d)
    decreases |b|
  {
    if b == [] {
      assert a + b == a;
    } else {
      var n := |b| - 1;
      assert (a + b)[..|a + b| - 1] == a + b[..n];
      FanApplyConcat(ops, psi, U, a, b[..n], d);
    }
  }

  /** FAN is U applied to each target position separately, once per target, in target order. */
  lemma FanApplyOnce(ops: StateOps, psi: State, U: Matrix, x: nat, rest: seq<nat>, d: nat)
    ensures FanApply(ops, psi, U, [x] + rest, d) == FanApply(ops, ops.apply(psi, U, [x], d), U, rest, d)
  {
    FanApplyConcat(ops, psi, U, [x], rest, d);
    assert [x][..0] == [];
  }

  /** With no classical dits, a classically controlled gate is U on its targets. */
  lemma ClassicalNoDits(ops: StateOps, U: Matrix, g: GateStep, m: Machine, d: nat)
    requires GateRunnable(g, m) && g.kind.ClassicalCtrl() && |m.dits| == 0
    requires RelPos(m.subsys, g.target).Ok?
    ensures GateSpec(ops, U, g, m, d) == Ok(ops.apply(m.psi, U, RelPos(m.subsys, g.target).value, d))
  {
  }

  /** When every control dit equals v, a classically controlled gate is U^v on its targets. */
  lemma ClassicalAgree(ops: StateOps, U: Matrix, g: GateStep, m: Machine, d: nat, v: nat)
    requires GateRunnable(g, m) && g.kind.ClassicalCtrl() && |m.dits| > 0
    requires RelPos(m.subsys, g.target).Ok?
    requires forall k :: 0 <= k < |g.ctrl| ==> m.dits[g.ctrl[k]] == v
    ensures GateSpec(ops, U, g, m, d) == Ok(ops.apply(m.psi, ops.powm(U, v), RelPos(m.subsys, g.target).value, d))
  {
    assert m.dits[g.ctrl[0]] == v;
  }

  /** When two control dits differ, a classically controlled gate leaves the state as it is. */
  lemma ClassicalDisagree(ops: StateOps, U: Matrix, g: GateStep, m: Machine, d: nat, i: nat, j: nat)
    requires GateRunnable(g, m) && g.kind.ClassicalCtrl() && |m.dits| > 0
    requires RelPos(m.subsys, g.target).Ok?
    requires i < |g.ctrl| && j < |g.ctrl| && m.dits[g.ctrl[i]] != m.dits[g.ctrl[j]]
    ensures GateSpec(ops, U, g, m, d) == Ok(m.psi)
  {
    assert !DitsAgree(m.dits, g.ctrl, m.dits[g.ctrl[0]]);
  }

  /** Marking the single target of a Z or V measurement is marking its target list. */
  lemma MarkSingle(s: seq<Idx>, ts: seq<nat>)
    requires |ts| == 1 && ts[0] < |s|
    ensures MarkAll(s, ts) == MarkMeasured(s, ts[0])
  {
    assert ts[..0] == [];
  }

  /**
   * A measurement that succeeds keeps the labelling dense, marks exactly its
   * targets as measured, leaves |target| fewer live qudits, and touches
   * only c_reg among the dits and probabilities.
   */
  lemma MeasureRelabels(ops: StateOps, tbl: map<Hash, Matrix>, dflt: Matrix, ms: MeasureStep, m: Machine, d: nat)
    requires MeasureRunnable(ms, m) && Dense(m.subsys) && ms.kind != NoMeasure
    requires MeasureSpec(ops, tbl, dflt, ms, m, d).Ok?
    ensures var m' := MeasureSpec(ops, tbl, dflt, ms, m, d).value;
      && Dense(m'.subsys)
      && MeasuredFlags(m'.subsys) == MarkTargets(MeasuredFlags(m.subsys), ms.target)
      && CountLive(m'.subsys) + |ms.target| == CountLive(m.subsys)
      && |m'.dits| == |m.dits| && |m'.probs| == |m.probs|
      && (forall k :: 0 <= k < |m.dits| && k != ms.creg ==> m'.dits[k] == m.dits[k] && m'.probs[k] == m.probs[k])
  {
    MarkAllDense(m.subsys, ms.target);
    if !ms.kind.VBasisMany? {
      MarkSingle(m.subsys, ms.target);
    }
  }

  /** A measurement of kind NONE changes nothing. */
  lemma NoMeasureKeeps(ops: StateOps, tbl: map<Hash, Matrix>, dflt: Matrix, ms: MeasureStep, m: Machine, d: nat)
    requires MeasureRunnable(ms, m) && ms.kind == NoMeasure && RelPos(m.subsys, ms.target).Ok?
    ensures MeasureSpec(ops, tbl, dflt, ms, m, d) == Ok(m)
  {
  }
}
