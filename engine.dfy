/**
 * `QEngine`: runs the steps of one circuit on a state vector, keeping the
 * classical dits, the outcome probabilities and the relabelling `subsys_`
 * of the qudits that are still present in the state.
 */
module Engine {
  import opened Basics
  import opened Kernels
  import opened Steps
  import opened Relabel
  import opened Circuit
  import opened Cursors
  import opened Iterators
  import opened Semantics

  /** `std::iota(begin, end, 0)`. */
  method FillIota(a: array<Idx>)
    requires a.Length <= MaxIdx
    modifies a
    ensures a[..] == Identity(a.Length)
  {
    var i := 0;
    while i < a.Length
      invariant 0 <= i <= a.Length
      invariant forall k :: 0 <= k < i ==> a[k] == k
    {
      a[i] := i;
      i := i + 1;
    }
  }

  /** The guard of `get_dit`/`set_dit` as written: an index is refused only when it exceeds nc. */
  predicate DitIndexAdmittedAsWritten(i: nat, nc: nat)
  {
    !(i > nc)
  }

  class QEngine {
    const qc: QCircuit          // qc_
    const ops: StateOps         // the state kernels
    var psi: State              // psi_
    var dits: seq<nat>          // dits_
    var probs: seq<real>        // probs_
    const subsys: array<Idx>    // subsys_

    /** One entry per qudit and one dit and probability per classical dit, with a dense relabelling. */
    ghost predicate Valid()
      reads this, qc, subsys
    {
      && qc.Valid()
      && subsys.Length == qc.nq
      && |dits| == qc.nc && |probs| == qc.nc
      && Dense(subsys[..])
    }

    /** The engine's state as a value. */
    function MachineOf(): Machine
      reads this, subsys
    {
      Machine(psi, dits, probs, subsys[..])
    }

    /** `QEngine(qc)`: the all-zero state, zero dits and probabilities, nothing measured. */
    constructor (qc: QCircuit, ops: StateOps)
      requires qc.Valid()
      ensures Valid() && fresh(subsys)
      ensures this.qc == qc && this.ops == ops
      ensures psi == ops.zero(qc.nq, qc.d)
      ensures dits == seq(qc.nc, _ => 0) && probs == seq(qc.nc, _ => 0.0)
      ensures subsys[..] == Identity(qc.nq)
    {
      this.qc := qc;
      this.ops := ops;
      psi := ops.zero(qc.nq, qc.d);
      dits := seq(qc.nc, _ => 0);
      probs := seq(qc.nc, _ => 0.0);
      var a := new Idx[qc.nq];
      FillIota(a);
      subsys := a;
      IdentityDense(qc.nq);
    }

    /** `reset()`: the state the constructor sets up. */
    method Reset()
      requires Valid()
      modifies this`psi, this`dits, this`probs, subsys
      ensures Valid()
      ensures psi == ops.zero(qc.nq, qc.d)
      ensures dits == seq(qc.nc, _ => 0) && probs == seq(qc.nc, _ => 0.0)
      ensures subsys[..] == Identity(qc.nq)
    {
      psi := ops.zero(qc.nq, qc.d);
      dits := seq(qc.nc, _ => 0);
      probs := seq(qc.nc, _ => 0.0);
      FillIota(subsys);
      IdentityDense(qc.nq);
    }

    // ----- queries

    /** `get_measured(i)`: the qudit is measured exactly when get_measured() lists it. */
    function Measured(i: nat): (r: bool)
      reads subsys
      requires i < subsys.Length
      ensures r <==> i in Indices(MeasuredFlags(subsys[..]), true)
    {
      IndicesSpec(MeasuredFlags(subsys[..]), true);
      subsys[i] == Sentinel
    }

    /** `get_measured()`: the measured qudits in ascending order. */
    method GetMeasured() returns (r: seq<nat>)
      requires Valid()
      ensures r == Indices(MeasuredFlags(subsys[..]), true)
      ensures forall q: nat :: q in r <==> q < qc.nq && subsys[q] == Sentinel
      ensures Increasing(r)
    {
      ghost var flags := MeasuredFlags(subsys[..]);
      r := [];
      var i := 0;
      while i < qc.nq
        invariant 0 <= i <= qc.nq
        invariant r == Indices(flags[..i], true)
      {
        assert flags[..i + 1][..i] == flags[..i];
        if subsys[i] == Sentinel {
          r := r + [i];
        }
        i := i + 1;
      }
      assert flags[..qc.nq] == flags;
      IndicesSpec(flags, true);
    }

    /**
     * `get_non_measured()`: the qudits still in the state in ascending order;
     * their positions are then 0, 1, … in that order.
     */
    method GetNonMeasured() returns (r: seq<nat>)
      requires Valid()
      ensures r == Indices(MeasuredFlags(subsys[..]), false)
      ensures forall q: nat :: q in r <==> q < qc.nq && subsys[q] != Sentinel
      ensures Increasing(r) && |r| == CountLive(subsys[..])
      ensures forall k :: 0 <= k < |r| ==> r[k] < subsys.Length && subsys[r[k]] == k
    {
      ghost var flags := MeasuredFlags(subsys[..]);
      r := [];
      var i := 0;
      while i < qc.nq
        invariant 0 <= i <= qc.nq
        invariant r == Indices(flags[..i], false)
      {
        assert flags[..i + 1][..i] == flags[..i];
        if subsys[i] != Sentinel {
          r := r + [i];
        }
        i := i + 1;
      }
      assert flags[..qc.nq] == flags;
      IndicesSpec(flags, false);
      LiveRanks(subsys[..]);
    }

    /** `get_relative_pos_(v)`: the positions of the listed qudits, refused if one is measured. */
    method GetRelativePos(v: seq<nat>) returns (r: Result<seq<nat>>)
      requires forall k :: 0 <= k < |v| ==> v[k] < subsys.Length
      ensures r == RelPos(subsys[..], v)
    {
      var out := v;
      var i := 0;
      while i < |v|
        invariant 0 <= i <= |v| && |out| == |v|
        invariant forall k :: 0 <= k < i ==> subsys[v[k]] != Sentinel && out[k] == subsys[v[k]]
      {
        if subsys[v[i]] == Sentinel {
          assert subsys[..][v[i]] == Sentinel;
          return Err(QuditAlreadyMeasured);
        }
        out := out[i := subsys[v[i]]];
        i := i + 1;
      }
      assert forall k :: 0 <= k < |v| ==> subsys[..][v[k]] != Sentinel;
      r := Ok(out);
      assert out == RelPos(subsys[..], v).value;
    }

    /** `get_dit(i)`, with the bound checked as `i >= nc` (see `DitIndexAdmittedAsWritten`). */
    function GetDit(i: nat): (r: Result<nat>)
      reads this, qc, subsys
      requires Valid()
      ensures r.Err? <==> i >= |dits|
      ensures r.Err? ==> r.error == OutOfRange
      ensures r.Ok? ==> r.value == dits[i]
    {
      if i >= qc.nc then Err(OutOfRange) else Ok(dits[i])
    }

    /**
     * On a well-formed engine the guard as written lets index nc through,
     * one past the last entry of `dits_`, where the corrected check refuses it.
     */
    lemma DitGuardAdmitsPastEnd()
      requires Valid()
      ensures DitIndexAdmittedAsWritten(qc.nc, qc.nc)
      ensures qc.nc == |dits| && !(qc.nc < |dits|)
      ensures GetDit(qc.nc) == Err(OutOfRange)
    {
    }

    // ----- updates

    /** `set_dit(i, value)`, with the bound checked as `i >= nc`; get_dit(i) then reads value back. */
    method SetDit(i: nat, value: nat) returns (r: Outcome)
      requires Valid()
      modifies this`dits
      ensures Valid()
      ensures i >= qc.nc ==> r == Fail(OutOfRange) && dits == old(dits)
      ensures i < qc.nc ==> r == Pass && dits == old(dits)[i := value]
      ensures i < qc.nc ==> GetDit(i) == Ok(value)
      ensures forall j :: j != i ==> GetDit(j) == old(GetDit(j))
    {
      if i >= qc.nc {
        return Fail(OutOfRange);
      }
      dits := dits[i := value];
      r := Pass;
    }

    /**
     * `set_measured_(i)`: refused for a measured qudit; otherwise the
     * sentinel at i and every later live entry one lower.
     */
    method SetMeasured(i: nat) returns (r: Outcome)
      requires Valid() && i < subsys.Length
      modifies subsys
      ensures Valid()
      ensures old(subsys[i]) == Sentinel ==> r == Fail(QuditAlreadyMeasured) && subsys[..] == old(subsys[..])
      ensures old(subsys[i]) != Sentinel ==> r == Pass && subsys[..] == MarkMeasured(old(subsys[..]), i)
    {
      if subsys[i] == Sentinel {
        return Fail(QuditAlreadyMeasured);
      }
      ghost var s0 := subsys[..];
      MarkMeasuredDense(s0, i);
      ShiftDown(i);
      r := Pass;
    }

    /** The body of `set_measured_` after its check: the sentinel at i, then `--subsys_[m]` for each later live m. */
    method ShiftDown(i: nat)
      requires i < subsys.Length && subsys.Length == qc.nq
      modifies subsys
      ensures subsys[..] == MarkMeasured(old(subsys[..]), i)
    {
      ghost var s0 := subsys[..];
      ghost var t := MarkMeasured(s0, i);
      subsys[i] := Sentinel;
      var m := i;
      while m < qc.nq
        invariant i <= m <= subsys.Length && subsys[i] == Sentinel
        invariant forall k :: 0 <= k < m ==> subsys[k] == t[k]
        invariant forall k :: m <= k < subsys.Length && k != i ==> subsys[k] == s0[k]
      {
        assert t[m] == if m == i then Sentinel else if s0[m] != Sentinel then Dec(s0[m]) else s0[m];
        if subsys[m] != Sentinel {
          subsys[m] := Dec(subsys[m]);
        }
        m := m + 1;
      }
      assert subsys[..] == t;
    }

    // ----- execution

    /** A classically controlled gate has a control to read when there are dits. */
    predicate ClassicalReady(g: GateStep)
      reads this, qc
    {
      g.kind.ClassicalCtrl() && qc.nc > 0 ==> |g.ctrl| > 0
    }

    /** The cursor points at a recorded step, and a classical control there has a ctrl_[0]. */
    predicate Executable(c: Cursor)
      reads this, qc
    {
      && (c.kind == StepGate ==> c.gateIp < |qc.gates| && ClassicalReady(qc.gates[c.gateIp]))
      && (c.kind == StepMeasure ==> c.measureIp < |qc.measurements|)
    }

    /** The step the cursor is on, run on machine m. */
    ghost function StepSpec(c: Cursor, m: Machine): (r: Result<Machine>)
      reads this, qc
      requires qc.Valid() && Executable(c)
      requires |m.subsys| == qc.nq && |m.dits| == qc.nc && |m.probs| == qc.nc
      ensures c.kind == StepNone ==> r == Ok(m)
      ensures r.Err? ==> r.error == QuditAlreadyMeasured
      ensures r.Ok? ==> |r.value.subsys| == |m.subsys| && |r.value.dits| == |m.dits| && |r.value.probs| == |m.probs|
      ensures c.kind == StepGate && r.Ok? ==> r.value == m.(psi := r.value.psi)
    {
      match c.kind
      case StepGate =>
        var g := qc.gates[c.gateIp];
        (match GateSpec(ops, Lookup(qc.table, g.hash, qc.mops.empty), g, m, qc.d)
         case Err(e) => Err(e)
         case Ok(p) => Ok(m.(psi := p)))
      case StepMeasure => MeasureSpec(ops, qc.table, qc.mops.empty, qc.measurements[c.measureIp], m, qc.d)
      case StepNone => Ok(m)
    }

    /**
     * `execute(elem)` from machine m: refused for a step of another circuit;
     * otherwise the step's outcome, with the machine unchanged when it fails.
     */
    ghost function StepResult(view: StepView, m: Machine): (r: (Outcome, Machine))
      reads this, qc
      requires qc.Valid() && (view.qc == qc ==> Executable(view.cursor))
      requires |m.subsys| == qc.nq && |m.dits| == qc.nc && |m.probs| == qc.nc
      ensures view.qc != qc ==> r == (Fail(InvalidIterator), m)
      ensures r.0.Fail? ==> r.1 == m
      ensures r.0 == Pass <==> view.qc == qc && StepSpec(view.cursor, m).Ok?
      ensures r.0 == Pass ==> r.1 == StepSpec(view.cursor, m).value
    {
      if view.qc != qc then (Fail(InvalidIterator), m)
      else match StepSpec(view.cursor, m)
        case Err(e) => (Fail(e), m)
        case Ok(m') => (Pass, m')
    }

    /** The FAN loop: U on each target position, one after another. */
    method ApplyFan(U: Matrix, tr: seq<nat>)
      modifies this`psi
      ensures psi == FanApply(ops, old(psi), U, tr, qc.d)
    {
      ghost var psi0 := psi;
      var m := 0;
      while m < |tr|
        invariant 0 <= m <= |tr|
        invariant psi == FanApply(ops, psi0, U, tr[..m], qc.d)
      {
        assert tr[..m + 1][..m] == tr[..m];
        psi := ops.apply(psi, U, [tr[m]], qc.d);
        m := m + 1;
      }
      assert tr[..|tr|] == tr;
    }

    /** The classical-control branch: compare every control dit with the first, stopping at a mismatch. */
    method ApplyClassical(U: Matrix, ctrl: seq<nat>, tr: seq<nat>)
      requires forall k :: 0 <= k < |ctrl| ==> ctrl[k] < |dits|
      requires |dits| > 0 ==> |ctrl| > 0
      modifies this`psi
      ensures psi == ClassicalSpec(ops, U, ctrl, tr, old(MachineOf()), qc.d)
    {
      if |dits| == 0 {
        psi := ops.apply(psi, U, tr, qc.d);
      } else {
        var shouldApply := true;
        var first := dits[ctrl[0]];
        var m := 0;
        while m < |ctrl|
          invariant 0 <= m <= |ctrl|
          invariant shouldApply && forall k :: 0 <= k < m ==> dits[ctrl[k]] == first
        {
          if dits[ctrl[m]] != first {
            shouldApply := false;
            break;
          }
          m := m + 1;
        }
        if shouldApply {
          psi := ops.apply(psi, ops.powm(U, first), tr, qc.d);
        }
      }
    }

    /** A gate step: the dispatch on gate_type_. */
    method ExecuteGate(g: GateStep) returns (r: Outcome)
      requires Valid() && GateFits(g, qc.nq, qc.nc) && ClassicalReady(g)
      modifies this`psi
      ensures Valid()
      ensures match GateSpec(ops, Lookup(qc.table, g.hash, qc.mops.empty), g, old(MachineOf()), qc.d)
        case Err(e) => r == Fail(e) && psi == old(psi)
        case Ok(p) => r == Pass && psi == p
    {
      var U := Lookup(qc.table, g.hash, qc.mops.empty);
      var tr := GetRelativePos(g.target);
      if tr.Err? {
        return Fail(tr.error);
      }
      if g.kind.NoGate? {
      } else if g.kind.Fan? {
        ApplyFan(U, tr.value);
      } else if g.kind.ClassicalCtrl() {
        ApplyClassical(U, g.ctrl, tr.value);
      } else if g.kind.QuantumCtrl() {
        var cr := GetRelativePos(g.ctrl);
        if cr.Err? {
          return Fail(cr.error);
        }
        psi := ops.applyCtrl(psi, U, cr.value, tr.value, qc.d);
      } else {
        psi := ops.apply(psi, U, tr.value, qc.d);
      }
      r := Pass;
    }

    /** The outcome and its probability stored at c_reg and the collapsed state. */
    method Store(c: Collapse, creg: nat)
      requires creg < |dits| && |probs| == |dits|
      modifies this`psi, this`dits, this`probs
      ensures psi == c.state && dits == old(dits)[creg := c.outcome] && probs == old(probs)[creg := c.prob]
    {
      psi := c.state;
      dits := dits[creg := c.outcome];
      probs := probs[creg := c.prob];
    }

    /** The V_MANY relabelling: `set_measured_` on each target in order. */
    method MarkTargetsMeasured(ts: seq<nat>)
      requires Valid() && NoDuplicates(ts)
      requires forall k :: 0 <= k < |ts| ==> ts[k] < subsys.Length && subsys[ts[k]] != Sentinel
      modifies subsys
      ensures Valid() && subsys[..] == MarkAll(old(subsys[..]), ts)
    {
      ghost var s0 := subsys[..];
      var k := 0;
      while k < |ts|
        invariant 0 <= k <= |ts| && Valid()
        invariant subsys[..] == MarkAll(s0, ts[..k])
      {
        assert ts[..k + 1][..k] == ts[..k];
        MarkRemainingLive(s0, ts, k);
        var marked := SetMeasured(ts[k]);
        k := k + 1;
      }
      assert ts[..|ts|] == ts;
    }

    /** A measurement step: the dispatch on measurement_type_. */
    method ExecuteMeasure(ms: MeasureStep) returns (r: Outcome)
      requires Valid() && MeasureShaped(ms, qc.nq, qc.nc)
      modifies this`psi, this`dits, this`probs, subsys
      ensures Valid()
      ensures match MeasureSpec(ops, qc.table, qc.mops.empty, ms, old(MachineOf()), qc.d)
        case Err(e) => r == Fail(e) && MachineOf() == old(MachineOf())
        case Ok(m) => r == Pass && MachineOf() == m
    {
      var tr := GetRelativePos(ms.target);
      if tr.Err? {
        return Fail(tr.error);
      }
      assert subsys[ms.target[0]] != Sentinel by {
        assert subsys[..][ms.target[0]] != Sentinel;
      }
      match ms.kind {
        case NoMeasure =>
        case ZBasis =>
          Store(ops.measureZ(psi, tr.value, qc.d), ms.creg);
          var marked := SetMeasured(ms.target[0]);
        case VBasis =>
          Store(ops.measureV(psi, Lookup(qc.table, ms.hashes[0], qc.mops.empty), tr.value, qc.d), ms.creg);
          var marked := SetMeasured(ms.target[0]);
        case VBasisMany =>
          Store(ops.measureV(psi, Lookup(qc.table, ms.hashes[0], qc.mops.empty), tr.value, qc.d), ms.creg);
          assert forall k :: 0 <= k < |ms.target| ==> subsys[ms.target[k]] != Sentinel by {
            assert forall k :: 0 <= k < |ms.target| ==> subsys[..][ms.target[k]] != Sentinel;
          }
          MarkTargetsMeasured(ms.target);
      }
      r := Pass;
    }

    /**
     * `execute(elem)`: refused for a step of another circuit; a step that
     * fails leaves the engine as it was; the engine stays well formed.
     */
    method Execute(view: StepView) returns (r: Outcome)
      requires Valid() && (view.qc == qc ==> Executable(view.cursor))
      modifies this`psi, this`dits, this`probs, subsys
      ensures Valid()
      ensures (r, MachineOf()) == StepResult(view, old(MachineOf()))
    {
      if view.qc != qc {
        return Fail(InvalidIterator);
      }
      var c := view.cursor;
      if c.kind == StepGate {
        assert GateFits(qc.gates[c.gateIp], qc.nq, qc.nc);
        r := ExecuteGate(qc.gates[c.gateIp]);
      } else if c.kind == StepMeasure {
        assert MeasureShaped(qc.measurements[c.measureIp], qc.nq, qc.nc);
        r := ExecuteMeasure(qc.measurements[c.measureIp]);
      } else {
        r := Pass;
      }
    }

    /** `execute(it)`: `execute(*it)`, so a detached iterator or one at the end is refused first. */
    method ExecuteAt(it: StepIterator) returns (r: Outcome)
      requires Valid() && it.Valid()
      requires it.qc == qc ==> Executable(it.elem)
      modifies this`psi, this`dits, this`probs, subsys
      ensures Valid()
      ensures it.qc == null || Cursors.Deref(it.qc.stepTypes, it.elem).Err? ==>
        r == Fail(InvalidIterator) && MachineOf() == old(MachineOf())
      ensures it.qc != null && Cursors.Deref(it.qc.stepTypes, it.elem).Ok? ==>
        (r, MachineOf()) == StepResult(StepView(it.qc, it.elem), old(MachineOf()))
    {
      var v := it.Deref();
      if v.Err? {
        return Fail(v.error);
      }
      r := Execute(v.value);
    }
  }

  /** After the first k targets are marked, the remaining ones are still live. */
  lemma MarkRemainingLive(s: seq<Idx>, ts: seq<nat>, k: nat)
    requires Dense(s) && NoDuplicates(ts) && k < |ts|
    requires forall j :: 0 <= j < |ts| ==> ts[j] < |s| && s[ts[j]] != Sentinel
    ensures MarkAll(s, ts[..k])[ts[k]] != Sentinel
  {
    var front := ts[..k];
    assert NoDuplicates(front) by {
      forall a, b | 0 <= a < b < |front| ensures front[a] != front[b] {
        assert front[a] == ts[a] && front[b] == ts[b];
      }
    }
    MarkAllDense(s, front);
    assert ts[k] !in front by {
      forall a | 0 <= a < k ensures front[a] != ts[k] {
        assert front[a] == ts[a];
      }
    }
    assert MeasuredFlags(MarkAll(s, front))[ts[k]] == (MeasuredFlags(s)[ts[k]] || ts[k] in front);
  }
}
