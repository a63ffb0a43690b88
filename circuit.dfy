/**
 * `qpp::QCircuit`: an append-only log of gate and measurement steps over
 * nq qudits of dimension d and nc classical dits. Every appender runs its
 * checks first and changes nothing when one fails.
 */
module Circuit {
  import opened Basics
  import opened Kernels
  import opened Steps
  import opened Validation
  import opened Operands

  /** The indices of a gate step point into the circuit: qudits, or dits for a classical control. */
  predicate GateFits(g: GateStep, nq: nat, nc: nat)
  {
    && (forall k :: 0 <= k < |g.target| ==> g.target[k] < nq)
    && (forall k :: 0 <= k < |g.ctrl| ==> g.ctrl[k] < (if g.kind.ClassicalCtrl() then nc else nq))
  }

  /** The shape of a measurement step: distinct existing targets, one for Z and V, a basis hash for V. */
  predicate MeasureShaped(ms: MeasureStep, nq: nat, nc: nat)
  {
    && |ms.target| > 0
    && (ms.kind.ZBasis? || ms.kind.VBasis? ==> |ms.target| == 1)
    && (ms.kind.VBasis? || ms.kind.VBasisMany? ==> |ms.hashes| == 1)
    && NoDuplicates(ms.target)
    && (forall k :: 0 <= k < |ms.target| ==> ms.target[k] < nq)
    && ms.creg < nc
  }

  /** The tag sequence interleaves exactly ng gate steps and nm measurement steps. */
  predicate TagsAgree(tags: seq<StepType>, ng: nat, nm: nat)
  {
    |tags| == ng + nm && CountTag(tags, StepGate) == ng && CountTag(tags, StepMeasure) == nm
  }

  /** Every gate step is well placed and its operand is in the table. */
  predicate GatesFit(gates: seq<GateStep>, table: map<Hash, Matrix>, nq: nat, nc: nat)
  {
    forall k :: 0 <= k < |gates| ==> gates[k].hash in table && GateFits(gates[k], nq, nc)
  }

  /** Every measurement step is well shaped, and a qudit is marked measured exactly when one targets it. */
  predicate MeasurementsFit(ms: seq<MeasureStep>, measured: seq<bool>, nq: nat, nc: nat)
  {
    && |measured| == nq
    && (forall k :: 0 <= k < |ms| ==> MeasureShaped(ms[k], nq, nc))
    && (forall q :: 0 <= q < nq ==> (measured[q] <==> Targeted(ms, q)))
  }

  /** The gate counters: one per name used, each the total weight of the steps of that name. */
  ghost predicate GateCounts(count: map<string, nat>, gates: seq<GateStep>)
  {
    && count.Keys == GateNames(gates)
    && (forall n :: n in count ==> count[n] == NamedWeight(gates, n))
    && MapTotal(count) == TotalWeight(gates)
  }

  /** The measurement counters: one per name used, each the number of steps of that name. */
  ghost predicate MeasureCounts(mc: map<string, nat>, ms: seq<MeasureStep>)
  {
    && mc.Keys == MeasureNames(ms)
    && (forall n :: n in mc ==> mc[n] == NamedMeasures(ms, n))
    && MapTotal(mc) == |ms|
  }

  /** One more tag keeps the interleaving exact. */
  lemma TagsAppend(tags: seq<StepType>, ng: nat, nm: nat, t: StepType)
    requires TagsAgree(tags, ng, nm) && t != StepNone
    ensures TagsAgree(tags + [t], if t == StepGate then ng + 1 else ng, if t == StepMeasure then nm + 1 else nm)
  {
    CountTagAppend(tags, t, StepGate);
    CountTagAppend(tags, t, StepMeasure);
  }

  /** `++count_[name]` or `count_[name] += |target|` keeps the gate counters exact. */
  lemma GateCountsAppend(count: map<string, nat>, gates: seq<GateStep>, g: GateStep)
    requires GateCounts(count, gates)
    ensures GateCounts(Bump(count, g.name, Weight(g)), gates + [g])
  {
    var c := Bump(count, g.name, Weight(g));
    BumpTotal(count, g.name, Weight(g));
    GateAppend(gates, g, g.name);
    if g.name !in count {
      NamedWeightAbsent(gates, g.name);
    }
    forall n | n in c
      ensures c[n] == NamedWeight(gates + [g], n)
    {
      GateAppend(gates, g, n);
    }
  }

  /** `++measurement_count_[name]` keeps the measurement counters exact. */
  lemma MeasureCountsAppend(mc: map<string, nat>, ms: seq<MeasureStep>, x: MeasureStep)
    requires MeasureCounts(mc, ms)
    ensures MeasureCounts(Bump(mc, x.name, 1), ms + [x])
  {
    var c := Bump(mc, x.name, 1);
    BumpTotal(mc, x.name, 1);
    MeasureAppend(ms, x, x.name);
    if x.name !in mc {
      NamedMeasuresAbsent(ms, x.name);
    }
    forall n | n in c
      ensures c[n] == NamedMeasures(ms + [x], n)
    {
      MeasureAppend(ms, x, n);
    }
  }

  /** Recording a well-shaped measurement and marking its targets keeps the markers exact. */
  lemma MeasurementsAppend(ms: seq<MeasureStep>, measured: seq<bool>, nq: nat, nc: nat, x: MeasureStep)
    requires MeasurementsFit(ms, measured, nq, nc) && MeasureShaped(x, nq, nc)
    ensures MeasurementsFit(ms + [x], MarkTargets(measured, x.target), nq, nc)
  {
    var ms' := ms + [x];
    forall k | 0 <= k < |ms'|
      ensures MeasureShaped(ms'[k], nq, nc)
    {
      if k < |ms| {
        assert ms'[k] == ms[k];
      }
    }
    forall q | 0 <= q < nq
      ensures MarkTargets(measured, x.target)[q] <==> Targeted(ms', q)
    {
      TargetedAppend(ms, x, q);
    }
  }

  /** Recording a well-placed gate whose operand the table now holds. */
  lemma GatesAppend(gates: seq<GateStep>, t: map<Hash, Matrix>, t': map<Hash, Matrix>, nq: nat, nc: nat, g: GateStep)
    requires GatesFit(gates, t, nq, nc) && t.Keys <= t'.Keys && g.hash in t' && GateFits(g, nq, nc)
    ensures GatesFit(gates + [g], t', nq, nc)
  {
    var gs := gates + [g];
    forall k | 0 <= k < |gs|
      ensures gs[k].hash in t' && GateFits(gs[k], nq, nc)
    {
      if k < |gates| {
        assert gs[k] == gates[k];
      }
    }
  }

  /** A larger table still holds every recorded operand. */
  lemma GatesGrowTable(gates: seq<GateStep>, t: map<Hash, Matrix>, t': map<Hash, Matrix>, nq: nat, nc: nat)
    requires GatesFit(gates, t, nq, nc) && t.Keys <= t'.Keys
    ensures GatesFit(gates, t', nq, nc)
  {
  }

  /** An appender's result: its first failed check, else a hash collision, else success. */
  function Verdict(check: Option<Error>, added: Option<map<Hash, Matrix>>): (r: Outcome)
    ensures r.Pass? <==> check.None? && added.Some?
    ensures check.Some? ==> r == Fail(check.value)
    ensures check.None? && added.None? ==> r == Fail(HashCollision)
  {
    if check.Some? then Fail(check.value)
    else if added.None? then Fail(HashCollision)
    else Pass
  }

  class QCircuit {
    const nq: Idx
    const nc: Idx
    const d: Idx
    const name: string
    const mops: MatrixOps

    var measured: seq<bool>                     // measured_
    var table: map<Hash, Matrix>                // cmat_hash_tbl_
    var count: map<string, nat>                 // count_
    var measurementCount: map<string, nat>      // measurement_count_
    var gates: seq<GateStep>                    // gates_
    var measurements: seq<MeasureStep>          // measurements_
    var stepTypes: seq<StepType>                // step_types_

    ghost predicate Valid()
      reads this
    {
      && nq > 0 && d >= 2
      && TagsAgree(stepTypes, |gates|, |measurements|)
      && ContentAddressed(mops, table)
      && GatesFit(gates, table, nq, nc)
      && MeasurementsFit(measurements, measured, nq, nc)
      && GateCounts(count, gates)
      && MeasureCounts(measurementCount, measurements)
    }

    /** The circuit as its checks see it. */
    function Layout(): Shape
      reads this
    {
      Shape(nq, nc, d, measured)
    }

    /** `QCircuit(nq, nc, d, name)` once its checks have passed: an empty circuit. */
    constructor (nq: Idx, nc: Idx, d: Idx, name: string, mops: MatrixOps)
      requires nq > 0 && d >= 2
      ensures Valid()
      ensures this.nq == nq && this.nc == nc && this.d == d && this.name == name && this.mops == mops
      ensures measured == seq(nq, _ => false)
      ensures table == map[] && count == map[] && measurementCount == map[]
      ensures gates == [] && measurements == [] && stepTypes == []
    {
      this.nq := nq;
      this.nc := nc;
      this.d := d;
      this.name := name;
      this.mops := mops;
      measured := seq(nq, _ => false);
      table := map[];
      count := map[];
      measurementCount := map[];
      gates := [];
      measurements := [];
      stepTypes := [];
      assert MeasurementsFit([], seq(nq, _ => false), nq, nc);
      assert GateCounts(map[], []);
      assert MeasureCounts(map[], []);
    }

    // ----- queries

    /** `get_step_count()`. */
    function StepCount(): (r: nat)
      reads this
      requires Valid()
      ensures r == |gates| + |measurements|
      ensures r == CountTag(stepTypes, StepGate) + CountTag(stepTypes, StepMeasure)
    {
      |stepTypes|
    }

    /** `get_measured(i)`: a qudit is measured exactly when a recorded measurement targets it. */
    function IsMeasured(i: nat): (r: Result<bool>)
      reads this
      requires Valid()
      ensures r.Ok? <==> i < nq
      ensures r.Err? ==> r.error == OutOfRange
      ensures r.Ok? ==> (r.value <==> Targeted(measurements, i))
    {
      if i >= nq then Err(OutOfRange) else Ok(measured[i])
    }

    /** `get_measured()`: the measured qudits in ascending order. */
    method GetMeasured() returns (r: seq<nat>)
      requires Valid()
      ensures r == Indices(measured, true)
      ensures forall q: nat :: q in r <==> q < nq && Targeted(measurements, q)
      ensures Increasing(r)
    {
      r := [];
      var i := 0;
      while i < nq
        invariant 0 <= i <= nq
        invariant r == Indices(measured[..i], true)
      {
        assert measured[..i + 1][..i] == measured[..i];
        if measured[i] {
          r := r + [i];
        }
        i := i + 1;
      }
      assert measured[..nq] == measured;
      IndicesSpec(measured, true);
    }

    /** `get_non_measured()`: the qudits not yet measured, in ascending order. */
    method GetNonMeasured() returns (r: seq<nat>)
      requires Valid()
      ensures r == Indices(measured, false)
      ensures forall q: nat :: q in r <==> q < nq && !Targeted(measurements, q)
      ensures Increasing(r)
    {
      r := [];
      var i := 0;
      while i < nq
        invariant 0 <= i <= nq
        invariant r == Indices(measured[..i], false)
      {
        assert measured[..i + 1][..i] == measured[..i];
        if !measured[i] {
          r := r + [i];
        }
        i := i + 1;
      }
      assert measured[..nq] == measured;
      IndicesSpec(measured, false);
    }

    /** `get_gate_count()`: the sum of all gate counters, which is the total weight of the gate steps. */
    method GetGateCount() returns (r: nat)
      requires Valid()
      ensures r == MapTotal(count)
      ensures r == TotalWeight(gates)
    {
      r := 0;
      var keys := count.Keys;
      while keys != {}
        invariant keys <= count.Keys
        invariant r + SumOver(count, keys) == MapTotal(count)
        decreases keys
      {
        var k :| k in keys;
        SumOverRemove(count, keys, k);
        r := r + count[k];
        keys := keys - {k};
      }
    }

    /** `get_gate_count(name)`: `count_.at(name)`, which throws for a name never used. */
    function GetGateCountOf(n: string): (r: Result<nat>)
      reads this
      requires Valid()
      ensures r.Ok? <==> exists k :: 0 <= k < |gates| && gates[k].name == n
      ensures r.Err? ==> r.error == OutOfRange
      ensures r.Ok? ==> r.value == NamedWeight(gates, n)
    {
      GateNamesSpec(gates, n);
      if n in count then Ok(count[n]) else Err(OutOfRange)
    }

    /** `get_measurement_count()`: the sum of all measurement counters. */
    method GetMeasurementCount() returns (r: nat)
      requires Valid()
      ensures r == MapTotal(measurementCount)
      ensures r == |measurements|
    {
      r := 0;
      var keys := measurementCount.Keys;
      while keys != {}
        invariant keys <= measurementCount.Keys
        invariant r + SumOver(measurementCount, keys) == MapTotal(measurementCount)
        decreases keys
      {
        var k :| k in keys;
        SumOverRemove(measurementCount, keys, k);
        r := r + measurementCount[k];
        keys := keys - {k};
      }
    }

    /** `get_measurement_count(name)`: `measurement_count_.at(name)`. */
    function GetMeasurementCountOf(n: string): (r: Result<nat>)
      reads this
      requires Valid()
      ensures r.Ok? <==> exists k :: 0 <= k < |measurements| && measurements[k].name == n
      ensures r.Err? ==> r.error == OutOfRange
      ensures r.Ok? ==> r.value == NamedMeasures(measurements, n)
    {
      MeasureNamesSpec(measurements, n);
      if n in measurementCount then Ok(measurementCount[n]) else Err(OutOfRange)
    }

    /** `get_gate_depth()`, a stub. */
    function GetGateDepth(): (r: Result<nat>)
      ensures r.Err? && r.error == NotImplemented
    {
      Err(NotImplemented)
    }

    /** `get_gate_depth(name)`, a stub. */
    function GetGateDepthOf(n: string): (r: Result<nat>)
      ensures r.Err? && r.error == NotImplemented
    {
      Err(NotImplemented)
    }

    // ----- mutations

    /** What a successful gate appender changes. */
    twostate predicate GateAppended(g: GateStep, U: Matrix)
      reads this
    {
      && gates == old(gates) + [g]
      && stepTypes == old(stepTypes) + [StepGate]
      && count == Bump(old(count), g.name, Weight(g))
      && Some(table) == AddHash(old(table), g.hash, U)
      && measured == old(measured)
      && measurements == old(measurements)
      && measurementCount == old(measurementCount)
    }

    /** What a successful measurement appender changes. */
    twostate predicate MeasurementAppended(ms: MeasureStep)
      reads this
    {
      && measured == MarkTargets(old(measured), ms.target)
      && measurements == old(measurements) + [ms]
      && stepTypes == old(stepTypes) + [StepMeasure]
      && measurementCount == Bump(old(measurementCount), ms.name, 1)
      && gates == old(gates)
      && count == old(count)
      && table == old(table)
    }

    /** `add_hash_(U, h)`. */
    method AddHashToTable(U: Matrix, h: Hash) returns (r: Outcome)
      modifies this`table
      ensures r == Verdict(None, AddHash(old(table), h, U))
      ensures r.Fail? ==> table == old(table)
      ensures r.Pass? ==> Some(table) == AddHash(old(table), h, U)
    {
      if h in table && table[h] != U {
        return Fail(HashCollision);
      }
      if h !in table {
        table := table[h := U];
      }
      r := Pass;
    }

    /** The common tail of the gate appenders: register U, record the step, count it. */
    method PushGate(g: GateStep, U: Matrix) returns (r: Outcome)
      requires Valid()
      requires g.hash == mops.hash(U) && GateFits(g, nq, nc)
      modifies this
      ensures Valid()
      ensures r == Verdict(None, AddHash(old(table), g.hash, U))
      ensures r.Fail? ==> unchanged(this)
      ensures r.Pass? ==> GateAppended(g, U)
    {
      r := AddHashToTable(U, g.hash);
      if r.Fail? {
        return;
      }
      AddHashContentAddressed(mops, old(table), U);
      GatesGrowTable(gates, old(table), table, nq, nc);
      RecordGate(g);
    }

    /** `gates_.emplace_back(...)`, `step_types_.push_back(GATE)` and the counter update. */
    method RecordGate(g: GateStep)
      requires Valid()
      requires g.hash in table && GateFits(g, nq, nc)
      modifies this`gates, this`stepTypes, this`count
      ensures Valid()
      ensures gates == old(gates) + [g]
      ensures stepTypes == old(stepTypes) + [StepGate]
      ensures count == Bump(old(count), g.name, Weight(g))
    {
      TagsAppend(stepTypes, |gates|, |measurements|, StepGate);
      GateCountsAppend(count, gates, g);
      GatesAppend(gates, table, table, nq, nc, g);
      gates := gates + [g];
      stepTypes := stepTypes + [StepGate];
      count := Bump(count, g.name, Weight(g));
    }

    /** The common tail of the measurement appenders: mark the targets, record the step, count it. */
    method PushMeasurement(ms: MeasureStep, flags: seq<bool>)
      requires Valid()
      requires MeasureShaped(ms, nq, nc)
      requires flags == MarkTargets(measured, ms.target)
      modifies this
      ensures Valid()
      ensures MeasurementAppended(ms)
    {
      TagsAppend(stepTypes, |gates|, |measurements|, StepMeasure);
      MeasureCountsAppend(measurementCount, measurements, ms);
      MeasurementsAppend(measurements, measured, nq, nc, ms);
      measured := flags;
      measurements := measurements + [ms];
      stepTypes := stepTypes + [StepMeasure];
      measurementCount := Bump(measurementCount, ms.name, 1);
    }

    /** `gate(U, i, name)`: a single-qudit gate. */
    method Gate(U: Matrix, i: nat, name: string) returns (r: Outcome)
      requires Valid()
      modifies this
      ensures Valid()
      ensures r == Verdict(old(CheckGate(Layout(), mops, U, i)), AddHash(old(table), mops.hash(U), U))
      ensures r.Fail? ==> unchanged(this)
      ensures r.Pass? ==> GateAppended(GateStep(Single, mops.hash(U), [], [i], GateName(mops, name, U)), U)
    {
      var e := CheckGate(Layout(), mops, U, i);
      if e.Some? {
        return Fail(e.value);
      }
      r := PushGate(GateStep(Single, mops.hash(U), [], [i], GateName(mops, name, U)), U);
    }

    /** `gate(U, i, j, name)`: a two-qudit gate. */
    method Gate2(U: Matrix, i: nat, j: nat, name: string) returns (r: Outcome)
      requires Valid()
      modifies this
      ensures Valid()
      ensures r == Verdict(old(CheckPair(Layout(), mops, U, i, j, IdxMul(d, d))), AddHash(old(table), mops.hash(U), U))
      ensures r.Fail? ==> unchanged(this)
      ensures r.Pass? ==> GateAppended(GateStep(Two, mops.hash(U), [], [i, j], GateName(mops, name, U)), U)
    {
      var e := CheckPair(Layout(), mops, U, i, j, IdxMul(d, d));
      if e.Some? {
        return Fail(e.value);
      }
      r := PushGate(GateStep(Two, mops.hash(U), [], [i, j], GateName(mops, name, U)), U);
    }

    /** `gate(U, i, j, k, name)`: a three-qudit gate. */
    method Gate3(U: Matrix, i: nat, j: nat, k: nat, name: string) returns (r: Outcome)
      requires Valid()
      modifies this
      ensures Valid()
      ensures r == Verdict(old(CheckGate3(Layout(), mops, U, i, j, k)), AddHash(old(table), mops.hash(U), U))
      ensures r.Fail? ==> unchanged(this)
      ensures r.Pass? ==> GateAppended(GateStep(Three, mops.hash(U), [], [i, j, k], GateName(mops, name, U)), U)
    {
      var e := CheckGate3(Layout(), mops, U, i, j, k);
      if e.Some? {
        return Fail(e.value);
      }
      r := PushGate(GateStep(Three, mops.hash(U), [], [i, j, k], GateName(mops, name, U)), U);
    }

    /** `gate_fan(U, target, name)`: U on each target; the counter grows by the number of targets. */
    method GateFan(U: Matrix, target: seq<nat>, name: string) returns (r: Outcome)
      requires Valid()
      modifies this
      ensures Valid()
      ensures r == Verdict(old(CheckTargets(Layout(), mops, U, target, d)), AddHash(old(table), mops.hash(U), U))
      ensures r.Fail? ==> unchanged(this)
      ensures r.Pass? ==> GateAppended(GateStep(Fan, mops.hash(U), [], target, GateName(mops, name, U)), U)
      ensures r.Pass? ==> TotalWeight(gates) == old(TotalWeight(gates)) + |target|
    {
      var e := CheckTargets(Layout(), mops, U, target, d);
      if e.Some? {
        return Fail(e.value);
      }
      r := PushGate(GateStep(Fan, mops.hash(U), [], target, GateName(mops, name, U)), U);
      if r.Pass? {
        assert gates[..|gates| - 1] == old(gates);
      }
    }

    /** `gate_fan(U, name)`: U on every qudit not measured yet. */
    method GateFanAll(U: Matrix, name: string) returns (r: Outcome)
      requires Valid()
      modifies this
      ensures Valid()
      ensures r == Verdict(ShapeError(mops, U, d), AddHash(old(table), mops.hash(U), U))
      ensures r.Fail? ==> unchanged(this)
      ensures r.Pass? ==>
        GateAppended(GateStep(Fan, mops.hash(U), [], Indices(old(measured), false), GateName(mops, name, U)), U)
      ensures r.Pass? ==> TotalWeight(gates) == old(TotalWeight(gates)) + |Indices(old(measured), false)|
    {
      var e := ShapeError(mops, U, d);
      if e.Some? {
        return Fail(e.value);
      }
      var live := GetNonMeasured();
      IndicesSpec(measured, false);
      r := PushGate(GateStep(Fan, mops.hash(U), [], live, GateName(mops, name, U)), U);
      if r.Pass? {
        assert gates[..|gates| - 1] == old(gates);
      }
    }

    /** `gate_custom(U, target, name)`: one gate on |target| qudits, of dimension d^|target|. */
    method GateCustom(U: Matrix, target: seq<nat>, name: string) returns (r: Outcome)
      requires Valid()
      modifies this
      ensures Valid()
      ensures r == Verdict(old(CheckTargets(Layout(), mops, U, target, Pow(d, |target|))),
                           AddHash(old(table), mops.hash(U), U))
      ensures r.Fail? ==> unchanged(this)
      ensures r.Pass? ==> GateAppended(GateStep(Custom, mops.hash(U), [], target, GateName(mops, name, U)), U)
    {
      var e := CheckTargets(Layout(), mops, U, target, Pow(d, |target|));
      if e.Some? {
        return Fail(e.value);
      }
      r := PushGate(GateStep(Custom, mops.hash(U), [], target, GateName(mops, name, U)), U);
    }

    /** `QFT(target)`: not implemented, always throws before recording anything. */
    method Qft(target: seq<nat>) returns (r: Outcome)
      ensures r == Fail(NotImplemented)
    {
      r := Fail(NotImplemented);
    }

    /** `TFQ(target)`: not implemented, always throws before recording anything. */
    method Tfq(target: seq<nat>) returns (r: Outcome)
      ensures r == Fail(NotImplemented)
    {
      r := Fail(NotImplemented);
    }

    /** `CTRL(U, ctrl, target, name)`: one control, one target. */
    method Ctrl(U: Matrix, ctrl: nat, target: nat, name: string) returns (r: Outcome)
      requires Valid()
      modifies this
      ensures Valid()
      ensures r == Verdict(old(CheckPair(Layout(), mops, U, ctrl, target, d)), AddHash(old(table), mops.hash(U), U))
      ensures r.Fail? ==> unchanged(this)
      ensures r.Pass? ==> GateAppended(
        GateStep(SingleCtrlSingleTarget, mops.hash(U), [ctrl], [target], CtrlName(mops, "CTRL", name, U)), U)
    {
      var e := CheckPair(Layout(), mops, U, ctrl, target, d);
      if e.Some? {
        return Fail(e.value);
      }
      r := PushGate(GateStep(SingleCtrlSingleTarget, mops.hash(U), [ctrl], [target], CtrlName(mops, "CTRL", name, U)), U);
    }

    /** `CTRL(U, ctrl, target, name)`: one control, several targets. */
    method CtrlTargets(U: Matrix, ctrl: nat, target: seq<nat>, name: string) returns (r: Outcome)
      requires Valid()
      modifies this
      ensures Valid()
      ensures r == Verdict(old(CheckCtrlTargets(Layout(), mops, U, ctrl, target)), AddHash(old(table), mops.hash(U), U))
      ensures r.Fail? ==> unchanged(this)
      ensures r.Pass? ==> GateAppended(
        GateStep(SingleCtrlMultipleTarget, mops.hash(U), [ctrl], target, CtrlName(mops, "CTRL", name, U)), U)
    {
      var e := CheckCtrlTargets(Layout(), mops, U, ctrl, target);
      if e.Some? {
        return Fail(e.value);
      }
      r := PushGate(GateStep(SingleCtrlMultipleTarget, mops.hash(U), [ctrl], target, CtrlName(mops, "CTRL", name, U)), U);
    }

    /** `CTRL(U, ctrl, target, name)`: several controls (possibly none), one target. */
    method CtrlsTarget(U: Matrix, ctrl: seq<nat>, target: nat, name: string) returns (r: Outcome)
      requires Valid()
      modifies this
      ensures Valid()
      ensures r == Verdict(old(CheckCtrlsTarget(Layout(), mops, U, ctrl, target)), AddHash(old(table), mops.hash(U), U))
      ensures r.Fail? ==> unchanged(this)
      ensures r.Pass? ==> GateAppended(
        GateStep(MultipleCtrlSingleTarget, mops.hash(U), ctrl, [target], CtrlName(mops, "CTRL", name, U)), U)
    {
      var e := CheckCtrlsTarget(Layout(), mops, U, ctrl, target);
      if e.Some? {
        return Fail(e.value);
      }
      r := PushGate(GateStep(MultipleCtrlSingleTarget, mops.hash(U), ctrl, [target], CtrlName(mops, "CTRL", name, U)), U);
    }

    /** `CTRL(U, ctrl, target, name)`: several controls, several targets. */
    method Ctrls(U: Matrix, ctrl: seq<nat>, target: seq<nat>, name: string) returns (r: Outcome)
      requires Valid()
      modifies this
      ensures Valid()
      ensures r == Verdict(old(CheckCtrls(Layout(), mops, U, ctrl, target)), AddHash(old(table), mops.hash(U), U))
      ensures r.Fail? ==> unchanged(this)
      ensures r.Pass? ==> GateAppended(
        GateStep(MultipleCtrlMultipleTarget, mops.hash(U), ctrl, target, CtrlName(mops, "CTRL", name, U)), U)
    {
      var e := CheckCtrls(Layout(), mops, U, ctrl, target);
      if e.Some? {
        return Fail(e.value);
      }
      r := PushGate(GateStep(MultipleCtrlMultipleTarget, mops.hash(U), ctrl, target, CtrlName(mops, "CTRL", name, U)), U);
    }

    /** `CTRL_custom(U, ctrl, target, name)`: a controlled d^|target|-dimensional gate. */
    method CtrlCustom(U: Matrix, ctrl: seq<nat>, target: seq<nat>, name: string) returns (r: Outcome)
      requires Valid()
      modifies this
      ensures Valid()
      ensures r == Verdict(old(CheckCtrlCustom(Layout(), mops, U, ctrl, target)), AddHash(old(table), mops.hash(U), U))
      ensures r.Fail? ==> unchanged(this)
      ensures r.Pass? ==> GateAppended(
        GateStep(CustomCtrl, mops.hash(U), ctrl, target, CtrlName(mops, "CTRL", name, U)), U)
    {
      var e := CheckCtrlCustom(Layout(), mops, U, ctrl, target);
      if e.Some? {
        return Fail(e.value);
      }
      r := PushGate(GateStep(CustomCtrl, mops.hash(U), ctrl, target, CtrlName(mops, "CTRL", name, U)), U);
    }

    /** `cCTRL(U, ctrl_dit, target, name)`: one control dit, one target. */
    method CCtrl(U: Matrix, ctrlDit: nat, target: nat, name: string) returns (r: Outcome)
      requires Valid()
      modifies this
      ensures Valid()
      ensures r == Verdict(old(CheckCCtrl(Layout(), mops, U, ctrlDit, target)), AddHash(old(table), mops.hash(U), U))
      ensures r.Fail? ==> unchanged(this)
      ensures r.Pass? ==> GateAppended(
        GateStep(SingleCCtrlSingleTarget, mops.hash(U), [ctrlDit], [target], CtrlName(mops, "cCTRL", name, U)), U)
    {
      var e := CheckCCtrl(Layout(), mops, U, ctrlDit, target);
      if e.Some? {
        return Fail(e.value);
      }
      r := PushGate(GateStep(SingleCCtrlSingleTarget, mops.hash(U), [ctrlDit], [target], CtrlName(mops, "cCTRL", name, U)), U);
    }

    /** `cCTRL(U, ctrl_dit, target, name)`: one control dit, several targets. */
    method CCtrlTargets(U: Matrix, ctrlDit: nat, target: seq<nat>, name: string) returns (r: Outcome)
      requires Valid()
      modifies this
      ensures Valid()
      ensures r == Verdict(old(CheckCCtrlTargets(Layout(), mops, U, ctrlDit, target)), AddHash(old(table), mops.hash(U), U))
      ensures r.Fail? ==> unchanged(this)
      ensures r.Pass? ==> GateAppended(
        GateStep(SingleCCtrlMultipleTarget, mops.hash(U), [ctrlDit], target, CtrlName(mops, "cCTRL", name, U)), U)
    {
      var e := CheckCCtrlTargets(Layout(), mops, U, ctrlDit, target);
      if e.Some? {
        return Fail(e.value);
      }
      r := PushGate(GateStep(SingleCCtrlMultipleTarget, mops.hash(U), [ctrlDit], target, CtrlName(mops, "cCTRL", name, U)), U);
    }

    /** `cCTRL(U, ctrl_dits, target, name)`: several control dits (possibly none), one target. */
    method CCtrlsTarget(U: Matrix, ctrlDits: seq<nat>, target: nat, name: string) returns (r: Outcome)
      requires Valid()
      modifies this
      ensures Valid()
      ensures r == Verdict(old(CheckCCtrlsTarget(Layout(), mops, U, ctrlDits, target)), AddHash(old(table), mops.hash(U), U))
      ensures r.Fail? ==> unchanged(this)
      ensures r.Pass? ==> GateAppended(
        GateStep(MultipleCCtrlSingleTarget, mops.hash(U), ctrlDits, [target], CtrlName(mops, "cCTRL", name, U)), U)
    {
      var e := CheckCCtrlsTarget(Layout(), mops, U, ctrlDits, target);
      if e.Some? {
        return Fail(e.value);
      }
      r := PushGate(GateStep(MultipleCCtrlSingleTarget, mops.hash(U), ctrlDits, [target], CtrlName(mops, "cCTRL", name, U)), U);
    }

    /** `cCTRL(U, ctrl_dits, target, name)`: several control dits, several targets. */
    method CCtrls(U: Matrix, ctrlDits: seq<nat>, target: seq<nat>, name: string) returns (r: Outcome)
      requires Valid()
      modifies this
      ensures Valid()
      ensures r == Verdict(old(CheckCCtrls(Layout(), mops, U, ctrlDits, target, d)), AddHash(old(table), mops.hash(U), U))
      ensures r.Fail? ==> unchanged(this)
      ensures r.Pass? ==> GateAppended(
        GateStep(MultipleCCtrlMultipleTarget, mops.hash(U), ctrlDits, target, CtrlName(mops, "cCTRL", name, U)), U)
    {
      var e := CheckCCtrls(Layout(), mops, U, ctrlDits, target, d);
      if e.Some? {
        return Fail(e.value);
      }
      r := PushGate(GateStep(MultipleCCtrlMultipleTarget, mops.hash(U), ctrlDits, target, CtrlName(mops, "cCTRL", name, U)), U);
    }

    /** `cCTRL_custom(U, ctrl_dits, target, name)`: a classically controlled d^|target|-dimensional gate. */
    method CCtrlCustom(U: Matrix, ctrlDits: seq<nat>, target: seq<nat>, name: string) returns (r: Outcome)
      requires Valid()
      modifies this
      ensures Valid()
      ensures r == Verdict(old(CheckCCtrls(Layout(), mops, U, ctrlDits, target, Pow(d, |target|))),
                           AddHash(old(table), mops.hash(U), U))
      ensures r.Fail? ==> unchanged(this)
      ensures r.Pass? ==> GateAppended(
        GateStep(CustomCCtrl, mops.hash(U), ctrlDits, target, CtrlName(mops, "cCTRL", name, U)), U)
    {
      var e := CheckCCtrls(Layout(), mops, U, ctrlDits, target, Pow(d, |target|));
      if e.Some? {
        return Fail(e.value);
      }
      r := PushGate(GateStep(CustomCCtrl, mops.hash(U), ctrlDits, target, CtrlName(mops, "cCTRL", name, U)), U);
    }

    /** `measureZ(target, c_reg, name)`: measure one qudit in the computational basis. */
    method MeasureZ(target: nat, creg: nat, name: string) returns (r: Outcome)
      requires Valid()
      modifies this
      ensures Valid()
      ensures r == Verdict(old(CheckMeasure(Layout(), target, creg)), Some(old(table)))
      ensures r.Fail? ==> unchanged(this)
      ensures r.Pass? ==> MeasurementAppended(MeasureStep(ZBasis, [], [target], creg, if name == "" then "Z" else name))
      ensures r.Pass? ==> measured == old(measured)[target := true]
    {
      var e := CheckMeasure(Layout(), target, creg);
      if e.Some? {
        return Fail(e.value);
      }
      var nm := if name == "" then "Z" else name;
      var flags := measured[target := true];
      PushMeasurement(MeasureStep(ZBasis, [], [target], creg, nm), flags);
      r := Pass;
    }

    /**
     * `measureV(V, target, c_reg, name)`: measure one qudit in the basis V.
     * V's hash is recorded but V is not added to the operand table.
     */
    method MeasureV(V: Matrix, target: nat, creg: nat, name: string) returns (r: Outcome)
      requires Valid()
      modifies this
      ensures Valid()
      ensures r == Verdict(old(CheckMeasure(Layout(), target, creg)), Some(old(table)))
      ensures r.Fail? ==> unchanged(this)
      ensures r.Pass? ==> MeasurementAppended(MeasureStep(VBasis, [mops.hash(V)], [target], creg, GateName(mops, name, V)))
      ensures r.Pass? ==> measured == old(measured)[target := true]
    {
      var e := CheckMeasure(Layout(), target, creg);
      if e.Some? {
        return Fail(e.value);
      }
      var flags := measured[target := true];
      PushMeasurement(MeasureStep(VBasis, [mops.hash(V)], [target], creg, GateName(mops, name, V)), flags);
      r := Pass;
    }

    /** `measureV(V, target, c_reg, name)`: measure several qudits jointly in the basis V. */
    method MeasureVMany(V: Matrix, target: seq<nat>, creg: nat, name: string) returns (r: Outcome)
      requires Valid()
      modifies this
      ensures Valid()
      ensures r == Verdict(old(CheckMeasureMany(Layout(), target, creg)), Some(old(table)))
      ensures r.Fail? ==> unchanged(this)
      ensures r.Pass? ==> MeasurementAppended(MeasureStep(VBasisMany, [mops.hash(V)], target, creg, GateName(mops, name, V)))
    {
      var e := CheckMeasureMany(Layout(), target, creg);
      if e.Some? {
        return Fail(e.value);
      }
      var flags := measured;
      var k := 0;
      while k < |target|
        invariant 0 <= k <= |target|
        invariant flags == MarkTargets(measured, target[..k])
      {
        assert target[..k + 1] == target[..k] + [target[k]];
        flags := flags[target[k] := true];
        k := k + 1;
      }
      assert target[..k] == target;
      PushMeasurement(MeasureStep(VBasisMany, [mops.hash(V)], target, creg, GateName(mops, name, V)), flags);
      r := Pass;
    }
  }

  /** `QCircuit(nq, nc, d, name)`: throws ZeroSize for nq == 0, then OutOfRange for d < 2. */
  method NewCircuit(nq: Idx, nc: Idx, d: Idx, name: string, mops: MatrixOps) returns (r: Result<QCircuit>)
    ensures r.Err? <==> nq == 0 || d < 2
    ensures nq == 0 ==> r == Err(ZeroSize)
    ensures nq > 0 && d < 2 ==> r == Err(OutOfRange)
    ensures r.Ok? ==> fresh(r.value) && r.value.Valid()
    ensures r.Ok? ==> r.value.nq == nq && r.value.nc == nc && r.value.d == d && r.value.name == name
    ensures r.Ok? ==> r.value.gates == [] && r.value.measurements == [] && r.value.stepTypes == []
    ensures r.Ok? ==> r.value.measured == seq(nq, _ => false)
  {
    if nq == 0 {
      return Err(ZeroSize);
    }
    if d < 2 {
      return Err(OutOfRange);
    }
    var qc := new QCircuit(nq, nc, d, name, mops);
    r := Ok(qc);
  }
}
