/**
 * The instruction records of a circuit: the kinds of gate and measurement
 * steps, the step tags that interleave them, and counts over them.
 */
module Steps {
  import opened Kernels

  /** `QCircuit::GateType`. */
  datatype GateType =
    | NoGate
    | Single | Two | Three | Custom | Fan | Qft | Tfq
    | SingleCtrlSingleTarget | SingleCtrlMultipleTarget
    | MultipleCtrlSingleTarget | MultipleCtrlMultipleTarget | CustomCtrl
    | SingleCCtrlSingleTarget | SingleCCtrlMultipleTarget
    | MultipleCCtrlSingleTarget | MultipleCCtrlMultipleTarget | CustomCCtrl
  {
    /** Kinds the engine hands to applyCTRL: their ctrl list holds qudits. */
    predicate QuantumCtrl()
    {
      this.Qft? || this.Tfq? || this.SingleCtrlSingleTarget? || this.SingleCtrlMultipleTarget?
      || this.MultipleCtrlSingleTarget? || this.MultipleCtrlMultipleTarget? || this.CustomCtrl?
    }

    /** Classically controlled kinds: their ctrl list holds classical dits. */
    predicate ClassicalCtrl()
    {
      this.SingleCCtrlSingleTarget? || this.SingleCCtrlMultipleTarget?
      || this.MultipleCCtrlSingleTarget? || this.MultipleCCtrlMultipleTarget? || this.CustomCCtrl?
    }
  }

  /** `QCircuit::MeasureType`. */
  datatype MeasureType = NoMeasure | ZBasis | VBasis | VBasisMany

  /** `QCircuit::StepType`. */
  datatype StepType = StepNone | StepGate | StepMeasure

  /** `QCircuit::GateStep`. */
  datatype GateStep = GateStep(kind: GateType, hash: Hash, ctrl: seq<nat>, target: seq<nat>, name: string)

  /** `QCircuit::MeasureStep`. */
  datatype MeasureStep = MeasureStep(kind: MeasureType, hashes: seq<Hash>, target: seq<nat>, creg: nat, name: string)

  /** How much one gate step adds to its name's counter: its width for a fan, 1 otherwise. */
  function Weight(g: GateStep): nat
  {
    if g.kind == Fan then |g.target| else 1
  }

  /** Sum of the weights of a list of gate steps. */
  function TotalWeight(gs: seq<GateStep>): nat
  {
    if gs == [] then 0 else TotalWeight(gs[..|gs| - 1]) + Weight(gs[|gs| - 1])
  }

  /** Number of tags t in s. */
  function CountTag(s: seq<StepType>, t: StepType): (r: nat)
    ensures r <= |s|
  {
    if s == [] then 0 else CountTag(s[..|s| - 1], t) + (if s[|s| - 1] == t then 1 else 0)
  }

  /** Counting one more tag of a prefix. */
  lemma CountTagNext(s: seq<StepType>, k: nat, t: StepType)
    requires k < |s|
    ensures CountTag(s[..k + 1], t) == CountTag(s[..k], t) + (if s[k] == t then 1 else 0)
  {
    assert s[..k + 1][..k] == s[..k];
  }

  /** A prefix holds no more tags t than the whole sequence. */
  lemma {:induction false} CountTagPrefix(s: seq<StepType>, k: nat, t: StepType)
    requires k <= |s|
    ensures CountTag(s[..k], t) <= CountTag(s, t)
    decreases |s| - k
  {
    if k < |s| {
      CountTagNext(s, k, t);
      CountTagPrefix(s, k + 1, t);
    } else {
      assert s[..k] == s;
    }
  }

  /** A tag t at position k is preceded by fewer tags t than the sequence holds in all. */
  lemma CountTagBelow(s: seq<StepType>, k: nat, t: StepType)
    requires k < |s| && s[k] == t
    ensures CountTag(s[..k], t) < CountTag(s, t)
  {
    CountTagNext(s, k, t);
    CountTagPrefix(s, k + 1, t);
  }

  /** Every tag of s is one of the three kinds. */
  lemma {:induction false} CountTagTotal(s: seq<StepType>)
    ensures CountTag(s, StepNone) + CountTag(s, StepGate) + CountTag(s, StepMeasure) == |s|
  {
    if s != [] {
      CountTagTotal(s[..|s| - 1]);
    }
  }

  /** The names that label some gate step. */
  function GateNames(gs: seq<GateStep>): set<string>
  {
    if gs == [] then {} else GateNames(gs[..|gs| - 1]) + {gs[|gs| - 1].name}
  }

  /** What the gate steps named n contribute to the counters. */
  function NamedWeight(gs: seq<GateStep>, n: string): nat
  {
    if gs == [] then 0
    else NamedWeight(gs[..|gs| - 1], n) + (if gs[|gs| - 1].name == n then Weight(gs[|gs| - 1]) else 0)
  }

  /** The names that label some measurement step. */
  function MeasureNames(ms: seq<MeasureStep>): set<string>
  {
    if ms == [] then {} else MeasureNames(ms[..|ms| - 1]) + {ms[|ms| - 1].name}
  }

  /** Number of measurement steps named n. */
  function NamedMeasures(ms: seq<MeasureStep>, n: string): nat
  {
    if ms == [] then 0
    else NamedMeasures(ms[..|ms| - 1], n) + (if ms[|ms| - 1].name == n then 1 else 0)
  }

  /** Some measurement step of ms measures qudit q. */
  predicate Targeted(ms: seq<MeasureStep>, q: nat)
  {
    exists k :: 0 <= k < |ms| && q in ms[k].target
  }

  /** A name is a gate name exactly when some gate step carries it. */
  lemma {:induction false} GateNamesSpec(gs: seq<GateStep>, n: string)
    ensures n in GateNames(gs) <==> exists k :: 0 <= k < |gs| && gs[k].name == n
  {
    if gs != [] {
      var p := gs[..|gs| - 1];
      GateNamesSpec(p, n);
      if n in GateNames(p) {
        var k :| 0 <= k < |p| && p[k].name == n;
        assert gs[k].name == n;
      }
      if exists k :: 0 <= k < |gs| && gs[k].name == n {
        var k :| 0 <= k < |gs| && gs[k].name == n;
        if k < |p| {
          assert p[k].name == n;
        }
      }
    }
  }

  /** A name no gate step carries has contributed nothing. */
  lemma {:induction false} NamedWeightAbsent(gs: seq<GateStep>, n: string)
    requires n !in GateNames(gs)
    ensures NamedWeight(gs, n) == 0
  {
    if gs != [] {
      NamedWeightAbsent(gs[..|gs| - 1], n);
    }
  }

  /** A name is a measurement name exactly when some measurement step carries it. */
  lemma {:induction false} MeasureNamesSpec(ms: seq<MeasureStep>, n: string)
    ensures n in MeasureNames(ms) <==> exists k :: 0 <= k < |ms| && ms[k].name == n
  {
    if ms != [] {
      var p := ms[..|ms| - 1];
      MeasureNamesSpec(p, n);
      if n in MeasureNames(p) {
        var k :| 0 <= k < |p| && p[k].name == n;
        assert ms[k].name == n;
      }
      if exists k :: 0 <= k < |ms| && ms[k].name == n {
        var k :| 0 <= k < |ms| && ms[k].name == n;
        if k < |p| {
          assert p[k].name == n;
        }
      }
    }
  }

  /** A name no measurement step carries counts no measurements. */
  lemma {:induction false} NamedMeasuresAbsent(ms: seq<MeasureStep>, n: string)
    requires n !in MeasureNames(ms)
    ensures NamedMeasures(ms, n) == 0
  {
    if ms != [] {
      NamedMeasuresAbsent(ms[..|ms| - 1], n);
    }
  }

  /** Appending a measurement step adds exactly its targets to the measured qudits. */
  lemma TargetedAppend(ms: seq<MeasureStep>, x: MeasureStep, q: nat)
    ensures Targeted(ms + [x], q) <==> Targeted(ms, q) || q in x.target
  {
    var ms' := ms + [x];
    if Targeted(ms, q) {
      var k :| 0 <= k < |ms| && q in ms[k].target;
      assert ms'[k] == ms[k];
    }
    if q in x.target {
      assert ms'[|ms|] == x;
    }
    if Targeted(ms', q) {
      var k :| 0 <= k < |ms'| && q in ms'[k].target;
      if k < |ms| {
        assert ms'[k] == ms[k];
      }
    }
  }

  /** Appending one tag. */
  lemma CountTagAppend(s: seq<StepType>, t: StepType, x: StepType)
    ensures CountTag(s + [t], x) == CountTag(s, x) + (if t == x then 1 else 0)
  {
    assert (s + [t])[..|s|] == s;
  }

  /** Appending one gate step. */
  lemma GateAppend(gs: seq<GateStep>, g: GateStep, n: string)
    ensures TotalWeight(gs + [g]) == TotalWeight(gs) + Weight(g)
    ensures GateNames(gs + [g]) == GateNames(gs) + {g.name}
    ensures NamedWeight(gs + [g], n) == NamedWeight(gs, n) + (if g.name == n then Weight(g) else 0)
  {
    assert (gs + [g])[..|gs|] == gs;
  }

  /** Appending one measurement step. */
  lemma MeasureAppend(ms: seq<MeasureStep>, x: MeasureStep, n: string)
    ensures MeasureNames(ms + [x]) == MeasureNames(ms) + {x.name}
    ensures NamedMeasures(ms + [x], n) == NamedMeasures(ms, n) + (if x.name == n then 1 else 0)
  {
    assert (ms + [x])[..|ms|] == ms;
  }
}
