/**
 * `QNoisyEngine`: a `QEngine` that, before every step, applies the noise
 * channel once to each qudit still in the state and records which branch
 * (Kraus operator) occurred.
 */
module Noisy {
  import opened Basics
  import opened Kernels
  import opened Relabel
  import opened Circuit
  import opened Iterators
  import opened Semantics
  import opened Engine

  /** The noise loop: the channel on each position in list order, and the branch indices it reports. */
  function NoiseRun(noise: NoiseOps, psi: State, pos: seq<nat>): (r: (State, seq<nat>))
    ensures |r.1| == |pos|
  {
    if pos == [] then (psi, [])
    else
      var (p, branches) := NoiseRun(noise, psi, pos[..|pos| - 1]);
      var (p', b) := noise.channel(p, pos[|pos| - 1]);
      (p', branches + [b])
  }

  /** The branch recorded for the k-th position is the one reported by the channel on that position. */
  lemma {:induction false} NoiseRunBranch(noise: NoiseOps, psi: State, pos: seq<nat>, k: nat)
    requires k < |pos|
    ensures NoiseRun(noise, psi, pos).1[k] == noise.channel(NoiseRun(noise, psi, pos[..k]).0, pos[k]).1
  {
    var n := |pos| - 1;
    if k < n {
      assert pos[..n][..k] == pos[..k];
      NoiseRunBranch(noise, psi, pos[..n], k);
    } else {
      assert pos[..k] == pos[..n];
    }
  }

  class QNoisyEngine {
    const base: QEngine                  // the QEngine part
    const noise: NoiseOps                // noise_
    var noiseResults: seq<seq<nat>>      // noise_results_

    /** The engine is well formed and the noise acts on qudits of the circuit's dimension. */
    ghost predicate Valid()
      reads this, base, base.qc, base.subsys
    {
      base.Valid() && noise.d == base.qc.d
    }

    /** `QNoisyEngine(qc, noise)` once its dimension check has passed: one empty record per step. */
    constructor (qc: QCircuit, ops: StateOps, noise: NoiseOps)
      requires qc.Valid() && qc.d == noise.d
      ensures Valid() && fresh(base) && fresh(base.subsys)
      ensures base.qc == qc && base.ops == ops && this.noise == noise
      ensures base.psi == ops.zero(qc.nq, qc.d)
      ensures base.dits == seq(qc.nc, _ => 0) && base.probs == seq(qc.nc, _ => 0.0)
      ensures base.subsys[..] == Identity(qc.nq)
      ensures noiseResults == seq(qc.StepCount(), _ => [])
    {
      base := new QEngine(qc, ops);
      this.noise := noise;
      noiseResults := seq(qc.StepCount(), _ => []);
    }

    /**
     * The noise applied before one step: the machine with the noisy state,
     * and the branch indices in ascending qudit order, one per live qudit.
     */
    ghost function Noised(m: Machine): (r: (Machine, seq<nat>))
      ensures |r.1| == CountLive(m.subsys)
      ensures r.0 == m.(psi := NoiseRun(noise, m.psi, Iota(CountLive(m.subsys))).0)
    {
      var run := NoiseRun(noise, m.psi, Iota(CountLive(m.subsys)));
      (m.(psi := run.0), run.1)
    }

    /**
     * `execute(elem)`: noise on every live qudit, its branches appended to
     * `noise_results_[ip]`, then the ordinary step, whose refusal of a step
     * of another circuit comes only after the noise.
     */
    method Execute(view: StepView) returns (r: Outcome)
      requires Valid() && view.cursor.ip < |noiseResults|
      requires view.qc == base.qc ==> base.Executable(view.cursor)
      modifies this`noiseResults, base`psi, base`dits, base`probs, base.subsys
      ensures Valid() && |noiseResults| == old(|noiseResults|)
      ensures var (m, branches) := Noised(old(base.MachineOf()));
        && noiseResults == old(noiseResults)[view.cursor.ip := old(noiseResults[view.cursor.ip]) + branches]
        && (r, base.MachineOf()) == base.StepResult(view, m)
    {
      var live := base.GetNonMeasured();
      var rel := base.GetRelativePos(live);
      LivePositions(base.subsys[..]);
      ApplyNoise(rel.value, view.cursor.ip);
      r := base.Execute(view);
    }

    /** The noise loop: the channel on each listed position, each branch appended to `noise_results_[ip]`. */
    method ApplyNoise(pos: seq<nat>, ip: nat)
      requires ip < |noiseResults|
      modifies this`noiseResults, base`psi
      ensures base.psi == NoiseRun(noise, old(base.psi), pos).0
      ensures noiseResults == old(noiseResults)[ip := old(noiseResults[ip]) + NoiseRun(noise, old(base.psi), pos).1]
    {
      ghost var psi0 := base.psi;
      ghost var nr0 := noiseResults;
      var k := 0;
      assert pos[..0] == [] && nr0[ip] + [] == nr0[ip];
      assert nr0[ip := nr0[ip]] == nr0;
      while k < |pos|
        invariant 0 <= k <= |pos|
        invariant base.psi == NoiseRun(noise, psi0, pos[..k]).0
        invariant noiseResults == nr0[ip := nr0[ip] + NoiseRun(noise, psi0, pos[..k]).1]
      {
        assert pos[..k + 1][..k] == pos[..k];
        ghost var before := NoiseRun(noise, psi0, pos[..k]).1;
        var (p, b) := noise.channel(base.psi, pos[k]);
        assert NoiseRun(noise, psi0, pos[..k + 1]).1 == before + [b];
        assert nr0[ip] + (before + [b]) == (nr0[ip] + before) + [b];
        base.psi := p;
        noiseResults := noiseResults[ip := noiseResults[ip] + [b]];
        assert noiseResults == nr0[ip := nr0[ip] + (before + [b])];
        k := k + 1;
      }
      assert pos[..|pos|] == pos;
    }

    /** `execute(it)`: `execute(*it)`, so a detached iterator or one at the end is refused before any noise. */
    method ExecuteAt(it: StepIterator) returns (r: Outcome)
      requires Valid() && it.Valid()
      requires it.qc == base.qc ==> base.Executable(it.elem)
      requires it.qc != null ==> it.elem.ip == |it.qc.stepTypes| || it.elem.ip < |noiseResults|
      modifies this`noiseResults, base`psi, base`dits, base`probs, base.subsys
      ensures Valid()
      ensures it.qc == null || Cursors.Deref(it.qc.stepTypes, it.elem).Err? ==>
        r == Fail(InvalidIterator) && base.MachineOf() == old(base.MachineOf()) && noiseResults == old(noiseResults)
      ensures it.qc != null && Cursors.Deref(it.qc.stepTypes, it.elem).Ok? ==>
        var (m, branches) := Noised(old(base.MachineOf()));
        && noiseResults == old(noiseResults)[it.elem.ip := old(noiseResults[it.elem.ip]) + branches]
        && (r, base.MachineOf()) == base.StepResult(StepView(it.qc, it.elem), m)
    {
      var v := it.Deref();
      if v.Err? {
        return Fail(v.error);
      }
      r := Execute(v.value);
    }
  }

  /** The `QNoisyEngine` constructor: refused when the noise dimension differs from the circuit's. */
  method NewNoisyEngine(qc: QCircuit, ops: StateOps, noise: NoiseOps) returns (r: Result<QNoisyEngine>)
    requires qc.Valid()
    ensures r.Err? <==> qc.d != noise.d
    ensures r.Err? ==> r.error == DimsNotEqual
    ensures r.Ok? ==> fresh(r.value) && r.value.Valid() && r.value.base.qc == qc && r.value.noise == noise
    ensures r.Ok? ==> r.value.noiseResults == seq(qc.StepCount(), _ => [])
  {
    if qc.d != noise.d {
      return Err(DimsNotEqual);
    }
    var e := new QNoisyEngine(qc, ops, noise);
    r := Ok(e);
  }
}
