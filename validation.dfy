/**
 * The EXCEPTION CHECKS blocks of the QCircuit appenders. Each check returns
 * the exception the appender throws, tried in the appender's own order, or
 * None when the step is accepted. The appenders evaluate them before they
 * change anything.
 */
module Validation {
  import opened Basics
  import opened Kernels

  /** What the checks read of a circuit: its sizes and the build-time measured markers. */
  datatype Shape = Shape(nq: nat, nc: nat, d: nat, measured: seq<bool>)
  {
    predicate Wf()
    {
      |measured| == nq
    }

    /** A qudit that exists and is not measured yet. */
    predicate Usable(q: nat)
      requires Wf()
    {
      q < nq && !measured[q]
    }

    predicate AllUsable(qs: seq<nat>)
      requires Wf()
    {
      forall k :: 0 <= k < |qs| ==> Usable(qs[k])
    }

    /** The exception a rejected qudit raises: range first, then measured. */
    function Fault(q: nat): Error
    {
      if q >= nq then OutOfRange else QuditAlreadyMeasured
    }
  }

  /** Position of the first qudit of qs that a range-for scan rejects, or |qs|. */
  function FirstBadIndex(s: Shape, qs: seq<nat>): (i: nat)
    requires s.Wf()
    ensures i <= |qs|
    ensures forall k :: 0 <= k < i ==> s.Usable(qs[k])
    ensures i < |qs| ==> !s.Usable(qs[i])
  {
    if qs == [] || !s.Usable(qs[0]) then 0 else 1 + FirstBadIndex(s, qs[1..])
  }

  /**
   * The range-for scan over a qudit list: the first qudit that is out of
   * range or already measured decides the exception, checked in that order.
   */
  function FirstBadQudit(s: Shape, qs: seq<nat>): (e: Option<Error>)
    requires s.Wf()
    ensures e.None? <==> s.AllUsable(qs)
    ensures e.Some? ==> exists k :: 0 <= k < |qs| && !s.Usable(qs[k]) && e.value == s.Fault(qs[k])
  {
    var i := FirstBadIndex(s, qs);
    if i == |qs| then None else Some(s.Fault(qs[i]))
  }

  /** `check_square_mat(U)`, then `U.rows() == D`. */
  function ShapeError(m: MatrixOps, U: Matrix, D: nat): (e: Option<Error>)
    ensures e.None? <==> Shaped(m, U, D)
    ensures e == Some(MatrixNotSquare) <==> m.rows(U) != m.cols(U)
  {
    if m.rows(U) != m.cols(U) then Some(MatrixNotSquare)
    else if m.rows(U) != D then Some(DimsMismatchMatrix)
    else None
  }

  /** A list of qudits: the scan, then no duplicates (the ctrl lists of CTRL). */
  function CheckQuditList(s: Shape, qs: seq<nat>): (e: Option<Error>)
    requires s.Wf()
    ensures e.None? <==> s.AllUsable(qs) && NoDuplicates(qs)
  {
    if FirstBadQudit(s, qs).Some? then FirstBadQudit(s, qs)
    else if !NoDuplicates(qs) then Some(Duplicates)
    else None
  }

  /** A target list: non-empty, then the scan, then no duplicates. */
  function CheckTargetList(s: Shape, ts: seq<nat>): (e: Option<Error>)
    requires s.Wf()
    ensures e.None? <==> |ts| > 0 && s.AllUsable(ts) && NoDuplicates(ts)
    ensures |ts| == 0 ==> e == Some(ZeroSize)
  {
    if |ts| == 0 then Some(ZeroSize) else CheckQuditList(s, ts)
  }

  /** A list of classical dits: each below nc, then no duplicates. */
  function CheckDitList(nc: nat, ds: seq<nat>): (e: Option<Error>)
    ensures e.None? <==> (forall k :: 0 <= k < |ds| ==> ds[k] < nc) && NoDuplicates(ds)
    ensures (exists k :: 0 <= k < |ds| && ds[k] >= nc) ==> e == Some(OutOfRange)
  {
    if exists k :: 0 <= k < |ds| && ds[k] >= nc then Some(OutOfRange)
    else if !NoDuplicates(ds) then Some(Duplicates)
    else None
  }

  /** `gate(U, i)`. */
  function CheckGate(s: Shape, m: MatrixOps, U: Matrix, i: nat): (e: Option<Error>)
    requires s.Wf()
    ensures e.None? <==> s.Usable(i) && Shaped(m, U, s.d)
    ensures i >= s.nq ==> e == Some(OutOfRange)
  {
    if i >= s.nq then Some(OutOfRange)
    else if s.measured[i] then Some(QuditAlreadyMeasured)
    else ShapeError(m, U, s.d)
  }

  /** `gate(U, i, j)` with D the 64-bit product d * d, and `CTRL(U, ctrl, target)` with D = d. */
  function CheckPair(s: Shape, m: MatrixOps, U: Matrix, i: nat, j: nat, D: nat): (e: Option<Error>)
    requires s.Wf()
    ensures e.None? <==> s.Usable(i) && s.Usable(j) && i != j && Shaped(m, U, D)
    ensures i == j ==> e == Some(OutOfRange)
  {
    if i >= s.nq || j >= s.nq || i == j then Some(OutOfRange)
    else if s.measured[i] || s.measured[j] then Some(QuditAlreadyMeasured)
    else ShapeError(m, U, D)
  }

  /** `gate(U, i, j, k)`: the size check is against the 64-bit product d * d * d. */
  function CheckGate3(s: Shape, m: MatrixOps, U: Matrix, i: nat, j: nat, k: nat): (e: Option<Error>)
    requires s.Wf()
    ensures e.None? <==>
      s.Usable(i) && s.Usable(j) && s.Usable(k) && i != j && i != k && j != k && Shaped(m, U, IdxMul(IdxMul(s.d, s.d), s.d))
    ensures i == j || i == k || j == k ==> e == Some(OutOfRange)
  {
    if i >= s.nq || j >= s.nq || k >= s.nq || i == j || i == k || j == k then Some(OutOfRange)
    else if s.measured[i] || s.measured[j] || s.measured[k] then Some(QuditAlreadyMeasured)
    else ShapeError(m, U, IdxMul(IdxMul(s.d, s.d), s.d))
  }

  /** `gate_fan(U, target)` with D = d, and `gate_custom(U, target)` with D = d^|target|. */
  function CheckTargets(s: Shape, m: MatrixOps, U: Matrix, ts: seq<nat>, D: nat): (e: Option<Error>)
    requires s.Wf()
    ensures e.None? <==> |ts| > 0 && s.AllUsable(ts) && NoDuplicates(ts) && Shaped(m, U, D)
    ensures |ts| == 0 ==> e == Some(ZeroSize)
  {
    if CheckTargetList(s, ts).Some? then CheckTargetList(s, ts) else ShapeError(m, U, D)
  }

  /** `CTRL(U, ctrl, target)` with one control and a list of targets. */
  function CheckCtrlTargets(s: Shape, m: MatrixOps, U: Matrix, c: nat, ts: seq<nat>): (e: Option<Error>)
    requires s.Wf()
    ensures e.None? <==>
      s.Usable(c) && |ts| > 0 && s.AllUsable(ts) && NoDuplicates(ts) && c !in ts && Shaped(m, U, s.d)
  {
    if c >= s.nq then Some(OutOfRange)
    else if s.measured[c] then Some(QuditAlreadyMeasured)
    else if CheckTargetList(s, ts).Some? then CheckTargetList(s, ts)
    else if c in ts then Some(OutOfRange)
    else ShapeError(m, U, s.d)
  }

  /** `CTRL(U, ctrl, target)` with a list of controls (possibly empty) and one target. */
  function CheckCtrlsTarget(s: Shape, m: MatrixOps, U: Matrix, cs: seq<nat>, t: nat): (e: Option<Error>)
    requires s.Wf()
    ensures e.None? <==>
      s.AllUsable(cs) && NoDuplicates(cs) && s.Usable(t) && t !in cs && Shaped(m, U, s.d)
  {
    if CheckQuditList(s, cs).Some? then CheckQuditList(s, cs)
    else if t >= s.nq then Some(OutOfRange)
    else if s.measured[t] then Some(QuditAlreadyMeasured)
    else if t in cs then Some(OutOfRange)
    else ShapeError(m, U, s.d)
  }

  /** `CTRL(U, ctrl, target)` with lists of controls and targets. */
  function CheckCtrls(s: Shape, m: MatrixOps, U: Matrix, cs: seq<nat>, ts: seq<nat>): (e: Option<Error>)
    requires s.Wf()
    ensures e.None? <==>
      s.AllUsable(cs) && NoDuplicates(cs) && |ts| > 0 && s.AllUsable(ts) && NoDuplicates(ts)
      && Disjoint(cs, ts) && Shaped(m, U, s.d)
  {
    if CheckQuditList(s, cs).Some? then CheckQuditList(s, cs)
    else if CheckTargetList(s, ts).Some? then CheckTargetList(s, ts)
    else if !Disjoint(cs, ts) then Some(OutOfRange)
    else ShapeError(m, U, s.d)
  }

  /** `CTRL_custom(U, ctrl, target)`: its targets are not checked for duplicates. */
  function CheckCtrlCustom(s: Shape, m: MatrixOps, U: Matrix, cs: seq<nat>, ts: seq<nat>): (e: Option<Error>)
    requires s.Wf()
    ensures e.None? <==>
      s.AllUsable(cs) && NoDuplicates(cs) && |ts| > 0 && s.AllUsable(ts)
      && Disjoint(cs, ts) && Shaped(m, U, Pow(s.d, |ts|))
  {
    if CheckQuditList(s, cs).Some? then CheckQuditList(s, cs)
    else if |ts| == 0 then Some(ZeroSize)
    else if FirstBadQudit(s, ts).Some? then FirstBadQudit(s, ts)
    else if !Disjoint(cs, ts) then Some(OutOfRange)
    else ShapeError(m, U, Pow(s.d, |ts|))
  }

  /** `cCTRL(U, ctrl_dit, target)`. */
  function CheckCCtrl(s: Shape, m: MatrixOps, U: Matrix, c: nat, t: nat): (e: Option<Error>)
    requires s.Wf()
    ensures e.None? <==> c < s.nc && s.Usable(t) && Shaped(m, U, s.d)
    ensures c >= s.nc ==> e == Some(OutOfRange)
  {
    if c >= s.nc || t >= s.nq then Some(OutOfRange)
    else if s.measured[t] then Some(QuditAlreadyMeasured)
    else ShapeError(m, U, s.d)
  }

  /** `cCTRL(U, ctrl_dit, target)` with a list of targets. */
  function CheckCCtrlTargets(s: Shape, m: MatrixOps, U: Matrix, c: nat, ts: seq<nat>): (e: Option<Error>)
    requires s.Wf()
    ensures e.None? <==> c < s.nc && |ts| > 0 && s.AllUsable(ts) && NoDuplicates(ts) && Shaped(m, U, s.d)
    ensures c >= s.nc ==> e == Some(OutOfRange)
  {
    if c >= s.nc then Some(OutOfRange) else CheckTargets(s, m, U, ts, s.d)
  }

  /** `cCTRL(U, ctrl_dits, target)`: the dit list may be empty. */
  function CheckCCtrlsTarget(s: Shape, m: MatrixOps, U: Matrix, ds: seq<nat>, t: nat): (e: Option<Error>)
    requires s.Wf()
    ensures e.None? <==>
      (forall k :: 0 <= k < |ds| ==> ds[k] < s.nc) && NoDuplicates(ds) && s.Usable(t) && Shaped(m, U, s.d)
  {
    if CheckDitList(s.nc, ds).Some? then CheckDitList(s.nc, ds)
    else if t >= s.nq then Some(OutOfRange)
    else if s.measured[t] then Some(QuditAlreadyMeasured)
    else ShapeError(m, U, s.d)
  }

  /**
   * `cCTRL(U, ctrl_dits, target)` with a list of targets (D = d) and
   * `cCTRL_custom(U, ctrl_dits, target)` (D = d^|target|).
   */
  function CheckCCtrls(s: Shape, m: MatrixOps, U: Matrix, ds: seq<nat>, ts: seq<nat>, D: nat): (e: Option<Error>)
    requires s.Wf()
    ensures e.None? <==>
      (forall k :: 0 <= k < |ds| ==> ds[k] < s.nc) && NoDuplicates(ds)
      && |ts| > 0 && s.AllUsable(ts) && NoDuplicates(ts) && Shaped(m, U, D)
  {
    if CheckDitList(s.nc, ds).Some? then CheckDitList(s.nc, ds) else CheckTargets(s, m, U, ts, D)
  }

  /** `measureZ(target, c_reg)` and `measureV(V, target, c_reg)`: neither looks at a matrix. */
  function CheckMeasure(s: Shape, t: nat, creg: nat): (e: Option<Error>)
    requires s.Wf()
    ensures e.None? <==> s.Usable(t) && creg < s.nc
    ensures t >= s.nq || creg >= s.nc ==> e == Some(OutOfRange)
  {
    if t >= s.nq then Some(OutOfRange)
    else if creg >= s.nc then Some(OutOfRange)
    else if s.measured[t] then Some(QuditAlreadyMeasured)
    else None
  }

  /**
   * `measureV(V, target, c_reg)` with a list of targets. The second
   * already-measured scan repeats one the target scan has passed.
   */
  function CheckMeasureMany(s: Shape, ts: seq<nat>, creg: nat): (e: Option<Error>)
    requires s.Wf()
    ensures e.None? <==> |ts| > 0 && s.AllUsable(ts) && NoDuplicates(ts) && creg < s.nc
  {
    if CheckTargetList(s, ts).Some? then CheckTargetList(s, ts)
    else if creg >= s.nc then Some(OutOfRange)
    else FirstBadQudit(s, ts)
  }

  /** Default name of a plain gate: the gate library's name for U, which may be "". */
  function GateName(m: MatrixOps, name: string, U: Matrix): (r: string)
    ensures name != "" ==> r == name
    ensures name == "" ==> r == m.name(U)
  {
    if name == "" then m.name(U) else name
  }

  /**
   * Default name of a (classically) controlled gate: the prefix ("CTRL" or
   * "cCTRL"), followed by "-" and the library's name for U when it has one.
   */
  function CtrlName(m: MatrixOps, prefix: string, name: string, U: Matrix): (r: string)
    requires prefix != ""
    ensures r != ""
    ensures name != "" ==> r == name
    ensures name == "" && m.name(U) == "" ==> r == prefix
    ensures name == "" ==> prefix <= r
  {
    if name != "" then name
    else if m.name(U) == "" then prefix
    else prefix + "-" + m.name(U)
  }
}
