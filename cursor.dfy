/**
 * The state of a `QCircuit::iterator` as a value: the current step kind, the
 * instruction pointer, and the gate and measurement cursors as offsets into
 * `gates_` and `measurements_`. The functions here are the iterator's
 * transitions over a circuit's tag sequence `step_types_`.
 */
module Cursors {
  import opened Basics
  import opened Steps

  /** `static_cast<idx>(-1)`: the ip of an iterator that is not on any position. */
  const NoIp: nat := MaxIdx

  datatype Cursor = Cursor(kind: StepType, ip: nat, gateIp: nat, measureIp: nat)

  /** The cursor of a default-constructed value_type_. */
  const Detached: Cursor := Cursor(StepNone, NoIp, 0, 0)

  /** `set_begin_`: on the first step, or, for an empty circuit, still at the sentinel. */
  function Begin(tags: seq<StepType>): (c: Cursor)
    ensures |tags| == 0 ==> c == Detached
    ensures |tags| > 0 ==> c.ip == 0 && c.kind == tags[0]
  {
    if |tags| != 0 then Cursor(tags[0], 0, 0, 0) else Cursor(StepNone, NoIp, 0, 0)
  }

  /** `set_end_`: one past the last step (the sentinel for an empty circuit), both cursors at their ends. */
  function End(tags: seq<StepType>, ng: nat, nm: nat): (c: Cursor)
    ensures c.kind == StepNone && c.gateIp == ng && c.measureIp == nm
    ensures |tags| > 0 ==> c.ip == |tags|
  {
    Cursor(StepNone, if |tags| != 0 then |tags| else NoIp, ng, nm)
  }

  /** The ip is a position 0 .. |tags| or the sentinel. */
  predicate Placed(tags: seq<StepType>, c: Cursor)
  {
    c.ip <= |tags| || c.ip == NoIp
  }

  /**
   * `operator++`: refused on an empty circuit and at the end; otherwise moves
   * the cursor of the current kind, increments ip (the sentinel wraps to 0)
   * and takes the kind of the new step, or NONE at the end.
   */
  function Advance(tags: seq<StepType>, c: Cursor): (r: Result<Cursor>)
    requires Placed(tags, c)
    ensures r.Err? <==> |tags| == 0 || c.ip == |tags|
    ensures r.Err? ==> r.error == InvalidIterator
    ensures r.Ok? ==> Placed(tags, r.value) && r.value.ip <= |tags|
    ensures r.Ok? ==> r.value.gateIp == c.gateIp + (if c.kind == StepGate then 1 else 0)
    ensures r.Ok? ==> r.value.measureIp == c.measureIp + (if c.kind == StepMeasure then 1 else 0)
  {
    if |tags| == 0 || c.ip == |tags| then Err(InvalidIterator)
    else
      var g := if c.kind == StepGate then c.gateIp + 1 else c.gateIp;
      var m := if c.kind == StepMeasure then c.measureIp + 1 else c.measureIp;
      var ip := if c.ip == NoIp then 0 else c.ip + 1;
      Ok(Cursor(if ip == |tags| then StepNone else tags[ip], ip, g, m))
  }

  /** `operator*` on an attached iterator: refused at the end. */
  function Deref(tags: seq<StepType>, c: Cursor): (r: Result<Cursor>)
    ensures r.Err? <==> c.ip == |tags|
    ensures r.Err? ==> r.error == InvalidIterator
    ensures r.Ok? ==> r.value == c
  {
    if c.ip == |tags| then Err(InvalidIterator) else Ok(c)
  }

  /** n increments in a row, stopping at the first refusal. */
  function Walk(tags: seq<StepType>, c: Cursor, n: nat): Result<Cursor>
    requires Placed(tags, c)
    decreases n
  {
    if n == 0 then Ok(c)
    else match Advance(tags, c)
      case Err(e) => Err(e)
      case Ok(c') => Walk(tags, c', n - 1)
  }

  /**
   * The iterator on step k: its kind, ip k, and cursors that count the gate
   * and measurement steps before k.
   */
  function CursorAt(tags: seq<StepType>, k: nat): Cursor
    requires k <= |tags|
  {
    Cursor(if k < |tags| then tags[k] else StepNone, k, CountTag(tags[..k], StepGate), CountTag(tags[..k], StepMeasure))
  }

  /** begin() of a non-empty circuit is on step 0. */
  lemma BeginAt(tags: seq<StepType>)
    requires |tags| > 0
    ensures Begin(tags) == CursorAt(tags, 0)
  {
    assert tags[..0] == [];
  }

  /** Incrementing the iterator on step k puts it on step k + 1. */
  lemma AdvanceAt(tags: seq<StepType>, k: nat)
    requires k < |tags| < NoIp
    ensures Advance(tags, CursorAt(tags, k)) == Ok(CursorAt(tags, k + 1))
  {
    CountTagNext(tags, k, StepGate);
    CountTagNext(tags, k, StepMeasure);
  }

  /** n increments from step k reach step k + n. */
  lemma {:induction false} WalkAt(tags: seq<StepType>, k: nat, n: nat)
    requires k + n <= |tags| < NoIp
    ensures Walk(tags, CursorAt(tags, k), n) == Ok(CursorAt(tags, k + n))
    decreases n
  {
    if n > 0 {
      AdvanceAt(tags, k);
      WalkAt(tags, k + 1, n - 1);
    }
  }

  /** end() of a non-empty circuit is the position after the last step. */
  lemma EndAt(tags: seq<StepType>, ng: nat, nm: nat)
    requires |tags| > 0 && CountTag(tags, StepGate) == ng && CountTag(tags, StepMeasure) == nm
    ensures End(tags, ng, nm) == CursorAt(tags, |tags|)
  {
    assert tags[..|tags|] == tags;
  }

  /**
   * From begin(), exactly get_step_count() increments give an iterator equal
   * to end(); for an empty circuit begin() already equals end(). The step
   * count must stay below the sentinel, as every ip is a 64-bit idx.
   */
  lemma BeginWalksToEnd(tags: seq<StepType>, ng: nat, nm: nat)
    requires |tags| < NoIp
    requires CountTag(tags, StepGate) == ng && CountTag(tags, StepMeasure) == nm
    ensures Walk(tags, Begin(tags), |tags|) == Ok(End(tags, ng, nm))
    ensures Advance(tags, End(tags, ng, nm)).Err?
  {
    if |tags| > 0 {
      BeginAt(tags);
      WalkAt(tags, 0, |tags|);
      EndAt(tags, ng, nm);
    }
  }

  /**
   * Dereferencing the iterator on step k succeeds, and the cursor of the
   * step's kind points at an existing gate or measurement record.
   */
  lemma CursorInRange(tags: seq<StepType>, k: nat, ng: nat, nm: nat)
    requires k < |tags| && CountTag(tags, StepGate) == ng && CountTag(tags, StepMeasure) == nm
    ensures Deref(tags, CursorAt(tags, k)) == Ok(CursorAt(tags, k))
    ensures tags[k] == StepGate ==> CursorAt(tags, k).gateIp < ng
    ensures tags[k] == StepMeasure ==> CursorAt(tags, k).measureIp < nm
  {
    if tags[k] == StepGate {
      CountTagBelow(tags, k, StepGate);
    }
    if tags[k] == StepMeasure {
      CountTagBelow(tags, k, StepMeasure);
    }
  }

  /** Two gate steps seen along the walk get different, increasing gate cursors. */
  lemma GateCursorsIncrease(tags: seq<StepType>, i: nat, j: nat)
    requires i < j < |tags| && tags[i] == StepGate
    ensures CursorAt(tags, i).gateIp < CursorAt(tags, j).gateIp
  {
    CountTagNext(tags, i, StepGate);
    assert tags[..j][..i + 1] == tags[..i + 1];
    CountTagPrefix(tags[..j], i + 1, StepGate);
  }

  /** Two measurement steps seen along the walk get different, increasing measurement cursors. */
  lemma MeasureCursorsIncrease(tags: seq<StepType>, i: nat, j: nat)
    requires i < j < |tags| && tags[i] == StepMeasure
    ensures CursorAt(tags, i).measureIp < CursorAt(tags, j).measureIp
  {
    CountTagNext(tags, i, StepMeasure);
    assert tags[..j][..i + 1] == tags[..i + 1];
    CountTagPrefix(tags[..j], i + 1, StepMeasure);
  }

  /**
   * On an empty circuit begin() equals end(), and dereferencing it succeeds
   * with kind NONE, because its ip is the sentinel and not 0.
   */
  lemma EmptyCircuitBegin()
    ensures Begin([]) == End([], 0, 0)
    ensures Deref([], Begin([])) == Ok(Detached)
  {
  }
}
