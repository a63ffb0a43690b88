/**
 * `QCircuit::iterator`: a pointer to its circuit and a value_type_ that the
 * iterator's members update in place.
 */
module Iterators {
  import opened Basics
  import opened Steps
  import opened Cursors
  import opened Circuit

  /** `QCircuit::iterator::value_type_`: the circuit it belongs to and the cursor fields. */
  datatype StepView = StepView(qc: QCircuit?, cursor: Cursor)

  class StepIterator {
    var qc: QCircuit?        // qc_
    var elem: Cursor         // elem_ (its value_type_qc_ is qc)

    /** `iterator()`: attached to nothing. */
    constructor ()
      ensures qc == null && elem == Detached
    {
      qc := null;
      elem := Detached;
    }

    /** The iterator's ip is a position of its circuit or the sentinel. */
    ghost predicate Valid()
      reads this, qc
    {
      qc != null ==> qc.Valid() && Placed(qc.stepTypes, elem)
    }

    /** `set_begin_(qc)`. */
    method SetBegin(c: QCircuit?)
      requires c != null ==> c.Valid()
      modifies this
      ensures qc == c && Valid()
      ensures c != null ==> elem == Begin(c.stepTypes)
      ensures c == null ==> elem == Detached
    {
      qc := c;
      elem := Detached;
      if c != null {
        if |c.stepTypes| != 0 {
          elem := elem.(kind := c.stepTypes[0], ip := 0);
        }
        elem := elem.(gateIp := 0, measureIp := 0);
      }
    }

    /** `set_end_(qc)`. */
    method SetEnd(c: QCircuit?)
      requires c != null ==> c.Valid()
      modifies this
      ensures qc == c && Valid()
      ensures c != null ==> elem == End(c.stepTypes, |c.gates|, |c.measurements|)
      ensures c == null ==> elem == Detached
    {
      qc := c;
      elem := Detached;
      if c != null {
        if c.StepCount() != 0 {
          elem := elem.(ip := c.StepCount());
        }
        elem := elem.(gateIp := |c.gates|, measureIp := |c.measurements|);
      }
    }

    /** `operator++()`. */
    method Increment() returns (r: Outcome)
      requires Valid()
      modifies this`elem
      ensures Valid()
      ensures qc == null ==> r == Fail(InvalidIterator) && elem == old(elem)
      ensures qc != null ==> match Advance(qc.stepTypes, old(elem))
        case Err(e) => r == Fail(e) && elem == old(elem)
        case Ok(c) => r == Pass && elem == c
    {
      if qc == null {
        return Fail(InvalidIterator);
      }
      if qc.StepCount() == 0 {
        return Fail(InvalidIterator);
      }
      if elem.ip == qc.StepCount() {
        return Fail(InvalidIterator);
      }
      if elem.kind == StepGate {
        elem := elem.(gateIp := elem.gateIp + 1);
      } else if elem.kind == StepMeasure {
        elem := elem.(measureIp := elem.measureIp + 1);
      }
      elem := elem.(ip := if elem.ip == NoIp then 0 else elem.ip + 1);
      if elem.ip == qc.StepCount() {
        elem := elem.(kind := StepNone);
      } else {
        elem := elem.(kind := qc.stepTypes[elem.ip]);
      }
      r := Pass;
    }

    /** `operator*()`: refused when detached or at the end. */
    method Deref() returns (r: Result<StepView>)
      requires Valid()
      ensures qc == null ==> r == Err(InvalidIterator)
      ensures qc != null ==> match Cursors.Deref(qc.stepTypes, elem)
        case Err(e) => r == Err(e)
        case Ok(c) => r == Ok(StepView(qc, c))
    {
      if qc == null || elem.ip == qc.StepCount() {
        return Err(InvalidIterator);
      }
      r := Ok(StepView(qc, elem));
    }

    /** `operator==`: equal kind, ip and both cursors; the circuit is not compared. */
    predicate Equals(other: StepIterator)
      reads this, other
      ensures Equals(other) <==>
        (elem.kind == other.elem.kind && elem.ip == other.elem.ip
         && elem.gateIp == other.elem.gateIp && elem.measureIp == other.elem.measureIp)
    {
      elem == other.elem
    }
  }

  /** `QCircuit::begin()`. */
  method CircuitBegin(qc: QCircuit) returns (it: StepIterator)
    requires qc.Valid()
    ensures fresh(it) && it.Valid() && it.qc == qc && it.elem == Begin(qc.stepTypes)
  {
    it := new StepIterator();
    it.SetBegin(qc);
  }

  /** `QCircuit::end()`. */
  method CircuitEnd(qc: QCircuit) returns (it: StepIterator)
    requires qc.Valid()
    ensures fresh(it) && it.Valid() && it.qc == qc && it.elem == End(qc.stepTypes, |qc.gates|, |qc.measurements|)
  {
    it := new StepIterator();
    it.SetEnd(qc);
  }

  /**
   * A full traversal: on a circuit, get_step_count() increments of begin()
   * are all accepted and give an iterator equal to end(), which then
   * refuses both ++ and (for a non-empty circuit) *.
   */
  lemma Traversal(qc: QCircuit)
    requires qc.Valid() && qc.StepCount() < NoIp
    ensures Walk(qc.stepTypes, Begin(qc.stepTypes), qc.StepCount()) == Ok(End(qc.stepTypes, |qc.gates|, |qc.measurements|))
    ensures Advance(qc.stepTypes, End(qc.stepTypes, |qc.gates|, |qc.measurements|)).Err?
    ensures qc.StepCount() > 0 ==> Cursors.Deref(qc.stepTypes, End(qc.stepTypes, |qc.gates|, |qc.measurements|)).Err?
  {
    BeginWalksToEnd(qc.stepTypes, |qc.gates|, |qc.measurements|);
  }
}
