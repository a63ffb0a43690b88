# qpp quantum circuits and engines, modelled in Dafny

This project models the logical core of qpp's `include/classes/circuits.h`:

- **`QCircuit`**: an append-only instruction log over `nq` qudits of dimension `d` and `nc` classical dits. It holds the gate and measurement records, the step tags that interleave them, a content-hash table of gate operands, per-name counters and a build-time "measured" marker per qudit. Every appender (`gate`, `gate_fan`, `gate_custom`, `CTRL*`, `cCTRL*`, `measureZ`, `measureV`) runs all of its exception checks before it changes anything.
- **`QCircuit::iterator`**: a bounds-checked cursor over the step tags. It keeps an instruction pointer, the current step kind, a gate cursor and a measurement cursor.
- **`QEngine`**: runs one step at a time on a state vector `psi_`, classical dits `dits_` and their probabilities `probs_`. `subsys_` maps logical qudits to positions in the shrinking state: a measured qudit gets the sentinel `idx(-1)` and every later live qudit moves down by one.
- **`QNoisyEngine`**: before each step, applies a noise channel to every live qudit and records the branch that occurred, then runs the ordinary step.

Matrices and states are opaque types. The kernels the core calls are fields of injected records:

- `MatrixOps`: `hash_eigen`, `Gates::get_name`, `rows`/`cols`, the default matrix.
- `StateOps`: `States::zero`, `apply`, `applyCTRL`, `measure_seq`, `measure`, `powm`.
- `NoiseOps`: the noise model's dimension and `operator()`.

The model proves the following, module by module:

- `Validation` and `Circuit`: exactly which inputs each appender rejects, with which exception, and that a rejection changes nothing. An accepted append pushes exactly one record and one tag, and keeps the counters, the operand table and the measured markers consistent with the records.
- `Cursors` and `Iterators`: iterator arithmetic. From `begin()`, exactly `get_step_count()` increments reach `end()`.
- `Relabel`: the relabelling keeps every live qudit's position equal to the number of live qudits before it.
- `Semantics`, `Engine` and `Noisy`: each `execute` is proved against a step specification. That specification covers the FAN loop, the classical-control rule and the measurement dispatch.

Modules: `Basics`, `Kernels`, `Steps`, `Operands`, `Validation`, `Circuit`, `Cursors`, `Iterators`, `Relabel`, `Semantics`, `Engine`, `Noisy`.

## Model

| member | source | states |
|---|---|---|
| Operands.AddHash | include/classes/circuits.h:67-81 | fails exactly when the hash is present with a different matrix; otherwise the table gains that one key and keeps every other entry; a new hash adds exactly one entry, an equal re-insert leaves the table as it was |
| Operands.AddHashContentAddressed | include/classes/circuits.h:67-81 | a successful insertion keeps every entry stored under its own hash |
| Operands.CollisionIsGenuine | include/classes/circuits.h:67-81 | on a content-addressed table, insertion fails iff a different stored matrix has the same hash |
| Operands.AddHashIdempotent | include/classes/circuits.h:67-81 | inserting the same matrix twice is the same as inserting it once |
| Circuit.QCircuit.constructor | include/classes/circuits.h:740-749 | a circuit with the given shape, nothing recorded, no qudit measured, empty table and counters |
| Circuit.NewCircuit | include/classes/circuits.h:740-749 | refused iff nq == 0 (ZeroSize) or d < 2 (OutOfRange); otherwise an empty, well-formed circuit |
| Circuit.QCircuit.StepCount | include/classes/circuits.h:921 | the step count equals the number of gates plus measurements, and the number of GATE plus MEASUREMENT tags |
| Circuit.QCircuit.IsMeasured | include/classes/circuits.h:790-798 | OutOfRange iff i >= nq; otherwise true iff some recorded measurement targets i |
| Circuit.QCircuit.GetMeasured | include/classes/circuits.h:805-812 | ascending list of exactly the qudits some measurement targets |
| Circuit.QCircuit.GetNonMeasured | include/classes/circuits.h:819-826 | ascending list of exactly the qudits no measurement targets |
| Circuit.QCircuit.GetGateCount | include/classes/circuits.h:833-839 | the sum over all counters, which equals the total width of the recorded gates (a fan counts its targets) |
| Circuit.QCircuit.GetGateCountOf | include/classes/circuits.h:847-860 | fails iff no gate of that name was recorded; otherwise the total width of the gates of that name |
| Circuit.QCircuit.GetMeasurementCount | include/classes/circuits.h:886-892 | the sum over the measurement counters, which equals the number of measurements |
| Circuit.QCircuit.GetMeasurementCountOf | include/classes/circuits.h:900-913 | fails iff no measurement of that name was recorded; otherwise the number of measurements of that name |
| Circuit.QCircuit.GetGateDepth | include/classes/circuits.h:867-869 | always fails with NotImplemented |
| Circuit.QCircuit.GetGateDepthOf | include/classes/circuits.h:877-879 | always fails with NotImplemented |
| Circuit.QCircuit.Gate | include/classes/circuits.h:932-965 | the outcome is the first failed check of `gate(U, i)`, else a hash collision; on failure nothing changes; on success one SINGLE record with its tag, the operand in the table and the name's counter raised by 1 |
| Circuit.QCircuit.Gate2 | include/classes/circuits.h:976-1008 | as Gate for `gate(U, i, j)`: i, j in range, unmeasured and distinct, U of size `d * d` as a 64-bit product, which wraps modulo 2^64 |
| Circuit.QCircuit.Gate3 | include/classes/circuits.h:1020-1053 | as Gate for `gate(U, i, j, k)`: three distinct usable qudits, U of size `d * d * d` as a 64-bit product, which wraps modulo 2^64 |
| Circuit.QCircuit.GateFan | include/classes/circuits.h:1065-1108 | as Gate for a FAN record over the target list; the gate count grows by the number of targets |
| Circuit.QCircuit.GateFanAll | include/classes/circuits.h:1136-1163 | fails only on the operand's shape or a collision; on success a FAN over the qudits not yet measured, in ascending order, counting one per such qudit |
| Circuit.QCircuit.GateCustom | include/classes/circuits.h:1175-1222 | as Gate for a CUSTOM record: a non-empty, duplicate-free list of usable targets and U of size d^n |
| Circuit.QCircuit.Qft | include/classes/circuits.h:1234-1251 | always fails with NotImplemented |
| Circuit.QCircuit.Tfq | include/classes/circuits.h:1263-1279 | always fails with NotImplemented |
| Circuit.QCircuit.Ctrl | include/classes/circuits.h:1292-1327 | as Gate for a controlled gate with one control and one target: distinct and usable, U of size d; the default name is "CTRL" or "CTRL-" plus the gate's name |
| Circuit.QCircuit.CtrlTargets | include/classes/circuits.h:1341-1396 | as Ctrl with a target list: the control is not among the targets |
| Circuit.QCircuit.CtrlsTarget | include/classes/circuits.h:1409-1462 | as Ctrl with a control list: the target is not among the controls |
| Circuit.QCircuit.Ctrls | include/classes/circuits.h:1477-1540 | as Ctrl with both lists: each duplicate-free, disjoint from each other |
| Circuit.QCircuit.CtrlCustom | include/classes/circuits.h:1555-1621 | as Ctrls, but targets are not checked for duplicates and U must have size d^n |
| Circuit.QCircuit.CCtrl | include/classes/circuits.h:1635-1671 | as Gate for a classically controlled gate: the control dit < nc; the default name is "cCTRL" or "cCTRL-" plus the gate's name |
| Circuit.QCircuit.CCtrlTargets | include/classes/circuits.h:1685-1733 | as CCtrl with a target list |
| Circuit.QCircuit.CCtrlsTarget | include/classes/circuits.h:1746-1791 | as CCtrl with a dit list, which may be empty |
| Circuit.QCircuit.CCtrls | include/classes/circuits.h:1806-1859 | as CCtrl with a dit list and a target list |
| Circuit.QCircuit.CCtrlCustom | include/classes/circuits.h:1874-1935 | as CCtrls with U of size d^n |
| Circuit.QCircuit.MeasureZ | include/classes/circuits.h:1947-1976 | fails iff the target is out of range or measured, or c_reg >= nc; on success one MEASURE_Z record named "Z" by default, its tag, the counter raised by 1 and the target marked measured |
| Circuit.QCircuit.MeasureV | include/classes/circuits.h:1992-2022 | as MeasureZ with a MEASURE_V record carrying V's hash; the table is not touched |
| Circuit.QCircuit.MeasureVMany | include/classes/circuits.h:2038-2083 | fails iff the targets are empty, repeated, out of range or measured, or c_reg >= nc; on success every target is marked measured |
| Circuit.QCircuit.AddHashToTable | include/classes/circuits.h:67-81 | the table becomes the result of AddHash, and stays as it was on a collision |
| Circuit.QCircuit.PushGate | include/classes/circuits.h:957-962 | after the checks: a hash collision fails with nothing changed; otherwise the operand in the table, one record, one GATE tag and the name's counter raised by the record's width, with the measurement side untouched |
| Circuit.QCircuit.PushMeasurement | include/classes/circuits.h:1968-1973 | the targets marked measured, one measurement record, one MEASUREMENT tag and the name's counter raised by 1, with gates, counters and table untouched |
| Circuit.Verdict | include/classes/circuits.h:932-965 | success iff no check failed and the operand table accepted U; a failed check's exception comes before HashCollision |
| Circuit.QCircuit.RecordGate | include/classes/circuits.h:959-962 | one gate record and one GATE tag appended; the name's counter raised by the record's width |
| Circuit.TagsAppend | include/classes/circuits.h:961 | appending a tag keeps the tag counts equal to the record counts |
| Circuit.GateCountsAppend | include/classes/circuits.h:962 | raising a counter by the new record's width keeps every counter equal to the width of its name's records |
| Circuit.MeasureCountsAppend | include/classes/circuits.h:1973 | the same for measurement counters |
| Circuit.MeasurementsAppend | include/classes/circuits.h:1968-1972 | marking the new measurement's targets keeps the markers equal to "targeted by some measurement" |
| Validation.FirstBadQudit | include/classes/circuits.h:1073-1080 | no error iff every listed qudit is in range and unmeasured; else the error of the first bad one, OutOfRange before QuditAlreadyMeasured |
| Validation.ShapeError | include/classes/circuits.h:1085-1090 | no error iff U is square with the required size; MatrixNotSquare exactly when it is not square |
| Validation.CheckQuditList | include/classes/circuits.h:1564-1575 | no error iff the list is usable and duplicate-free |
| Validation.CheckTargetList | include/classes/circuits.h:1071-1083 | no error iff the targets are non-empty, usable and duplicate-free; ZeroSize for an empty list |
| Validation.CheckDitList | include/classes/circuits.h:1752-1758 | no error iff every dit < nc and none repeats; OutOfRange when some dit is out of range |
| Validation.CheckGate | include/classes/circuits.h:933-953 | no error iff i is usable and U has size d; OutOfRange when i >= nq |
| Validation.CheckPair | include/classes/circuits.h:977-996 | no error iff both qudits are usable and distinct and U has the required size; OutOfRange when they are equal |
| Validation.CheckGate3 | include/classes/circuits.h:1021-1041 | no error iff three usable pairwise-distinct qudits and U of size `d * d * d` computed modulo 2^64 |
| Validation.CheckTargets | include/classes/circuits.h:1067-1096 | no error iff non-empty, usable, duplicate-free targets and U of the required size |
| Validation.CheckCtrlTargets | include/classes/circuits.h:1343-1382 | no error iff the control and targets are usable, the targets are non-empty and duplicate-free, the control is not a target, and U has size d |
| Validation.CheckCtrlsTarget | include/classes/circuits.h:1411-1448 | no error iff the controls are usable and duplicate-free, the target is usable and not a control, and U has size d |
| Validation.CheckCtrls | include/classes/circuits.h:1479-1526 | no error iff both lists are usable and duplicate-free, the targets are non-empty, the lists are disjoint, and U has size d |
| Validation.CheckCtrlCustom | include/classes/circuits.h:1558-1608 | as CheckCtrls without the duplicate check on targets, with U of size d^n |
| Validation.CheckCCtrl | include/classes/circuits.h:1637-1656 | no error iff the dit < nc, the target is usable, and U has size d |
| Validation.CheckCCtrlTargets | include/classes/circuits.h:1687-1719 | no error iff the dit < nc, the targets are non-empty, usable and duplicate-free, and U has size d |
| Validation.CheckCCtrlsTarget | include/classes/circuits.h:1748-1777 | no error iff the dits are in range and duplicate-free, the target is usable, and U has size d |
| Validation.CheckCCtrls | include/classes/circuits.h:1808-1845 | no error iff the dits are in range and duplicate-free, the targets are non-empty, usable and duplicate-free, and U has the required size |
| Validation.CheckMeasure | include/classes/circuits.h:1948-1964 | no error iff the target is usable and c_reg < nc; OutOfRange for either index out of range |
| Validation.CheckMeasureMany | include/classes/circuits.h:2040-2070 | no error iff the targets are non-empty, usable and duplicate-free, and c_reg < nc |
| Validation.CtrlName | include/classes/circuits.h:1313-1316 | the given name when there is one; otherwise the prefix, extended by the gate's registered name when it has one |
| Validation.GateName | include/classes/circuits.h:955-956 | the given name when there is one; otherwise the gate library's name for U |
| Steps.GateNamesSpec | include/classes/circuits.h:855 | a name has a counter iff some gate record carries it |
| Steps.MeasureNamesSpec | include/classes/circuits.h:908 | a name has a measurement counter iff some measurement record carries it |
| Steps.CountTagTotal | include/classes/circuits.h:921 | the three tag kinds together cover every step |
| Steps.GateAppend | include/classes/circuits.h:962 | appending a gate raises the total width and its name's width by the record's width |
| Steps.MeasureAppend | include/classes/circuits.h:1973 | appending a measurement raises its name's count by 1 |
| Steps.TargetedAppend | include/classes/circuits.h:1968 | after an append, q is targeted iff it was before or the new record targets it |
| Basics.BumpTotal | include/classes/circuits.h:833-839 | raising one counter by n raises the sum of all counters by n |
| Basics.IndicesSpec | include/classes/circuits.h:805-826 | the index list holds exactly the positions with the given flag, ascending |
| Basics.IndicesPartition | include/classes/circuits.h:805-826 | the measured and non-measured lists together have nq entries and share none |
| Basics.IdxMul | include/classes/circuits.h:990 | the `idx` product: the exact product when it fits in 64 bits, and at least 2^64 less than it when it does not |
| Basics.IdxMulWraps | include/classes/circuits.h:990 | 2^32 * 2^32 is 0 as an `idx`, so `gate(U, i, j)` with d = 2^32 accepts a 0 x 0 operand |
| Cursors.Begin | include/classes/circuits.h:614-627 | on an empty circuit stays detached; otherwise ip 0 with the first step's kind |
| Cursors.End | include/classes/circuits.h:634-645 | kind NONE, both cursors at their counts, ip at the step count unless the circuit is empty |
| Cursors.Advance | include/classes/circuits.h:510-556 | fails iff the circuit is empty or ip is at the end; otherwise only the current kind's cursor moves by one |
| Cursors.Deref | include/classes/circuits.h:596-607 | fails iff ip is at the end; otherwise yields the cursor |
| Cursors.WalkAt | include/classes/circuits.h:510-556 | n increments from the k-th position reach the (k+n)-th |
| Cursors.BeginWalksToEnd | include/classes/circuits.h:510-556 | from begin, step-count increments reach end, and one more fails |
| Cursors.CursorInRange | include/classes/circuits.h:596-607 | every position before the end dereferences, with its cursor inside its record list |
| Cursors.GateCursorsIncrease | include/classes/circuits.h:533-535 | a later position has a larger gate cursor than an earlier gate position |
| Cursors.MeasureCursorsIncrease | include/classes/circuits.h:537-539 | the same for measurement cursors |
| Cursors.EmptyCircuitBegin | include/classes/circuits.h:614-645 | on an empty circuit begin equals end, and begin dereferences |
| Iterators.StepIterator.constructor | include/classes/circuits.h:489 | an iterator attached to no circuit |
| Iterators.StepIterator.SetBegin | include/classes/circuits.h:614-627 | attaches to the circuit at Begin |
| Iterators.StepIterator.SetEnd | include/classes/circuits.h:634-645 | attaches to the circuit at End |
| Iterators.StepIterator.Increment | include/classes/circuits.h:510-556 | fails with InvalidIterator when unattached or when Advance fails, leaving the position; otherwise moves to Advance's result |
| Iterators.StepIterator.Deref | include/classes/circuits.h:596-607 | InvalidIterator when unattached or when ip equals the step count; otherwise the current step of this circuit (so `end()` of an empty circuit, whose ip stays `idx(-1)`, dereferences) |
| Iterators.StepIterator.Equals | include/classes/circuits.h:575-580 | equal iff kind, ip and both cursors agree |
| Iterators.CircuitBegin | include/classes/circuits.h:662-667 | a fresh iterator at Begin |
| Iterators.CircuitEnd | include/classes/circuits.h:698-703 | a fresh iterator at End |
| Iterators.Traversal | include/classes/circuits.h:510-556 | from begin, get_step_count() increments reach end and a further increment fails; on a non-empty circuit end does not dereference |
| Relabel.MeasuredFlags | include/classes/circuits.h:2369-2371 | a qudit counts as measured iff its entry is the sentinel |
| Relabel.Identity | include/classes/circuits.h:2276-2278 | entry i is i |
| Relabel.IdentityDense | include/classes/circuits.h:2276-2278 | the identity labelling is dense, with nq live qudits and none measured |
| Relabel.MarkMeasured | include/classes/circuits.h:2230-2240 | the sentinel at i; earlier entries unchanged; measured qudits stay measured |
| Relabel.MarkMeasuredLive | include/classes/circuits.h:2236-2238 | apart from i, the same qudits stay live, and each later live entry drops by exactly one |
| Relabel.MarkMeasuredDense | include/classes/circuits.h:2230-2240 | marking a live qudit never wraps, keeps the labelling dense, marks exactly that qudit and leaves one live qudit fewer |
| Relabel.MarkAll | include/classes/circuits.h:2561-2562 | `set_measured_` on each target in turn: every target ends at the sentinel and every measured qudit stays measured |
| Relabel.MarkAllDense | include/classes/circuits.h:2561-2562 | marking distinct live targets in turn keeps density, marks exactly them and removes that many live qudits |
| Relabel.DenseOrder | include/classes/circuits.h:2230-2240 | in a dense labelling, positions follow logical order and lie below the live count |
| Relabel.RelPos | include/classes/circuits.h:2250-2259 | QuditAlreadyMeasured iff some listed qudit is measured; otherwise each index mapped through the labelling |
| Relabel.LiveRanks | include/classes/circuits.h:2392-2399 | the k-th non-measured qudit sits at position k |
| Relabel.LivePositions | include/classes/circuits.h:2674-2679 | the non-measured qudits map to positions 0, 1, ..., in order |
| Semantics.Lookup | include/classes/circuits.h:2453 | the stored matrix, or the default matrix on a miss |
| Semantics.FanApply | include/classes/circuits.h:2476-2479 | the FAN loop: no targets keep the state, one target is a single application of U |
| Semantics.ClassicalSpec | include/classes/circuits.h:2497-2515 | with no dits U on the targets; when every control dit equals v, U^v; when two control dits differ, the state kept |
| Semantics.GateSpec | include/classes/circuits.h:2455-2518 | fails, always with QuditAlreadyMeasured, iff a target is measured or a quantum control is measured |
| Semantics.FanApplyConcat | include/classes/circuits.h:2476-2479 | the FAN loop over a + b is the loop over a, then over b |
| Semantics.FanApplyOnce | include/classes/circuits.h:2476-2479 | FAN applies U to the first target, then to the rest |
| Semantics.ClassicalNoDits | include/classes/circuits.h:2497-2499 | with no dits, a classically controlled gate is U on its targets |
| Semantics.ClassicalAgree | include/classes/circuits.h:2500-2514 | when every control dit equals v, it is U^v on its targets |
| Semantics.ClassicalDisagree | include/classes/circuits.h:2500-2514 | when two control dits differ, the state is kept |
| Semantics.Record | include/classes/circuits.h:2541-2542 | the outcome and probability land at c_reg; every other dit and probability is kept |
| Semantics.MeasureSpec | include/classes/circuits.h:2519-2565 | fails, always with QuditAlreadyMeasured, iff a target is measured |
| Semantics.MarkSingle | include/classes/circuits.h:2543 | marking a one-element target list is marking its element |
| Semantics.MeasureRelabels | include/classes/circuits.h:2535-2563 | a successful measurement keeps density, marks exactly its targets, removes that many live qudits and touches only c_reg |
| Semantics.NoMeasureKeeps | include/classes/circuits.h:2536-2537 | a measurement of kind NONE changes nothing |
| Engine.QEngine.constructor | include/classes/circuits.h:2273-2279 | zero state, zero dits and probabilities, identity labelling |
| Engine.QEngine.Reset | include/classes/circuits.h:2432-2437 | the same state as a fresh engine |
| Engine.FillIota | include/classes/circuits.h:2276-2278 | fills the array with the identity labelling |
| Engine.QEngine.Measured | include/classes/circuits.h:2369-2371 | true iff i is in the measured list |
| Engine.QEngine.GetMeasured | include/classes/circuits.h:2378-2385 | ascending list of exactly the qudits at the sentinel |
| Engine.QEngine.GetNonMeasured | include/classes/circuits.h:2392-2399 | ascending list of exactly the live qudits; as many as the live count, the k-th at position k |
| Engine.QEngine.GetRelativePos | include/classes/circuits.h:2250-2259 | equals RelPos of the current labelling |
| Engine.QEngine.SetMeasured | include/classes/circuits.h:2230-2240 | QuditAlreadyMeasured with nothing changed when i is measured; otherwise the labelling becomes MarkMeasured |
| Engine.QEngine.ShiftDown | include/classes/circuits.h:2233-2239 | the loop of set_measured_: the labelling becomes MarkMeasured |
| Engine.QEngine.GetDit | include/classes/circuits.h:2334-2339 | OutOfRange iff i >= nc; otherwise dit i |
| Engine.QEngine.SetDit | include/classes/circuits.h:2417-2423 | OutOfRange with nothing changed iff i >= nc; otherwise dit i becomes the value, get_dit then returns it, and every other dit is kept |
| Engine.QEngine.ApplyFan | include/classes/circuits.h:2476-2479 | the state becomes the FAN loop's result |
| Engine.QEngine.ApplyClassical | include/classes/circuits.h:2497-2515 | the state becomes the classical-control rule's result |
| Engine.QEngine.Store | include/classes/circuits.h:2539-2542 | the collapsed state in `psi_`, the outcome and its probability at c_reg, every other dit and probability kept |
| Engine.QEngine.ExecuteGate | include/classes/circuits.h:2455-2518 | outcome and state as GateSpec, with the state kept on failure |
| Engine.QEngine.MarkTargetsMeasured | include/classes/circuits.h:2561-2562 | the labelling becomes MarkAll of the targets |
| Engine.QEngine.ExecuteMeasure | include/classes/circuits.h:2519-2565 | outcome and machine as MeasureSpec, with the machine kept on failure |
| Engine.QEngine.StepSpec | include/classes/circuits.h:2455-2568 | the dispatch on the step kind: a NONE step keeps the machine; a failure is always QuditAlreadyMeasured; a gate changes only the state; sizes are kept |
| Engine.QEngine.StepResult | include/classes/circuits.h:2444-2569 | InvalidIterator with the machine kept for a step of another circuit; success iff the step is this circuit's and StepSpec succeeds, with StepSpec's machine; on any failure the machine is kept |
| Engine.QEngine.Execute | include/classes/circuits.h:2444-2569 | InvalidIterator for a step of another circuit; otherwise outcome and new machine as the step specification, with the machine kept on failure |
| Engine.QEngine.ExecuteAt | include/classes/circuits.h:2576 | an unattached iterator, or one whose ip equals the step count, fails with InvalidIterator and changes nothing; otherwise as Execute (so `end()` of an empty circuit runs a NONE step and passes) |
| Engine.QEngine.DitGuardAdmitsPastEnd | include/classes/circuits.h:2335 | on a well-formed engine the guard as written admits index nc, which equals the number of dits, while the corrected get_dit refuses it |
| Noisy.NoiseRun | include/classes/circuits.h:2676-2679 | one branch index per position |
| Noisy.NoiseRunBranch | include/classes/circuits.h:2676-2679 | the k-th recorded branch is the channel's report on the k-th position, after the first k |
| Noisy.QNoisyEngine.constructor | include/classes/circuits.h:2658-2666 | a fresh base engine and one empty branch record per step |
| Noisy.NewNoisyEngine | include/classes/circuits.h:2658-2666 | refused with DimsNotEqual iff the noise dimension differs from the circuit's |
| Noisy.QNoisyEngine.Noised | include/classes/circuits.h:2674-2679 | noise on every live qudit gives one branch per live qudit |
| Noisy.QNoisyEngine.ApplyNoise | include/classes/circuits.h:2676-2679 | the state is the noise run's; exactly its branches are appended to the record at ip |
| Noisy.QNoisyEngine.Execute | include/classes/circuits.h:2672-2683 | the live qudits' branches appended to the record at ip, then the ordinary step on the noisy machine, whose circuit check comes after the noise |
| Noisy.QNoisyEngine.ExecuteAt | include/classes/circuits.h:2689 | an unattached iterator, or one whose ip equals the step count, fails with InvalidIterator before any noise; otherwise as Execute |

## Left out

- Numeric kernels (`apply`, `applyCTRL`, `measure_seq`, `measure`, `powm`, `States::zero`, `hash_eigen`, `Gates::get_name`, `check_square_mat` and the noise channel) are uninterpreted fields of `MatrixOps`, `StateOps` and `NoiseOps`. They are foreign numerical code over complex matrices.
- Randomness: `measure_seq`, `measure` and the noise channel return the sampled outcome directly. The model keeps no distribution.
- Floating point: probabilities are `real`. The `pow`/`llround` dimension `d^n` is the exact natural power.
- Text, JSON and `std::cerr` output (`operator<<`, `display`, `to_JSON`, the "At STEP" logging) is presentation I/O.
- Getters that only return a field (`get_psi`, `get_dits`, `get_probs`, `get_circuit`, `get_nq`, `get_gates_`, `get_noise_results` and the like) are the fields themselves. `get_noise_results` is `QNoisyEngine.noiseResults`.
- Iterator post-increment, `operator!=`, `cbegin`/`cend`, the copy constructors and the deleted rvalue constructors: they add nothing beyond the members above.
- The `depth_` field is never written by the core.
- Index counters are unbounded `nat`. Only `nq`, `nc`, `d`, `subsys_` and the operand sizes `d_ * d_` and `d_ * d_ * d_` use the 64-bit `idx` range, because the sentinel, the decrement in `set_measured_` and the wrapping products depend on it.
- Iterators are modelled as indices into the records. Invalidation by a later append is not modelled.
- Cursors.BeginWalksToEnd: requires fewer than 2^64 - 1 steps, because the empty-circuit sentinel `idx(-1)` must differ from every real ip.
- Engine.QEngine.Execute: requires a non-empty control list for a classically controlled step when there are dits. The source reads `ctrl_[0]` without checking, and the builder accepts an empty dit list.
- Engine.QEngine.Execute: requires the step's gate or measurement cursor to lie inside its record list. The source dereferences the cursor without a check.
- Noisy.QNoisyEngine.Execute: requires the step's ip to index `noise_results_`. The source indexes it unchecked, and the record list is sized when the engine is built.
- `measureV` stores `hash_eigen(V)` but never adds V to the operand table. At run time the engine looks the hash up in a copy of the table and gets the default matrix on a miss. `Semantics.Lookup` keeps that behaviour.
- QFT and TFQ records are never produced, because their appenders always fail. Their branch of `execute` is still modelled with the controlled kinds.

## Findings

| source | as written | input that shows it | evidently intended | confidence | as-written member | corrected member |
|---|---|---|---|---|---|---|
| include/classes/circuits.h:2335 | `get_dit` rejects only `i > nc` | `i == nc` passes the guard and reads one past the end of `dits_` | reject `i >= nc` with OutOfRange | not executed | Engine.QEngine.DitGuardAdmitsPastEnd | Engine.QEngine.GetDit |
| include/classes/circuits.h:2418 | `set_dit` rejects only `i > nc` | `i == nc` passes the guard and writes one past the end of `dits_` | reject `i >= nc` with OutOfRange | not executed | Engine.QEngine.DitGuardAdmitsPastEnd | Engine.QEngine.SetDit |
