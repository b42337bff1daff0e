# Newton Dynamics: buffers, joints, world driver, bodies and shapes in Dafny

This project models seven self-contained rule sets of the Newton Dynamics
rigid-body engine and proves what each of them promises. Floating-point
quantities are `real`s, and geometry computed elsewhere in the engine
enters as plain inputs.

- **Pinned host buffer** (`CudaHostBuffer`, `host_buffer.dfy`). This is
  `ndCudaHostBuffer<T>`, a class over a Dafny array with a separate count
  and capacity, and `ndBankFreeArray`, the padded shared-memory address
  map.
- **Counting-sort scans** (`CudaCountingSort`, `counting_sort.dfy`). Two
  integer passes and the block arithmetic of the `ndCountingSort` driver:
  - `CountItems` writes one radix histogram per compute unit into the
    scans buffer;
  - `AddPrefix` turns those histograms into per-unit running sums and
    appends the exclusive prefix scan of the per-radix totals, using the
    double-buffered Hillis-Steele scan of the source.

  Each loop is a method with its invariants. Each method is proved against
  a function of the old buffer, and lemmas state what those functions
  count.
- **Constraint descriptor** (`ConstraintDescriptor`,
  `constraint_descriptor.dfy`). The per-step list of constraint rows the
  joints write:
  - a row records its Jacobian (axis label and angle error, or axis and
    two points), its acceleration (from the position error, a motor value
    or spring-damper gains) and its two friction bounds;
  - `AddAngularRowJacobian` and `AddLinearRowJacobian` append a row with
    its bounds wide open;
  - the `Set*` helpers rewrite the last row.
- **Joints** (`JointRoller`, `JointPdActuator`, `VehicleGearBox`). The
  roller, the PD actuator and the vehicle gear box are classes whose
  setters clamp their configuration. Their `JacobianDerivative` appends
  rows to a descriptor. For each joint, a pure function gives the rows one
  step appends, and lemmas state row counts, order, gating, signs and
  bounds.
- **Sandbox world driver** (`PhysicsWorld`, `physics_world.dfy`). The
  fixed-step time accumulator of `ndPhysicsWorld::AdvanceTime` and its
  deferred-deletion queue. The engine's own `Update` and `DeleteBody`
  calls are recorded as a sequence of events.
- **Rigid body** (`RigidBody`, `body.dfy`). `ndBody`: the process-wide id
  counter (unsigned 32-bit, so it wraps), the constructor defaults, the
  sleep and dirty flags, the centre-of-mass bookkeeping and the ownership
  of the notify callback.
- **Shape** (`Shape`, `shape.dfy`). `dShape`'s mass properties and the
  parallel-axis shift `MassProperties` performs in place.

Each source file becomes one module, and the shared descriptor is a module
of its own. `ndAnglesAdd`, the quaternion of a matrix and the matrix of a
quaternion are function-typed parameters. `D_GRANULARITY` and
`ND_MAX_STOP_ACCEL` are not defined in the files modelled here, so they are
parameters too: a constructor argument and a method argument.

## Model

| member | source | states |
|---|---|---|
| CudaHostBuffer.GrownCapacity | newton-4.00/sdk/dNewton/dExtensions/dCuda/dContext/ndCudaHostBuffer.h:123-131 | The capacity `SetCount`'s doubling loop ends with: it holds the count, never shrinks, is unchanged when the count already fits, stays below twice the larger of the count and the granularity, and is at least the granularity once anything is allocated. |
| CudaHostBuffer.ResizeAsWritten | newton-4.00/sdk/dNewton/dExtensions/dCuda/dContext/ndCudaHostBuffer.h:153-187 | `Resize` exactly as written, on the numbers: a growing request allocates `max(newSize, D_GRANULARITY)` and copies `m_size` elements; a shrinking one allocates the same and copies the new capacity; an equal one changes nothing; `m_size` is never touched. |
| CudaHostBuffer.ShrinkThenGrowOverruns | newton-4.00/sdk/dNewton/dExtensions/dCuda/dContext/ndCudaHostBuffer.h:153-187 | As written, for every full buffer of `size` elements shrunk to `newSize` with `D_GRANULARITY <= newSize < size`, and then grown to any `n` with `newSize < n < size`: the shrink leaves the count above the capacity, and the grow copies `size` elements, more than either allocation holds (see Findings). |
| CudaHostBuffer.HostBuffer.constructor | newton-4.00/sdk/dNewton/dExtensions/dCuda/dContext/ndCudaHostBuffer.h:76-84 | `SetCount(D_GRANULARITY)` then `SetCount(0)`: count 0, capacity exactly the granularity. |
| CudaHostBuffer.HostBuffer.GetCount | newton-4.00/sdk/dNewton/dExtensions/dCuda/dContext/ndCudaHostBuffer.h:117-121 | Returns the count. |
| CudaHostBuffer.HostBuffer.GetCapacity | newton-4.00/sdk/dNewton/dExtensions/dCuda/dContext/ndCudaHostBuffer.h:133-137 | Returns the capacity. |
| CudaHostBuffer.HostBuffer.At | newton-4.00/sdk/dNewton/dExtensions/dCuda/dContext/ndCudaHostBuffer.h:101-107 | Reading element `i` requires `0 <= i < m_size` and yields element `i` of the elements in use. |
| CudaHostBuffer.HostBuffer.Put | newton-4.00/sdk/dNewton/dExtensions/dCuda/dContext/ndCudaHostBuffer.h:109-115 | Writing through the reference requires `0 <= i < m_size` and changes exactly element `i` of the elements in use. |
| CudaHostBuffer.HostBuffer.SetCount | newton-4.00/sdk/dNewton/dExtensions/dCuda/dContext/ndCudaHostBuffer.h:123-131 | Afterwards the count is `count`, the capacity is `GrownCapacity` of the old one (so it is at least `count` and never decreases), and the elements kept in use are unchanged. |
| CudaHostBuffer.HostBuffer.Clear | newton-4.00/sdk/dNewton/dExtensions/dCuda/dContext/ndCudaHostBuffer.h:139-143 | The count becomes 0 and the buffer stays valid; capacity and storage are untouched. |
| CudaHostBuffer.HostBuffer.Resize | newton-4.00/sdk/dNewton/dExtensions/dCuda/dContext/ndCudaHostBuffer.h:153-187 | Growing (above the capacity, or from nothing allocated) sets the capacity to `max(newSize, D_GRANULARITY)` and keeps the count and the elements in use. Shrinking sets the same capacity and keeps the first `capacity` elements, with the count cut to the capacity (the corrected half of the finding). An equal request changes nothing. |
| CudaHostBuffer.HostBuffer.Swap | newton-4.00/sdk/dNewton/dExtensions/dCuda/dContext/ndCudaHostBuffer.h:145-151 | Exchanges count, storage and capacity with the other buffer; both stay consistent. |
| CudaHostBuffer.SwapTwice | newton-4.00/sdk/dNewton/dExtensions/dCuda/dContext/ndCudaHostBuffer.h:145-151 | `Swap` is an involution: swapping twice restores both buffers' count, storage and capacity. |
| CudaHostBuffer.BankAddressColumn | newton-4.00/sdk/dNewton/dExtensions/dCuda/dContext/ndCudaHostBuffer.h:243-249 | `GetBankAddress` keeps the address's column `a mod 32` and its row `a div 32` in the 33-wide padded layout. |
| CudaHostBuffer.BankAddress | newton-4.00/sdk/dNewton/dExtensions/dCuda/dContext/ndCudaHostBuffer.h:243-249 | `GetBankAddress` moves an address up by one padding slot per full 32-word row before it, so a non-negative address never maps below itself. |
| CudaHostBuffer.BankArrayLength | newton-4.00/sdk/dNewton/dExtensions/dCuda/dContext/ndCudaHostBuffer.h:260 | The length of `m_array`: a whole number of 33-word padded rows, at least `size` and less than `size + 32` plus one padding slot per row. |
| CudaHostBuffer.BankAddressInjective | newton-4.00/sdk/dNewton/dExtensions/dCuda/dContext/ndCudaHostBuffer.h:243-249 | `GetBankAddress` is injective. |
| CudaHostBuffer.BankAddressInRange | newton-4.00/sdk/dNewton/dExtensions/dCuda/dContext/ndCudaHostBuffer.h:243-260 | Every address below `size` maps into `m_array`, whose length is `((size + 31) >> 5) * 33`. |
| CudaHostBuffer.BankFreeArray.constructor | newton-4.00/sdk/dNewton/dExtensions/dCuda/dContext/ndCudaHostBuffer.h:239-260 | The padded array has that length. |
| CudaHostBuffer.BankFreeArray.Get | newton-4.00/sdk/dNewton/dExtensions/dCuda/dContext/ndCudaHostBuffer.h:251-257 | Reading address `a < size` reads slot `GetBankAddress(a)`, which lies inside the array. |
| CudaHostBuffer.BankFreeArray.Put | newton-4.00/sdk/dNewton/dExtensions/dCuda/dContext/ndCudaHostBuffer.h:251-257 | After a write through `operator[](a)`, address `a` reads back the new value and every other address keeps its value. |
| CudaCountingSort.CountIn | newton-4.00/sdk/dNewton/dExtensions/dCuda/dContext/ndCudaHostBuffer.h:328-340 | The number of items in a position range whose radix is `r`; at most the width of the range. |
| CudaCountingSort.HistogramTotal | newton-4.00/sdk/dNewton/dExtensions/dCuda/dContext/ndCudaHostBuffer.h:328-340 | With every radix in `[0, R)` the histogram of a range sums to the number of source items in it. |
| CudaCountingSort.Histogram | newton-4.00/sdk/dNewton/dExtensions/dCuda/dContext/ndCudaHostBuffer.h:315-340 | The local histogram loop: entry `r` counts the items of the unit's `blocksCount * 256` positions with radix `r`, skipping positions at or past the source count. |
| CudaCountingSort.CountItems | newton-4.00/sdk/dNewton/dExtensions/dCuda/dContext/ndCudaHostBuffer.h:313-347 | Requires every radix in `[0, 1 << exponentRadix)`. Writes the unit's histogram to entries `b*R .. b*R + R - 1` of the scans buffer and leaves every other entry as it was. |
| CudaCountingSort.CountItemsAssembled | newton-4.00/sdk/dNewton/dExtensions/dCuda/dContext/ndCudaHostBuffer.h:342-346 | Storing the histogram at the unit's stride gives exactly the buffer `CountItems` promises. |
| CudaCountingSort.Totals | newton-4.00/sdk/dNewton/dExtensions/dCuda/dContext/ndCudaHostBuffer.h:279-288 | The per-radix totals over all units: one entry per radix. |
| CudaCountingSort.AddPrefixResult | newton-4.00/sdk/dNewton/dExtensions/dCuda/dContext/ndCudaHostBuffer.h:266-311 | The buffer `AddPrefix` produces has the input's length: the running sums of every unit, then the scanned totals, the rest unchanged. |
| CudaCountingSort.ScanStep | newton-4.00/sdk/dNewton/dExtensions/dCuda/dContext/ndCudaHostBuffer.h:297-304 | One doubling step of the scan joins two adjacent windows of totals into one twice as wide, with zero padding below the first radix. |
| CudaCountingSort.AccumulateUnit | newton-4.00/sdk/dNewton/dExtensions/dCuda/dContext/ndCudaHostBuffer.h:281-287 | One pass of the outer loop: the unit's entries become the running sums of the earlier units, the sums take in this unit, and the offsets move on one stride. |
| CudaCountingSort.AccumulateUnits | newton-4.00/sdk/dNewton/dExtensions/dCuda/dContext/ndCudaHostBuffer.h:279-288 | After the loop every unit's entry holds the sum of the earlier units' counts for that radix, and the sums are the per-radix totals. |
| CudaCountingSort.ScanStart | newton-4.00/sdk/dNewton/dExtensions/dCuda/dContext/ndCudaHostBuffer.h:290-295 | Once the totals are loaded, each position holds a window of width one. |
| CudaCountingSort.ScanEnd | newton-4.00/sdk/dNewton/dExtensions/dCuda/dContext/ndCudaHostBuffer.h:295-305 | Once the window is as wide as the radix count, each position holds the full exclusive prefix. |
| CudaCountingSort.ScanPass | newton-4.00/sdk/dNewton/dExtensions/dCuda/dContext/ndCudaHostBuffer.h:297-304 | One pass through the `sum` buffer doubles the window every position covers. |
| CudaCountingSort.ScanTotals | newton-4.00/sdk/dNewton/dExtensions/dCuda/dContext/ndCudaHostBuffer.h:295-305 | For a power-of-two radix count, the scan turns the loaded totals into, at position `t`, the sum of the totals of all radices below `t`. |
| CudaCountingSort.LoadTotals | newton-4.00/sdk/dNewton/dExtensions/dCuda/dContext/ndCudaHostBuffer.h:290-293 | The totals go one place above the middle of the scan buffer, over the zeroed lower half. |
| CudaCountingSort.WriteTotals | newton-4.00/sdk/dNewton/dExtensions/dCuda/dContext/ndCudaHostBuffer.h:307-309 | The scanned totals go to the `R` entries after the last unit, where the offsets point; nothing else changes. |
| CudaCountingSort.AddPrefixAssembled | newton-4.00/sdk/dNewton/dExtensions/dCuda/dContext/ndCudaHostBuffer.h:266-311 | Running sums followed by scanned totals make up `AddPrefixResult`. |
| CudaCountingSort.AddPrefix | newton-4.00/sdk/dNewton/dExtensions/dCuda/dContext/ndCudaHostBuffer.h:266-311 | For a power-of-two `R <= 256` and a buffer of at least `(computeUnits + 1) * R` entries, the buffer becomes `AddPrefixResult` of the old one. |
| CudaCountingSort.BlockPartition | newton-4.00/sdk/dNewton/dExtensions/dCuda/dContext/ndCudaHostBuffer.h:1250-1254 | The driver's batch and unit counts. An empty source divides by zero, which gives no partition; otherwise the batch count is positive. |
| CudaCountingSort.BlockPartitionCovers | newton-4.00/sdk/dNewton/dExtensions/dCuda/dContext/ndCudaHostBuffer.h:1250-1255 | Only an empty source divides by zero. Otherwise between 1 and `deviceComputeUnits` units are used, together they cover every item, and the last unit is not empty. |
| CudaCountingSort.SingleDeviceUnit | newton-4.00/sdk/dNewton/dExtensions/dCuda/dContext/ndCudaHostBuffer.h:1250-1255 | With `deviceComputeUnits = 1` and at least one item, the driver uses exactly one unit. |
| CudaCountingSort.Counted | newton-4.00/sdk/dNewton/dExtensions/dCuda/dContext/ndCudaHostBuffer.h:1257-1260 | The buffer after `CountItems` has run for the first `units` units; its length is unchanged. |
| CudaCountingSort.ColumnSumCounts | newton-4.00/sdk/dNewton/dExtensions/dCuda/dContext/ndCudaHostBuffer.h:279-288 | A unit's running sum for radix `t` is the number of radix-`t` items in all earlier units. |
| CudaCountingSort.PrefixSumCounts | newton-4.00/sdk/dNewton/dExtensions/dCuda/dContext/ndCudaHostBuffer.h:295-305 | The scanned total at `t` is the number of items whose radix is below `t`. |
| CudaCountingSort.CountedScans | newton-4.00/sdk/dNewton/dExtensions/dCuda/dContext/ndCudaHostBuffer.h:1257-1265 | After both passes, unit `b`'s entry for radix `t` counts the radix-`t` items before unit `b`, entry `t` after the last unit counts the items with radix below `t`, and entries past those are unchanged. |
| CudaCountingSort.CountingSortScans | newton-4.00/sdk/dNewton/dExtensions/dCuda/dContext/ndCudaHostBuffer.h:1246-1265 | The driver without the merge pass: requires a non-empty source of the destination's length and every radix below `1 << exponentRadix`. It uses one unit; afterwards the unit's entry for radix `t` is where its first radix-`t` item goes in the sorted output (the count of radix-`t` items in earlier units), and the entries after the last unit are each bucket's base offset (the count of items whose radix is below `t`), as `CountedScans` states. An item's final position also needs its rank inside its bucket, which only the merge pass computes. |
| ConstraintDescriptor.Abs | newton-4.00/sdk/dNewton/dJoints/ndJointRoller.cpp:212-213 | `ndAbs`: non-negative and equal to `x` or `-x`. |
| ConstraintDescriptor.Min | newton-4.00/sdk/dNewton/dJoints/ndJointPdActuator.cpp:153 | `dMin`: the smaller argument. |
| ConstraintDescriptor.Max | newton-4.00/sdk/dNewton/dJoints/ndJointPdActuator.cpp:115-117 | `dMax`: the larger argument. |
| ConstraintDescriptor.Clamp | newton-4.00/sdk/dNewton/dJoints/ndJointRoller.cpp:214 | `ndClamp`: inside the bounds, the value when it is inside, the bound it crossed otherwise. |
| ConstraintDescriptor.ScaledMono | newton-4.00/sdk/dNewton/dJoints/ndJointRoller.cpp:393 | Scaling by a non-negative inverse time step keeps speeds ordered and non-negative. |
| ConstraintDescriptor.NewAngularRow | newton-4.00/sdk/dNewton/dJoints/ndJointRoller.cpp:353 | `AddAngularRowJacobian` leaves an angular row on the given axis and angle error, driven by the position error, with bounds `-/+ D_LCP_MAX_VALUE`. |
| ConstraintDescriptor.NewLinearRow | newton-4.00/sdk/dNewton/dJoints/ndJointRoller.cpp:346 | `AddLinearRowJacobian` leaves a linear row of the given axis and points, with bounds `-/+ D_LCP_MAX_VALUE`. |
| ConstraintDescriptor.Descriptor.constructor | newton-4.00/sdk/dNewton/dJoints/ndJointRoller.cpp:387-393 | A step starts with no rows; its time step is positive and `m_invTimestep` is its inverse. |
| ConstraintDescriptor.Descriptor.AddAngularRow | newton-4.00/sdk/dNewton/dJoints/ndJointRoller.cpp:353 | Appends `NewAngularRow`. |
| ConstraintDescriptor.Descriptor.AddLinearRow | newton-4.00/sdk/dNewton/dJoints/ndJointRoller.cpp:346 | Appends `NewLinearRow`. |
| ConstraintDescriptor.Descriptor.SetLowerFriction | newton-4.00/sdk/dNewton/dJoints/ndJointRoller.cpp:395 | Changes only the last row's lower bound. |
| ConstraintDescriptor.Descriptor.SetHighFriction | newton-4.00/sdk/dNewton/dJoints/ndJointRoller.cpp:405 | Changes only the last row's upper bound. |
| ConstraintDescriptor.Descriptor.SetMotorAcceleration | newton-4.00/sdk/dNewton/dJoints/ndJointRoller.cpp:394 | Changes only the last row's acceleration, to the motor value. |
| ConstraintDescriptor.Descriptor.SetMassSpringDamperAcceleration | newton-4.00/sdk/dNewton/dJoints/ndJointRoller.cpp:320 | Changes only the last row's acceleration, to the spring-damper gains. |
| ConstraintDescriptor.Descriptor.SetLastJacobian | newton-4.00/sdk/dNewton/dModels/ndMultiBodyVehicleGearBox.cpp:49-53 | Changes only the last row's Jacobian. |
| JointRoller.PenetrationOmega | newton-4.00/sdk/dNewton/dJoints/ndJointRoller.cpp:368-373 | The hinge recovery speed lies in `[0, 0.25]`, is 0 for no overshoot and saturates at 4 degrees. |
| JointRoller.PenetrationOmegaMonotone | newton-4.00/sdk/dNewton/dJoints/ndJointRoller.cpp:370-371 | `PenetrationOmega` never decreases with the overshoot. |
| JointRoller.PenetrationSpeed | newton-4.00/sdk/dNewton/dJoints/ndJointRoller.cpp:413-418 | The slider recovery speed lies in `[0, 0.5]`, is 0 for no overshoot and saturates at 0.05. |
| JointRoller.PenetrationSpeedMonotone | newton-4.00/sdk/dNewton/dJoints/ndJointRoller.cpp:415-416 | `PenetrationSpeed` never decreases with the overshoot. |
| JointRoller.AngleRecovery | newton-4.00/sdk/dNewton/dJoints/ndJointRoller.cpp:390-404 | The spin limit's `recoveringAceel` for the predicted angle: with a non-negative inverse step at most 0 below the minimum and at least 0 otherwise, and 0 whenever the predicted angle is within the limits. Its magnitude bound is `AngleRecoveryBound`. |
| JointRoller.PositRecovery | newton-4.00/sdk/dNewton/dJoints/ndJointRoller.cpp:436-450 | The same for the slide limit and the predicted position, with `PenetrationSpeed`. Its magnitude bound is `PositRecoveryBound`. |
| JointRoller.AngleRecoveryBound | newton-4.00/sdk/dNewton/dJoints/ndJointRoller.cpp:391-404 | The angle recovery term is at most `invTimestep * 0.25` in magnitude: non-positive below the minimum, non-negative above the maximum. |
| JointRoller.PositRecoveryBound | newton-4.00/sdk/dNewton/dJoints/ndJointRoller.cpp:437-450 | The slide recovery term is at most `invTimestep * 0.5` in magnitude: non-positive below the minimum, non-negative above the maximum. |
| JointRoller.AngleLimit | newton-4.00/sdk/dNewton/dJoints/ndJointRoller.cpp:375-411 | `SubmitLimitsAngle` as a function: at most one row, and never a spring-damper row. |
| JointRoller.AngleLimitCases | newton-4.00/sdk/dNewton/dJoints/ndJointRoller.cpp:377-410 | With the limit off, no row and no hit. With both limits inside one degree, one hard row and a hit. Otherwise a row appears exactly when the predicted angle `m_angle + m_omega * timestep` leaves the range: lower bound 0 below it, upper bound 0 above it, the stop acceleration minus the recovery term, and a hit exactly when `abs(stopAccel) > ND_MAX_STOP_ACCEL`. No row means no hit. |
| JointRoller.PositLimit | newton-4.00/sdk/dNewton/dJoints/ndJointRoller.cpp:420-457 | `SubmitLimitsPosit` as a function: at most one row, and never a spring-damper row. |
| JointRoller.PositLimitCases | newton-4.00/sdk/dNewton/dJoints/ndJointRoller.cpp:422-456 | With the limit off, no row and no hit. With both limits exactly 0, one hard linear row and a hit. Otherwise the same below/above/inside pattern on `m_posit + m_speed * timestep`, including the anchors of the row's second point. |
| JointRoller.AngleLimitRecoveryBound | newton-4.00/sdk/dNewton/dJoints/ndJointRoller.cpp:387-407 | The angle limit row's acceleration is at least the stop acceleration below the minimum and at most it above the maximum, by no more than `invTimestep * 0.25`. |
| JointRoller.PositLimitRecoveryBound | newton-4.00/sdk/dNewton/dJoints/ndJointRoller.cpp:432-453 | The same for the slide limit, with `invTimestep * 0.5`. |
| JointRoller.PositLimitAlongBaseAxis | newton-4.00/sdk/dNewton/dJoints/ndJointRoller.cpp:420-457 | As written, every slide-limit row acts along the parent's front axis, the axis of the first base row (line 346), not along the up axis that the slide position (line 343) and the slide spring (lines 326-327) use. |
| JointRoller.BaseRows | newton-4.00/sdk/dNewton/dJoints/ndJointRoller.cpp:346-356 | Four rows driven by the position error, in the fixed order linear, linear, angular, angular. |
| JointRoller.AngleSpringRow | newton-4.00/sdk/dNewton/dJoints/ndJointRoller.cpp:316-321 | The spin spring row acts about the child's front axis with error `m_offsetAngle - m_angle` and the angle gains. |
| JointRoller.PositSpringRow | newton-4.00/sdk/dNewton/dJoints/ndJointRoller.cpp:323-329 | The slide spring row is linear along the parent's up axis, towards the point `m_offsetPosit` along it, with the slide gains. |
| JointRoller.RollerRows | newton-4.00/sdk/dNewton/dJoints/ndJointRoller.cpp:459-485 | One step appends between 4 and 8 rows, the count declared at construction, and the first four are the base rows. |
| JointRoller.RollerRowsGating | newton-4.00/sdk/dNewton/dJoints/ndJointRoller.cpp:466-484 | The spring-damper rows of a step are exactly those of axes whose limit call reported no hit and whose spring or damper is positive. The row count is the base rows plus the limit rows plus the gated spring rows. |
| JointRoller.LimitedAngle | newton-4.00/sdk/dNewton/dJoints/ndJointRoller.cpp:182-191 | An angle already inside the new limits is kept, and it is also kept whenever `ndAnglesAdd` adds exactly. |
| JointRoller.Roller.constructor | newton-4.00/sdk/dNewton/dJoints/ndJointRoller.cpp:24-45 | Everything zero, limits at `-/+1e10`, regularizers 0.1, both limit switches off. |
| JointRoller.Roller.GetAngle | newton-4.00/sdk/dNewton/dJoints/ndJointRoller.cpp:151-154 | Returns the spin angle `m_angle` the last `JacobianDerivative` measured. |
| JointRoller.Roller.GetOmega | newton-4.00/sdk/dNewton/dJoints/ndJointRoller.cpp:156-159 | Returns the spin rate `m_omega` the last `JacobianDerivative` measured. |
| JointRoller.Roller.GetLimitStateAngle | newton-4.00/sdk/dNewton/dJoints/ndJointRoller.cpp:161-164 | Returns the spin limit switch of the angle configuration. |
| JointRoller.Roller.GetLimitsAngle | newton-4.00/sdk/dNewton/dJoints/ndJointRoller.cpp:194-198 | Returns both spin limits of the angle configuration; in a valid roller `min <= 0 <= max`. |
| JointRoller.Roller.GetOffsetAngle | newton-4.00/sdk/dNewton/dJoints/ndJointRoller.cpp:200-203 | Returns the spin spring offset of the angle configuration. |
| JointRoller.Roller.GetSpringDamperAngle | newton-4.00/sdk/dNewton/dJoints/ndJointRoller.cpp:217-222 | Returns regularizer, spring and damper of the spin axis; in a valid roller the regularizer lies in [0.01, 0.99] and the gains are non-negative. |
| JointRoller.Roller.GetPosit | newton-4.00/sdk/dNewton/dJoints/ndJointRoller.cpp:224-227 | Returns the slide position `m_posit` the last `JacobianDerivative` measured. |
| JointRoller.Roller.GetOffsetPosit | newton-4.00/sdk/dNewton/dJoints/ndJointRoller.cpp:229-232 | Returns the slide spring offset of the slide configuration. |
| JointRoller.Roller.GetLimitStatePosit | newton-4.00/sdk/dNewton/dJoints/ndJointRoller.cpp:239-242 | Returns the slide limit switch of the slide configuration. |
| JointRoller.Roller.GetLimitsPosit | newton-4.00/sdk/dNewton/dJoints/ndJointRoller.cpp:257-261 | Returns both slide limits of the slide configuration; in a valid roller `min <= 0 <= max`. |
| JointRoller.Roller.GetSpringDamperPosit | newton-4.00/sdk/dNewton/dJoints/ndJointRoller.cpp:270-275 | Returns regularizer, spring and damper of the slide axis; in a valid roller the regularizer lies in [0.01, 0.99] and the gains are non-negative. |
| JointRoller.Roller.SetLimitsAngle | newton-4.00/sdk/dNewton/dJoints/ndJointRoller.cpp:175-192 | Requires `min <= 0 <= max`. Stores both bounds, keeps an angle already inside them, and changes nothing else. |
| JointRoller.Roller.SetLimitStateAngle | newton-4.00/sdk/dNewton/dJoints/ndJointRoller.cpp:166-173 | Stores the switch; switching on re-applies the stored limits to the angle. |
| JointRoller.Roller.SetLimitStatePosit | newton-4.00/sdk/dNewton/dJoints/ndJointRoller.cpp:244-247 | Stores the switch. |
| JointRoller.Roller.SetLimitsPosit | newton-4.00/sdk/dNewton/dJoints/ndJointRoller.cpp:249-255 | Requires `min <= 0 <= max` and stores both bounds. |
| JointRoller.Roller.SetOffsetAngle | newton-4.00/sdk/dNewton/dJoints/ndJointRoller.cpp:205-208 | Stores the offset. |
| JointRoller.Roller.SetOffsetPosit | newton-4.00/sdk/dNewton/dJoints/ndJointRoller.cpp:234-237 | Stores the offset. |
| JointRoller.Roller.SetAsSpringDamperAngle | newton-4.00/sdk/dNewton/dJoints/ndJointRoller.cpp:210-215 | Stores `abs(spring)` and `abs(damper)` and clamps the regularizer into `[0.01, 0.99]`. |
| JointRoller.Roller.SetAsSpringDamperPosit | newton-4.00/sdk/dNewton/dJoints/ndJointRoller.cpp:263-268 | Stores `abs(spring)` and `abs(damper)` and clamps the regularizer into `[0.01, 0.99]`. |
| JointRoller.Roller.SubmitSpringDamperAngle | newton-4.00/sdk/dNewton/dJoints/ndJointRoller.cpp:316-321 | Appends `AngleSpringRow`. |
| JointRoller.Roller.SubmitSpringDamperPosit | newton-4.00/sdk/dNewton/dJoints/ndJointRoller.cpp:323-329 | Appends `PositSpringRow`. |
| JointRoller.Roller.ApplyBaseRows | newton-4.00/sdk/dNewton/dJoints/ndJointRoller.cpp:331-366 | Appends the base rows, stores the measured slide speed, position and spin rate, and advances the angle by the wrapped difference. |
| JointRoller.Roller.SubmitLimitsAngle | newton-4.00/sdk/dNewton/dJoints/ndJointRoller.cpp:375-411 | Appends the rows of `AngleLimit` and returns its hit flag. |
| JointRoller.Roller.SubmitLimitsPosit | newton-4.00/sdk/dNewton/dJoints/ndJointRoller.cpp:420-457 | Appends the rows of `PositLimit` and returns its hit flag. |
| JointRoller.Roller.JacobianDerivative | newton-4.00/sdk/dNewton/dJoints/ndJointRoller.cpp:459-485 | Appends `RollerRows` for the joint state that `ApplyBaseRows` leaves. |
| JointPdActuator.ClampGains | newton-4.00/sdk/dNewton/dJoints/ndJointPdActuator.cpp:113-118 | `dMax(x, 0)` on spring, damper and regularizer: each is non-negative, kept when non-negative, and 0 otherwise. |
| JointPdActuator.ConeLimit | newton-4.00/sdk/dNewton/dJoints/ndJointPdActuator.cpp:151-154 | `dMin(abs(x), 0.999 * 120 degrees)`: in `[0, 120 degrees)`, at most `abs(x)`, and equal to the request or the cap. |
| JointPdActuator.PdRecoverySpeed | newton-4.00/sdk/dNewton/dJoints/ndJointPdActuator.cpp:322 | The recovery speed lies in `[0, 0.1]`, is 0 for no overshoot and saturates at ten degrees. |
| JointPdActuator.PdRecoverySpeedMonotone | newton-4.00/sdk/dNewton/dJoints/ndJointPdActuator.cpp:322 | The recovery speed grows with the overshoot on either side. |
| JointPdActuator.RecoveryProduct | newton-4.00/sdk/dNewton/dJoints/ndJointPdActuator.cpp:321-332 | The source's product `invTimestep * 0.1 * min(abs(p / limit), 1)` is the scaled recovery speed, with either sign. |
| JointPdActuator.TwistRecovery | newton-4.00/sdk/dNewton/dJoints/ndJointPdActuator.cpp:321-331 | The twist limit's `recoveringAceel`: with a non-negative inverse step it is at most 0 below the minimum and at least 0 at or above the maximum, so the row pushes back inside; it is 0 exactly at the maximum. Its magnitude bound is `TwistRecoveryBound`. |
| JointPdActuator.ConeRecovery | newton-4.00/sdk/dNewton/dJoints/ndJointPdActuator.cpp:352-353 | The cone limit's `recoveringAceel`: never negative for a non-negative inverse step, and 0 exactly at the cone limit. Its upper bound is `ConeRecoveryBound`. |
| JointPdActuator.TwistRecoveryBound | newton-4.00/sdk/dNewton/dJoints/ndJointPdActuator.cpp:317-334 | The twist recovery term is at most `invTimestep * 0.1` in magnitude: non-positive below the minimum, non-negative at or above the maximum. |
| JointPdActuator.ConeRecoveryBound | newton-4.00/sdk/dNewton/dJoints/ndJointPdActuator.cpp:351-354 | The cone recovery term lies in `[0, invTimestep * 0.1]`. |
| JointPdActuator.TwistLimitRows | newton-4.00/sdk/dNewton/dJoints/ndJointPdActuator.cpp:307-336 | `SubmitTwistLimits` appends at most one row. |
| JointPdActuator.TwistLimitCases | newton-4.00/sdk/dNewton/dJoints/ndJointPdActuator.cpp:309-335 | A range narrower than two degrees gives one row with lower bound `0.1 * D_LCP_MAX_VALUE`. Otherwise a row appears exactly when `angle < min` (lower bound 0) or `angle >= max` (upper bound 0), with the stop acceleration minus the recovery term. |
| JointPdActuator.TwistLimitRecoveryBound | newton-4.00/sdk/dNewton/dJoints/ndJointPdActuator.cpp:317-334 | The twist row's acceleration departs from the stop acceleration by at most `invTimestep * 0.1`: upwards below the minimum, downwards at or above the maximum. |
| JointPdActuator.ConeLimitRows | newton-4.00/sdk/dNewton/dJoints/ndJointPdActuator.cpp:348-356 | One row exactly when the cone angle exceeds the limit, about the lateral direction, with upper bound 0 and the stop acceleration minus the recovery term. |
| JointPdActuator.ConeLimitRecoveryBound | newton-4.00/sdk/dNewton/dJoints/ndJointPdActuator.cpp:351-355 | The cone row's acceleration lies within `invTimestep * 0.1` below the stop acceleration. |
| JointPdActuator.PdRotationRows | newton-4.00/sdk/dNewton/dJoints/ndJointPdActuator.cpp:363-406 | Exactly three angular rows with the cone gains, in both branches: about the rotation pin's basis, or about the parent axes when the relative rotation is negligible. |
| JointPdActuator.LinearLimitRows | newton-4.00/sdk/dNewton/dJoints/ndJointPdActuator.cpp:408-442 | Exactly three linear rows. |
| JointPdActuator.LinearLimitCases | newton-4.00/sdk/dNewton/dJoints/ndJointPdActuator.cpp:410-441 | A zero regularizer gives no spring-damped row; a pivot error within 1 cm gives three spring-damped rows along the parent axes; a larger error gives only the third row, along the error direction, spring-damped. |
| JointPdActuator.CartesianRotationRows | newton-4.00/sdk/dNewton/dJoints/ndJointPdActuator.cpp:284-302 | The Cartesian path's rotation part is three rows. |
| JointPdActuator.CartesianRows | newton-4.00/sdk/dNewton/dJoints/ndJointPdActuator.cpp:280-305 | The Cartesian path appends three or four rows. |
| JointPdActuator.SwingRows | newton-4.00/sdk/dNewton/dJoints/ndJointPdActuator.cpp:338-361 | The swing path appends three to five rows. |
| JointPdActuator.PdRows | newton-4.00/sdk/dNewton/dJoints/ndJointPdActuator.cpp:444-468 | The rows one `JacobianDerivative` appends: 3 to 8 rows, the first three being the linear limit rows, and only those when the twist regularizer is 0. The path choice is `PdRowsCases`, the two paths `CartesianRows` and `SwingRows`. |
| JointPdActuator.PdRowsCases | newton-4.00/sdk/dNewton/dJoints/ndJointPdActuator.cpp:444-469 | The linear rows always come first. A zero twist regularizer adds no angular row. Otherwise a front-axis cosine of at least 0.998 picks the Cartesian path and anything below picks the swing path. At most 8 rows, the count declared at construction. |
| JointPdActuator.CartesianHinge | newton-4.00/sdk/dNewton/dJoints/ndJointPdActuator.cpp:284-304 | At or beyond the cone limit the Cartesian path is a hinge: one cone-sprung row about the child's front axis, two hard rows about the parent's up and right axes, then the twist limit. |
| JointPdActuator.PdActuator.constructor | newton-4.00/sdk/dNewton/dJoints/ndJointPdActuator.cpp:25-41 | Limits wide open, angular gains 1000 / 50 / 0.005, linear gains zero. |
| JointPdActuator.PdActuator.GetConeAngleSpringDamperRegularizer | newton-4.00/sdk/dNewton/dJoints/ndJointPdActuator.cpp:106-111 | Returns the cone gains. |
| JointPdActuator.PdActuator.GetTwistAngleSpringDamperRegularizer | newton-4.00/sdk/dNewton/dJoints/ndJointPdActuator.cpp:120-125 | Returns the twist gains. |
| JointPdActuator.PdActuator.GetLinearSpringDamperRegularizer | newton-4.00/sdk/dNewton/dJoints/ndJointPdActuator.cpp:167-172 | Returns the linear gains. |
| JointPdActuator.PdActuator.GetTwistLimits | newton-4.00/sdk/dNewton/dJoints/ndJointPdActuator.cpp:140-144 | Returns both twist limits. |
| JointPdActuator.PdActuator.GetMaxConeAngle | newton-4.00/sdk/dNewton/dJoints/ndJointPdActuator.cpp:146-149 | Returns the cone limit. |
| JointPdActuator.PdActuator.SetConeAngleSpringDamperRegularizer | newton-4.00/sdk/dNewton/dJoints/ndJointPdActuator.cpp:113-118 | Stores `ClampGains` as the cone gains; nothing else changes. |
| JointPdActuator.PdActuator.SetTwistAngleSpringDamperRegularizer | newton-4.00/sdk/dNewton/dJoints/ndJointPdActuator.cpp:127-132 | Stores `ClampGains` as the twist gains; nothing else changes. |
| JointPdActuator.PdActuator.SetLinearSpringDamperRegularizer | newton-4.00/sdk/dNewton/dJoints/ndJointPdActuator.cpp:174-179 | Stores `ClampGains` as the linear gains; nothing else changes. |
| JointPdActuator.PdActuator.SetTwistLimits | newton-4.00/sdk/dNewton/dJoints/ndJointPdActuator.cpp:134-138 | Stores `-abs(min) <= 0` and `abs(max) >= 0`; nothing else changes. |
| JointPdActuator.PdActuator.SetConeLimit | newton-4.00/sdk/dNewton/dJoints/ndJointPdActuator.cpp:151-154 | Stores `ConeLimit`; nothing else changes. |
| JointPdActuator.PdActuator.RestPoseWithinLimits | newton-4.00/sdk/dNewton/dJoints/ndJointPdActuator.cpp:134-154 | In an actuator whose limits came from the setters, a zero cone angle gets no cone limit row, and a zero twist angle gets no twist limit row when the twist range is wide and its maximum is positive. |
| JointPdActuator.PdActuator.SubmitTwistLimits | newton-4.00/sdk/dNewton/dJoints/ndJointPdActuator.cpp:307-336 | Appends `TwistLimitRows`. |
| JointPdActuator.PdActuator.SubmitPdRotation | newton-4.00/sdk/dNewton/dJoints/ndJointPdActuator.cpp:363-406 | Appends `PdRotationRows`. |
| JointPdActuator.PdActuator.SubmitLinearLimits | newton-4.00/sdk/dNewton/dJoints/ndJointPdActuator.cpp:408-442 | Appends `LinearLimitRows`. |
| JointPdActuator.PdActuator.SubmitAngularAxisCartesianApproximation | newton-4.00/sdk/dNewton/dJoints/ndJointPdActuator.cpp:280-305 | Appends `CartesianRows`. |
| JointPdActuator.PdActuator.SubmitAngularAxis | newton-4.00/sdk/dNewton/dJoints/ndJointPdActuator.cpp:338-361 | Appends `SwingRows`. |
| JointPdActuator.PdActuator.JacobianDerivative | newton-4.00/sdk/dNewton/dJoints/ndJointPdActuator.cpp:444-469 | Appends `PdRows` for the current configuration. |
| VehicleGearBox.MotorSideOmega | newton-4.00/sdk/dNewton/dModels/ndMultiBodyVehicleGearBox.cpp:60-62 | The motor side's `w1 = min(omega1 . front1 + 0.9 * idleOmega, 0)`, where body 1 is the motor (line 30), so `w1 <= 0`. |
| VehicleGearBox.GearAccel | newton-4.00/sdk/dNewton/dModels/ndMultiBodyVehicleGearBox.cpp:60-67 | The gear row's motor acceleration `-(w0 + w1) / 2 * invTimestep`: since the motor side never contributes a positive spin, it is never negative while the differential side does not turn forwards along the ratio-scaled axis (non-negative inverse step). Its sign law is `GearAccelOpposes`. |
| VehicleGearBox.GearAccelOpposes | newton-4.00/sdk/dNewton/dModels/ndMultiBodyVehicleGearBox.cpp:61-67 | With a positive inverse step, the motor acceleration `-(w0 + w1) / 2 * invTimestep` is positive exactly when the coupled spin is negative, and zero exactly when it is zero. |
| VehicleGearBox.GearRows | newton-4.00/sdk/dNewton/dModels/ndMultiBodyVehicleGearBox.cpp:39-71 | No row when `abs(ratio) <= 0.1`. Otherwise exactly one row: body-0 axis the front scaled by the ratio, body-1 axis the front, that motor acceleration, and bounds `[-1000, 1000]`. |
| VehicleGearBox.GearBox.constructor | newton-4.00/sdk/dNewton/dModels/ndMultiBodyVehicleGearBox.cpp:29-35 | The ratio is 0, so a fresh gear box contributes no rows. |
| VehicleGearBox.GearBox.SetRatio | newton-4.00/sdk/dNewton/dModels/ndMultiBodyVehicleGearBox.cpp:33 | Stores the ratio. |
| VehicleGearBox.GearBox.GetRatio | newton-4.00/sdk/dNewton/dModels/ndMultiBodyVehicleGearBox.cpp:39 | Returns the ratio. |
| VehicleGearBox.GearBox.JacobianDerivative | newton-4.00/sdk/dNewton/dModels/ndMultiBodyVehicleGearBox.cpp:37-72 | Appends `GearRows` for the current ratio. |
| RigidBody.TransformIdentity | newton-4.00/sdk/dCollision/ndBody.cpp:32-36 | The identity frame maps every point with w = 1, among them the default centre of mass `(0, 0, 0, 1)`, to itself. |
| RigidBody.RotateIgnoresOrigin | newton-4.00/sdk/dCollision/ndBody.cpp:128-129 | `RotateVector` ignores the frame's origin. |
| RigidBody.PlacedOrigin | newton-4.00/sdk/dCollision/ndBody.cpp:129 | Choosing the origin as the global centre of mass minus the rotated local one makes the frame map the local centre of mass onto the global one. |
| RigidBody.NextId | newton-4.00/sdk/dCollision/ndBody.cpp:54 | The unsigned 32-bit counter's increment: one more, wrapping to 0 at `2^32`. |
| RigidBody.IdAfter | newton-4.00/sdk/dCollision/ndBody.cpp:42 | The id of the `k`-th body built from a counter value is below `2^32`. |
| RigidBody.IdAfterIsShift | newton-4.00/sdk/dCollision/ndBody.cpp:42-54 | The `k`-th id is the start plus `k`, modulo `2^32`. |
| RigidBody.IdsDistinct | newton-4.00/sdk/dCollision/ndBody.cpp:42-54 | Up to `2^32` bodies constructed in a row all receive different ids. |
| RigidBody.IdCounter.constructor | newton-4.00/sdk/dCollision/ndBody.cpp:28 | The counter starts at 0. |
| RigidBody.Notify.constructor | newton-4.00/sdk/dCollision/ndBody.cpp:87 | A fresh notify callback has no body. |
| RigidBody.Body.constructor | newton-4.00/sdk/dCollision/ndBody.cpp:30-56 | Takes the counter's value as the id, and the counter advances. Identity frame, zero velocities, centre of mass `(0, 0, 0, 1)`, awake with `autoSleep`, `sceneForceUpdate` and `transformIsDirty` set and every other flag clear. |
| RigidBody.Body.SetCentreOfMass | newton-4.00/sdk/dCollision/ndBody.cpp:67-74 | Copies x, y and z, forces w to 1, and sets the global centre of mass to the frame applied to it. |
| RigidBody.Body.SetNotifyCallback | newton-4.00/sdk/dCollision/ndBody.cpp:76-90 | The same callback changes nothing. A different one is stored, the old one is deleted when there was one, and a new non-null one gets its back pointer set. |
| RigidBody.Body.SetOmegaNoSleep | newton-4.00/sdk/dCollision/ndBody.cpp:92-95 | Stores the angular velocity only. |
| RigidBody.Body.SetOmega | newton-4.00/sdk/dCollision/ndBody.cpp:97-101 | Stores the angular velocity and clears equilibrium. |
| RigidBody.Body.SetVelocityNoSleep | newton-4.00/sdk/dCollision/ndBody.cpp:103-106 | Stores the velocity only. |
| RigidBody.Body.SetVelocity | newton-4.00/sdk/dCollision/ndBody.cpp:108-112 | Stores the velocity and clears equilibrium. |
| RigidBody.Body.SetMatrixNoSleep | newton-4.00/sdk/dCollision/ndBody.cpp:114-121 | Stores the frame and its quaternion and recomputes the global centre of mass; no flag changes. |
| RigidBody.Body.SetMatrixAndCentreOfMass | newton-4.00/sdk/dCollision/ndBody.cpp:123-130 | Stores the rotation and global centre of mass and places the frame's origin so that the local centre of mass lands on it. |
| RigidBody.Body.SetMatrix | newton-4.00/sdk/dCollision/ndBody.cpp:132-138 | `SetMatrixNoSleep`, clearing equilibrium and setting `transformIsDirty` and `sceneForceUpdate`. |
| PhysicsWorld.Discard | newton-4.00/applications/ndSandbox/ndPhysicsWorld.cpp:132-138 | Above `step * MAX_PHYSICS_STEPS` the accumulator lands in `[step * max, step * (max + 1))`; otherwise it is unchanged; it never grows. |
| PhysicsWorld.Drain | newton-4.00/applications/ndSandbox/ndPhysicsWorld.cpp:140-146 | The stepping loop loses no time, leaves at most one step, and runs only while more than one step is accumulated. |
| PhysicsWorld.Advance | newton-4.00/applications/ndSandbox/ndPhysicsWorld.cpp:125-146 | One `AdvanceTime` on the numbers: after the discard, the accumulated time equals what remains plus one step per update, so the stepping loses nothing. Its bounds are `AdvanceBounds` and `AdvanceKeepsTime`. |
| PhysicsWorld.AdvanceBounds | newton-4.00/applications/ndSandbox/ndPhysicsWorld.cpp:125-146 | One `AdvanceTime` runs at most `MAX_PHYSICS_STEPS` updates and leaves at most one step accumulated. The accumulator stays non-negative when it and the frame time start so. |
| PhysicsWorld.AdvanceKeepsTime | newton-4.00/applications/ndSandbox/ndPhysicsWorld.cpp:130-146 | Within the budget, nothing is thrown away. |
| PhysicsWorld.DeletionEvents | newton-4.00/applications/ndSandbox/ndPhysicsWorld.cpp:117-120 | One `DeleteBody` per queued body, in queue order. |
| PhysicsWorld.StepEvents | newton-4.00/applications/ndSandbox/ndPhysicsWorld.cpp:140-146 | `n` iterations are `n` updates, each of step `1/60`. The deletions follow the first update only. |
| PhysicsWorld.World.constructor | newton-4.00/applications/ndSandbox/ndPhysicsWorld.cpp:71-82 | Zero accumulator, empty queue, flag clear. |
| PhysicsWorld.World.QueueBodyForDelete | newton-4.00/applications/ndSandbox/ndPhysicsWorld.cpp:104-109 | Raises the flag and appends the body at the end of the queue; nothing else changes. |
| PhysicsWorld.World.Update | newton-4.00/applications/ndSandbox/ndPhysicsWorld.cpp:142 | Records one world update. |
| PhysicsWorld.World.DeletePendingObjects | newton-4.00/applications/ndSandbox/ndPhysicsWorld.cpp:111-123 | When pending, deletes each queued body once in queue order, then empties the queue and clears the flag. When not pending, changes nothing. |
| PhysicsWorld.World.DiscardExcessSteps | newton-4.00/applications/ndSandbox/ndPhysicsWorld.cpp:132-138 | The accumulator becomes `Discard` of its old value. |
| PhysicsWorld.World.AdvanceTime | newton-4.00/applications/ndSandbox/ndPhysicsWorld.cpp:125-146 | The accumulator and the recorded calls are those of `Advance` and `StepEvents`: the queue is drained after every update, and stays as it was when no update runs. |
| Shape.ParallelAxisShift | newton-4.00/sdk/dNewton/dShape.cpp:145-161 | The update `MassProperties` applies: the unit-mass parallel-axis term of the centre of mass is added, so the trace of the inertia grows by twice the squared distance. Per-entry effects are `ShiftDiagonal` and `ShiftByRows`. |
| Shape.ParallelAxisUnshift | newton-4.00/sdk/dNewton/dShape.cpp:145-161 | The inverse update: the same term is subtracted, so the trace shrinks by twice the squared distance; `ShiftRoundTrip` proves the two undo each other. |
| Shape.ShiftDiagonal | newton-4.00/sdk/dNewton/dShape.cpp:145-158 | Each diagonal inertia entry grows by the squared distance of the centre of mass from that axis; the w components are kept. |
| Shape.ShiftRoundTrip | newton-4.00/sdk/dNewton/dShape.cpp:131-161 | Adding the parallel-axis term `(d . d) E - d d^T` and subtracting it again undo each other, in either order. |
| Shape.ShiftAtOrigin | newton-4.00/sdk/dNewton/dShape.cpp:145-161 | A centre of mass at the origin leaves inertia and cross inertia unchanged. |
| Shape.ShiftEven | newton-4.00/sdk/dNewton/dShape.cpp:145-161 | Only the axis counts: the opposite centre of mass gives the same shift. |
| Shape.ShiftedDiagonalPositive | newton-4.00/sdk/dNewton/dShape.cpp:153 | The diagonal never decreases, so the debug check holds whenever the original diagonal is positive. |
| Shape.ShiftByRows | newton-4.00/sdk/dNewton/dShape.cpp:134-161 | Updating the symmetric matrix row by row and reading the lower triangle back is the parallel-axis shift: the cross terms become `c0 - y*z`, `c1 - x*z` and `c2 - x*y`. |
| Shape.Shape.constructor | newton-4.00/sdk/dNewton/dShape.cpp:96-108 | Every property vector zero, reference count 0. |
| Shape.Shape.Copy | newton-4.00/sdk/dNewton/dShape.cpp:110-122 | Copies the five property vectors; reference count 0. |
| Shape.Shape.MassProperties | newton-4.00/sdk/dNewton/dShape.cpp:129-161 | Inertia and cross inertia become `ParallelAxisShift` of the old values: the unit-mass parallel-axis term of the centre of mass is added, which carries an inertia about the centre of mass to one about the origin (the source comment at line 131 names the opposite direction). Nothing else changes. |

## Left out

- CUDA runtime calls are not modelled because they are foreign memory transfers. This covers `cudaMallocHost`, `cudaMemcpy*`, `cudaFreeHost`, their status checks and streams, and `ReadData`/`WriteData`. A pinned allocation is a fresh Dafny array, and a device-to-device copy is an element-wise copy.
- `ndCudaHostBuffer`'s destructor is not modelled because Dafny has no destructors.
- `ndCountingSort`'s `MergeBuckects` pass is left out. Its enabled variant computes local scans but never writes the destination buffer, and the other variants are compiled out. `CudaCountingSort.CountingSortScans` therefore stops after `AddPrefix`.
- The key evaluator's `GetRadix` is a function parameter.
- The driver's count checks at lines 1246-1247 become a precondition. So does the non-empty source, because with no items the block arithmetic divides by zero; `CudaCountingSort.BlockPartition` models that case as `None`.
- `ndMatrix`, `ndQuaternion` and the trigonometry are not part of this model. This covers `CalculateGlobalMatrix`, `CalculateAngle`, `dAcos`, `dAtan2`, quaternion products and the basis built around a pin. Their results enter as the fields of the per-joint geometry records, and `ndAnglesAdd` is a function parameter.
- `GetMotorZeroAcceleration` is not modelled: its value is a stop acceleration in those geometry records.
- The base-class row helpers are modelled as the `ConstraintDescriptor` rows. Their numeric Jacobian entries are not computed; a row records the axis and points it was given.
- Floating-point rounding is not modelled: `ndFloat32` is `real`. `ndPi` is the library's literal 3.141592.
- 32-bit integer widths are not modelled; counts and indices are unbounded. Only `m_uniqueIdCount` wraps, since it is unsigned and its wrap decides when ids repeat.
- Joint XML `Save` and the loading constructors are left out, as persistence. So is `DebugJoint`, which only draws.
- `ndJointPdActuator`'s `GetTargetPosition`, `SetTargetPosition`, `GetTargetMatrix` and `SetTargetMatrix` are left out. They only move the parent frame, which enters through the geometry record.
- The debug assertions at ndJointPdActuator.cpp lines 286 and 343 are not modelled. The first, a zero cone limit on the hinge path, is not implied by the rows; the second bounds a vector this model does not compute.
- The gear joint base class `ndJointGear` is not part of this model, beyond the ratio it stores.
- Concurrency is left out: the spin lock and atomic flag of `ndPhysicsWorld` and its `Sync()` calls, including the one at lines 147-150. The queue is modelled sequentially.
- `ndWorld::Update` and `DeleteBody` are not part of this model; each call is recorded as an event.
- `LoadScene`, `OnPostUpdate`, the settings class and the sound manager are left out as application glue.
- `ndBody`'s destructor and its debug assertion are left out, because Dafny has no destructors. `RigidBody.Body.SetNotifyCallback` records the callbacks it deletes in a ghost list instead.
- `TestOrthogonal` and the unit-quaternion check are left out; they are debug assertions on geometry.
- `dShape`'s destructor assertion that the reference count is 0 is not modelled, because Dafny has no destructors.
- The `dShapeID` argument of `dShape`'s constructor is ignored; nothing in the modelled code reads it.
- `Shape.Shape.MassProperties` does not model the debug check at line 153 inside the method. It is proved separately by `Shape.ShiftedDiagonalPositive`.
- `CudaHostBuffer.HostBuffer.Resize` cuts the count to the new capacity on a shrink, where the source leaves `m_size` as it was. This is the corrected half of the finding below; `CudaHostBuffer.ResizeAsWritten` keeps the source's behaviour.
- `CudaHostBuffer.BankFreeArray.Get` and `Put` require `address < size`. The source's `operator[]` does not check the address, and an address at or past `size` can fall outside `m_array`; the model only covers addresses within the declared size.
- `CudaHostBuffer.HostBuffer.SetCount` takes a `nat` where the source takes an `int`. A negative count in the source skips the loop and stores a negative `m_size`; the model cannot express that state, since its count is never negative.
- `JointRoller.LimitedAngle` states only when the angle is kept, because the rest depends on `ndAnglesAdd`, which is a parameter.

## Findings

| source | as written | input that shows it | evidently intended | confidence | as-written member | corrected member |
|---|---|---|---|---|---|---|
| newton-4.00/sdk/dNewton/dExtensions/dCuda/dContext/ndCudaHostBuffer.h:173-187 | A shrinking `Resize` replaces the allocation with `max(newSize, D_GRANULARITY)` elements but leaves `m_size` unchanged, so the count can exceed the capacity. The next growing `Resize` copies `m_size` elements out of the smaller allocation into the new one. | A full buffer with count and capacity 100 and `D_GRANULARITY <= 50`: `Resize(50)` leaves count 100 and capacity 50, then `Resize(60)` copies 100 elements from a 50-element allocation into a 60-element one. | A shrink keeps at most the new capacity's worth of elements in use, so the count never exceeds the capacity. | not executed | CudaHostBuffer.ShrinkThenGrowOverruns | CudaHostBuffer.HostBuffer.Resize |
