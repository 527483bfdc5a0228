# FFV-C index, sampling and helper layer in Dafny

This project models the integer-index and geometry layer of FFV-C (Frontflow/violet
Cartesian), a Cartesian-grid flow solver, together with a few small helpers around it.
It proves properties of the model.

- `fb_utility.dfy`, module `FBUtility`:
  - the dimensional ↔ non-dimensional conversions of `FBUtility` (temperature, velocity,
    heat source, pressure);
  - the Fortran-order 3D → 1D index maps with guide cells (scalar, 3-wide vector,
    6-wide cut information, 2-word boundary ID).
- `file_io.dfy`, module `FileIO`: `CalcIndex`, which reconciles the guide-cell widths of a
  source and a destination field. It uses the source's unsigned 32-bit arithmetic, with the
  wrap-around written out.
- `sampling.dfy`, module `FlowSampling`: the monitor-point sampling scaffold.
  - The `Sampling` base class turns a coordinate into a 1-based cell index and checks the
    cell against the sampling mode (all / fluid only / solid only). It also does the cell
    lookups and computes the total pressure.
  - The corner and face shift helpers give the 2×2×2 trilinear stencil and the six face
    neighbours.
  - The three strategies are `Nearest`, `Smoothing` (its `permitToAdd`) and
    `Interpolation` (its `checkBoundary` and the `onBoundary` fallback to the
    containing cell's value, for scalars and for velocity).
- `fill_bid.dfy`, module `FillBid`: one step of the boundary-ID flood fill. An unpainted
  cell takes the target ID when a face neighbour already carries it and the shared face
  has no boundary ID. The step respects the per-axis domain-edge switches.
- `vec3f.dfy`, module `Vec3f`: the 3-vector helpers on `float[3]`, as methods on
  `array<real>`. They are proved against pure functions on `seq<real>`, aliasing included.
- `iteration_control.dfy`, module `IterationControl`: the linear-solver iteration record
  `IterationCtl`, with its constructor, setters, loop counter and strict convergence tests.
- `real_arith.dfy`, module `RealArith`: small lemmas about real multiplication and division
  used by the other modules.

`REAL_TYPE` and `float` are modelled as Dafny `real`, so no claim about rounding is made.
The macros and constants defined in headers outside this model are handled as follows:
- `IS_FLUID`, `DECODE_CMP`, `getBit5` and `setBitID` are parameters, i.e. uninterpreted
  functions.
- The following come from FB_Define.h, which is not part of this model, so their values
  are assumptions of the model rather than facts read from the source:
  - `_F_IDX_S3D` and `_F_IDX_V3D` are taken to be `getFindexS3D` and `getFindexV3DEx`.
    The argument order of `_F_IDX_V3D(i, j, k, l, …)` (src/FB/Sampling.h:225-230) would
    also fit a component-major layout. The interleaved reading is chosen because the
    velocity arrays are allocated with `AllocRealV3DEx` (src/FFV/ffv_Alloc.C:159-175), the
    allocator of the interleaved `Ex` layout;
  - `KELVIN` is taken to be 273.15, `SINGLE_EPSILON` 2^-23, `DOUBLE_EPSILON` 2^-52 and
    `OFF` 0.

The header comments disagree with the code, or the code has a consequence worth noting,
in these places. The model follows the code unless said otherwise:
- Cell index. The code converts with a C `(int)` cast (src/FB/Sampling.h:87-90), which
  truncates toward zero rather than flooring. A point less than one pitch below the origin
  gets index 1, where floor + 1 would give 0 (`AxisIndexTruncatesTowardZero`).
- `onBoundary`. The field's comment (src/FB/Sampling.h:422) speaks of 8 cells. The class
  comment (src/FB/Sampling.h:412-415) speaks of the 7 cells other than the containing one.
  The assignment lives in Sampling.C, so there is no code to follow here; the model follows
  the class comment. The containing cell's own status is reported by `checkMonitorPoint`.
- `isErrConverged` carries the same brief comment as `isResConverged`, "the residual has
  converged" (src/FB/IterationControl.h:194). It tests `error < eps_err`.
- The `@fn` line of `getFindexBID8` (src/FB/FBUtility.h:229) lists a parameter `l` that
  the function does not take.

## Model

| member | source | states |
|---|---|---|
| FBUtility.ConvND2Kelvin | src/FB/FBUtility.h:44-46 | Non-dimensional 0 maps to the base temperature; for a positive temperature difference the result lies above (below) the base exactly when the input is positive (negative). |
| FBUtility.ConvK2ND | src/FB/FBUtility.h:68-70 | The result times abs(diff) is the distance from the base; it is positive exactly when the input is above the base and zero exactly at the base. |
| FBUtility.ConvK2Temp | src/FB/FBUtility.h:78-80 | The result never exceeds the Kelvin input, equals it exactly for the Kelvin unit, and converting it back to Kelvin gives the input. |
| FBUtility.ConvTemp2K | src/FB/FBUtility.h:88-90 | The result is never below the input, equals it exactly for the Kelvin unit, and exceeds it by KELVIN for Celsius. |
| FBUtility.ConvD2NDHeatSource | src/FB/FBUtility.h:113-120 | The result times RefV·diff·rho·C is the input times RefL; it is zero exactly when the input or RefL is zero. |
| FBUtility.ConvND2DHeatSource | src/FB/FBUtility.h:132-139 | The result times RefL is the input times RefV·diff·rho·C; a zero input gives zero. |
| FBUtility.ConvD2NDPressure | src/FB/FBUtility.h:150-157 | The result times rho·RefV² is the input less the base pressure (absolute mode) or the input (gauge mode); it is zero exactly at the base pressure, resp. at zero. |
| FBUtility.ConvND2DPressure | src/FB/FBUtility.h:168-171 | When rho·RefV² is non-zero, the result is the base pressure (absolute mode) or zero (gauge mode) exactly when the input is zero. |
| FBUtility.TempUnitRoundTrip | src/FB/FBUtility.h:78-90 | Converting to Kelvin and back (and back and forth) returns the value for both units; the Kelvin unit is the identity. |
| FBUtility.NDKelvinRoundTrip | src/FB/FBUtility.h:44-46 | `convND2Kelvin ∘ convK2ND` is the identity when diff > 0 and reflects about `base` when diff < 0 (one divides by abs(diff), the other multiplies by diff); likewise in the other order, where the result is negated for diff < 0. |
| FBUtility.ConvD2ND | src/FB/FBUtility.h:56-59 | Dimensional temperature to non-dimensional is the conversion to Kelvin followed by `convK2ND`. |
| FBUtility.ConvD2NDVelocity | src/FB/FBUtility.h:99-101 | The non-dimensional velocity times the reference velocity gives back the input. |
| FBUtility.HeatSourceRoundTrip | src/FB/FBUtility.h:113-139 | `convND2D_Hsrc` and `convD2ND_Hsrc` are inverse to each other in both orders when RefV, RefL, diff, rho and C are non-zero. |
| FBUtility.PressureRoundTrip | src/FB/FBUtility.h:150-171 | `convND2D_P` and `convD2ND_P` are inverse to each other in both orders, in absolute and gauge mode, when rho·RefV² is non-zero. |
| FBUtility.FindexS3D | src/FB/FBUtility.h:183-189 | Every cell in the block including its guide cells maps into [0, (ix+2gc)(jx+2gc)(kx+2gc)). |
| FBUtility.FindexS3DFortranOrder | src/FB/FBUtility.h:184-188 | The nested formula equals the expanded Fortran-order formula in the comment. |
| FBUtility.FindexS3DInjective | src/FB/FBUtility.h:183-189 | Two cells of the block with the same offset are the same cell. |
| FBUtility.FindexS3DStrides | src/FB/FBUtility.h:185-188 | Raising i adds 1, raising j adds one row (ix+2gc), raising k adds one plane (ix+2gc)(jx+2gc). |
| FBUtility.FindexV3DEx | src/FB/FBUtility.h:202-208 | The vector offset is 3·(scalar offset)+l and lies inside the 3-wide array for l in 0..2. |
| FBUtility.FindexS3DCut | src/FB/FBUtility.h:221-226 | The cut offset is 6·(scalar offset)+l and lies inside the 6-wide array for l in 0..5. |
| FBUtility.FindexBID8 | src/FB/FBUtility.h:238-243 | The boundary-ID offset is 2·(scalar offset), and both words of the cell lie inside the array. |
| FileIO.ToU32 | src/FB/FileIO.h:112-133 | Reduction to `unsigned` keeps the residue modulo 2^32 and leaves in-range values alone. |
| FileIO.ToInt32 | src/FB/FileIO.h:122 | Conversion of an `unsigned` to `int` lies in the int32 range and keeps the residue modulo 2^32. |
| FileIO.CalcIndex | src/FB/FileIO.h:112-133 | diff is src_gc − dst_gc modulo 2^32 and within int32. If src_gc ≥ dst_gc, sta is 0 and the lengths are unchanged. Otherwise sta is abs(diff) and each length is shifted by diff modulo 2^32. |
| FileIO.CalcIndexDiff | src/FB/FileIO.h:122 | When the difference fits in int32, diff is exactly src_gc − dst_gc. |
| FileIO.CalcIndexOffsets | src/FB/FileIO.h:122-132 | Without wrap-around, sta is max(0, −diff), and dst_ix+sta, dst_jx+sta and dst_kx+sta equal the input lengths: all three axes shrink by the same amount. |
| FlowSampling.Sub | src/FB/Sampling.h:141 | The velocity relative to v00 is zero exactly when v equals v00. |
| FlowSampling.Trunc | src/FB/Sampling.h:88-90 | The `(int)` cast rounds toward zero: floor for non-negative arguments, ceiling for non-positive ones. |
| FlowSampling.TruncSlab | src/FB/Sampling.h:87-90 | For crd ≥ org and pch > 0, the truncated quotient t satisfies org + t·pch ≤ crd < org + (t+1)·pch. |
| FlowSampling.AxisIndex | src/FB/Sampling.h:87-90 | For pch > 0, a point in [org+(n−1)·pch, org+n·pch) with n ≥ 1 gets index n. Any point with −1 < (crd−org)/pch < 1 gets index 1, the negative side included. |
| FlowSampling.CellIndexOf | src/FB/Sampling.h:87-90 | The monitor cell index is the per-axis index of the coordinate. |
| FlowSampling.AxisIndexTruncatesTowardZero | src/FB/Sampling.h:88 | A point half a cell before the origin gets index 1, not 0: the cast truncates rather than floors. |
| FlowSampling.ShiftXp | src/FB/Sampling.h:179 | Moves one cell in +x and keeps y and z. |
| FlowSampling.ShiftYp | src/FB/Sampling.h:185 | Moves one cell in +y and keeps x and z. |
| FlowSampling.ShiftZp | src/FB/Sampling.h:191 | Moves one cell in +z and keeps x and y. |
| FlowSampling.ShiftXm | src/FB/Sampling.h:176 | `shift_xp` undoes `shift_xm`. |
| FlowSampling.ShiftYm | src/FB/Sampling.h:182 | `shift_yp` undoes `shift_ym`. |
| FlowSampling.ShiftZm | src/FB/Sampling.h:188 | `shift_zp` undoes `shift_zm`. |
| FlowSampling.Shift1 | src/FB/Sampling.h:155 | `shift1` is `shift_xp`. |
| FlowSampling.Shift2 | src/FB/Sampling.h:158 | `shift2` is `shift_yp`. |
| FlowSampling.Shift3 | src/FB/Sampling.h:161 | `shift3` is `shift_xp ∘ shift_yp`. |
| FlowSampling.Shift4 | src/FB/Sampling.h:164 | `shift4` is `shift_zp`. |
| FlowSampling.Shift5 | src/FB/Sampling.h:167 | `shift5` is `shift_xp ∘ shift_zp`. |
| FlowSampling.Shift6 | src/FB/Sampling.h:170 | `shift6` is `shift_yp ∘ shift_zp`. |
| FlowSampling.Shift7 | src/FB/Sampling.h:173 | `shift7` is `shift_xp ∘ shift_yp ∘ shift_zp`. |
| FlowSampling.Stencil | src/FB/Sampling.h:155-173 | The base cell and `shift1..7` of it are 8 pairwise-distinct cells. A cell is among them exactly when it lies in the 2×2×2 cube with the base as lowest corner. |
| FlowSampling.FaceNeighbours | src/FB/Sampling.h:176-191 | The six `shift_xm..zp` images are pairwise distinct. A cell is among them exactly when its Manhattan distance from the centre is 1. |
| FlowSampling.LengthSquaredZero | src/FB/Sampling.h:141-142 | `lengthSquared` is non-negative and zero only for the zero vector. |
| FlowSampling.HalfSquarePlus | src/FB/Sampling.h:142 | Half a squared length plus p is at least p, with equality exactly for the zero vector. |
| FlowSampling.Sampling.constructor | src/FB/Sampling.h:69-91 | Given a bcd array covering the block with its guide cells, the constructor stores mode, size, guide, pch, v00 and bcd, establishes `Valid()`, and sets cIndex to the cell index of the monitor coordinate. |
| FlowSampling.Sampling.Slot | src/FB/Sampling.h:197-211 | The `_F_IDX_S3D` offset of a cell of the block lies inside the scalar array. |
| FlowSampling.Sampling.IsFluid | src/FB/Sampling.h:197-200 | The `IS_FLUID` test applied to the BCindex word at the cell's `_F_IDX_S3D` offset. |
| FlowSampling.IsFluidAfterWrite | src/FB/Sampling.h:197-200 | `isFluid` of a cell depends only on that cell's own BCindex word: writing any other in-block cell's word leaves it unchanged. |
| FlowSampling.Sampling.GetScalar | src/FB/Sampling.h:208-211 | Reads the field at the cell's `_F_IDX_S3D` offset, so the result is one of the field's values. |
| FlowSampling.Sampling.CheckMonitorPoint | src/FB/Sampling.h:97-101 | The result is UNEXPECTED_SOLID iff the mode is fluid-only and the cell is solid, UNEXPECTED_FLUID iff the mode is solid-only and the cell is fluid, and POINT_STATUS_OK otherwise (always in "all" mode). |
| FlowSampling.Sampling.GetVector | src/FB/Sampling.h:219-234 | The components are read at 3·(scalar offset)+0, +1 and +2. |
| FlowSampling.Sampling.CalcTotalPressure | src/FB/Sampling.h:140-143 | The total pressure is at least p, and equals p exactly when v equals v00. |
| FlowSampling.GetScalarAfterWrite | src/FB/Sampling.h:208-211 | After writing x into a cell's slot, `getScalar` of that cell reads x and every other cell reads its old value. |
| FlowSampling.GetVectorAfterWrite | src/FB/Sampling.h:219-234 | After writing component l of a cell, `getVector` of that cell sees the new component with the other two unchanged, and every other cell is unchanged. |
| FlowSampling.Nearest.SamplingScalar | src/FB/Sampling.h:237-250 | Nearest samples the value of the cell containing the monitor point. |
| FlowSampling.Nearest.SamplingPressure | src/FB/Sampling.h:287 | Pressure is sampled as a scalar. |
| FlowSampling.Nearest.SamplingTemperature | src/FB/Sampling.h:293 | Temperature is sampled as a scalar. |
| FlowSampling.Nearest.SamplingVelocity | src/FB/Sampling.h:237-281 | Nearest samples the velocity vector of the containing cell. |
| FlowSampling.NearestOfUniform | src/FB/Sampling.h:237-250 | On a uniform field Nearest returns the uniform value. |
| FlowSampling.Smoothing.PermitToAdd | src/FB/Sampling.h:335-339 | Every cell is admitted in "all" mode; fluid-only admits exactly the fluid cells and solid-only exactly the solid cells. |
| FlowSampling.MonitorPointAdmitted | src/FB/Sampling.h:97-101 | The monitor point's status is OK exactly when `permitToAdd` admits the containing cell. |
| FlowSampling.Interpolation.constructor | src/FB/Sampling.h:408-422 | After construction `onBoundary` holds iff `checkBoundary` is true for one of the 7 stencil cells other than the containing cell. |
| FlowSampling.Interpolation.CheckBoundary | src/FB/Sampling.h:425-429 | Always false in "all" mode; true for a solid cell in fluid-only mode and for a fluid cell in solid-only mode. |
| FlowSampling.Interpolation.StencilValues | src/FB/Sampling.h:408-416 | The 8 values fed to the interpolation are the field values at the base cell and `shift1..7` of it, in that order. |
| FlowSampling.Interpolation.SamplingScalar | src/FB/Sampling.h:408-416 | When `onBoundary` holds the containing cell's value is sampled; otherwise the blend of the 8 stencil values is returned. |
| FlowSampling.Interpolation.StencilVectors | src/FB/Sampling.h:408-416 | The 8 vectors fed to the interpolation are the velocity vectors at the base cell and `shift1..7` of it, in that order. |
| FlowSampling.Interpolation.SamplingVelocity | src/FB/Sampling.h:465-469 | When `onBoundary` holds the containing cell's vector is sampled; otherwise the blend of the 8 stencil vectors is returned. |
| FlowSampling.Interpolation.SamplingPressure | src/FB/Sampling.h:475 | Pressure is sampled as a scalar. |
| FlowSampling.Interpolation.SamplingTemperature | src/FB/Sampling.h:481 | Temperature is sampled as a scalar. |
| FlowSampling.CheckBoundaryIsNotPermit | src/FB/Sampling.h:335-339 | In "all" mode no cell is a boundary cell and every cell is admitted. In the other modes `checkBoundary` is exactly the negation of `permitToAdd`. |
| FlowSampling.AllModeNeverOnBoundary | src/FB/Sampling.h:425-429 | In "all" mode an interpolation is never on the boundary. |
| FlowSampling.InterpolationFallback | src/FB/Sampling.h:408-416 | On the boundary Interpolation returns what Nearest returns. When no stencil cell differs from the mode, the blend is used. |
| FlowSampling.InterpolationVelocityFallback | src/FB/Sampling.h:408-416 | The same rule for velocity: on the boundary Interpolation returns the vector Nearest returns, and when no stencil cell differs from the mode the blend of the 8 stencil vectors is used. |
| FillBid.Field | src/Geometry/fill_bid_naive.h:47-52 | The w, e, s, n, b, t directions use the distinct `getBit5` fields 0 to 5. |
| FillBid.Step | src/Geometry/fill_bid_naive.h:23-29 | Each neighbour is a unit face offset in its own direction (w: −i, e: +i, s: −j, n: +j, b: −k, t: +k). |
| FillBid.StepsDistinct | src/Geometry/fill_bid_naive.h:23-29 | The six neighbours are distinct cells. |
| FillBid.SlotsInRange | src/Geometry/fill_bid_naive.h:23-38 | The cell's offset and its neighbours' offsets index inside the bcd array. |
| FillBid.CountJoinsRange | src/Geometry/fill_bid_naive.h:61-118 | The count of joining directions is at most the number tested, and positive iff one of them joins. |
| FillBid.Tag | src/Geometry/fill_bid_naive.h:61-118 | `tag` ends in 0..6, and is positive iff some direction that is not skipped has neighbour ID tg and a zero face ID. |
| FillBid.PaintsIff | src/Geometry/fill_bid_naive.h:42-121 | The cell is painted iff its decoded ID is 0 and some unskipped face neighbour carries tg across a face without boundary ID. |
| FillBid.PaintedCellUnchanged | src/Geometry/fill_bid_naive.h:42 | A cell whose decoded ID is non-zero is never changed. |
| FillBid.AfterStep | src/Geometry/fill_bid_naive.h:121-128 | Only the cell's own slot can change, and only to `setBitID(bcd[m_p], tg)`, and only when the cell is painted. |
| FillBid.FillStep | src/Geometry/fill_bid_naive.h:23-128 | `filled` rises by exactly 1 when the cell is painted and is otherwise unchanged. bcd becomes exactly the specified next state; bid is only read. |
| FillBid.SkippedLeavesInterior | src/Geometry/fill_bid_naive.h:64-118 | A skipped direction always points from the cell out of the block's interior; no direction on an axis whose mode switch is on is ever skipped. |
| FillBid.JoinsAt | src/Geometry/fill_bid_naive.h:64-118 | A direction joins iff it is not skipped (rank flag < 0, cell on that domain face, axis mode off), its neighbour's ID is tg and its face ID is 0. |
| FillBid.TagAsSum | src/Geometry/fill_bid_naive.h:61-118 | `tag` is the sum of the six direction tests, in the order w, e, s, n, b, t. |
| FillBid.AppendOne | src/Geometry/fill_bid_naive.h:61-118 | Testing one more direction adds one to the count exactly when it joins. |
| Vec3f.Minimum | src/FB/vec3f_func.h:44-49 | Each component is at most a[n] and b[n] and equals one of them. |
| Vec3f.Maximum | src/FB/vec3f_func.h:56-61 | Each component is at least a[n] and b[n] and equals one of them. |
| Vec3f.MinBelowMax | src/FB/vec3f_func.h:44-61 | The componentwise minimum is below the componentwise maximum. |
| Vec3f.PlusMinusRoundTrip | src/FB/vec3f_func.h:68-85 | Adding b and then subtracting it gives back a, and the other way round. |
| Vec3f.CrossOrthogonal | src/FB/vec3f_func.h:141-156 | The cross product is orthogonal to both operands. |
| Vec3f.CrossAntisymmetric | src/FB/vec3f_func.h:151-156 | a×b is −(b×a). |
| Vec3f.Dot | src/FB/vec3f_func.h:137-144 | The inner product of a vector with itself is non-negative and zero exactly for the zero vector. |
| Vec3f.SqDist | src/FB/vec3f_func.h:163-169 | The squared distance is non-negative, zero exactly when a equals b, and equals dot(a−b, a−b). |
| Vec3f.SqDistSymmetric | src/FB/vec3f_func.h:163-169 | The squared distance is symmetric. |
| Vec3f.ScaledByReciprocal | src/FB/vec3f_func.h:104-134 | Multiplying by 1/b is dividing each component by b. |
| Vec3f.CrossAsWrittenUnaliased | src/FB/vec3f_func.h:151-156 | Without aliasing the three statements compute the cross product. |
| Vec3f.CrossIntoFirstOperandDiffers | src/FB/vec3f_func.h:151-156 | With c aliasing a, (0,1,0)×(0,0,1) is stored as (1,−1,0) instead of (1,0,0). |
| Vec3f.CrossIntoSecondOperandDiffers | src/FB/vec3f_func.h:151-156 | With c aliasing b, (0,0,1)×(0,1,0) is stored as (−1,−1,0) instead of (−1,0,0). |
| Vec3f.Copy | src/FB/vec3f_func.h:20-25 | The destination holds exactly the source's three values. |
| Vec3f.Set | src/FB/vec3f_func.h:32-37 | The vector holds exactly (x, y, z). |
| Vec3f.Min | src/FB/vec3f_func.h:44-49 | c holds the componentwise minimum of the old a and b, even when c aliases an input. |
| Vec3f.Max | src/FB/vec3f_func.h:56-61 | c holds the componentwise maximum of the old a and b, even when aliased. |
| Vec3f.Plus | src/FB/vec3f_func.h:68-73 | c holds the sum of the old a and b, even when aliased. |
| Vec3f.Minus | src/FB/vec3f_func.h:80-85 | c holds the difference of the old a and b, even when aliased. |
| Vec3f.Multi | src/FB/vec3f_func.h:92-97 | c holds the componentwise product of the old a and b, even when aliased. |
| Vec3f.MultiScalar | src/FB/vec3f_func.h:104-109 | c holds the old a scaled by b, even when aliased. |
| Vec3f.Div | src/FB/vec3f_func.h:116-121 | c holds the componentwise quotient of the old a and b, even when aliased. |
| Vec3f.DivScalar | src/FB/vec3f_func.h:128-134 | c holds the old a scaled by 1/b, i.e. `vec3f_multi(c, a, 1/b)`. |
| Vec3f.CrossSteps | src/FB/vec3f_func.h:153-155 | Three component writes, each reading the operands as the earlier writes left them, produce exactly the as-written cross product. |
| Vec3f.Cross | src/FB/vec3f_func.h:151-156 | c holds what the three statements compute given how c aliases a and b, and holds the true cross product when c aliases neither. |
| IterationControl.InitialSettings | src/FB/IterationControl.h:56-72 | After construction LoopCount is 0, valid and Sync are −1, Naive is OFF, residual, error and the other values are 0, and eps_err is 4 machine epsilons of the working precision. |
| IterationControl.InitialConvergence | src/FB/IterationControl.h:56-72 | A fresh controller reports the error as converged and the residual as not converged. |
| IterationControl.NoCriterionNoConvergence | src/FB/IterationControl.h:189-192 | With a non-positive criterion a non-negative residual never converges. |
| IterationControl.ResConvergedMonotone | src/FB/IterationControl.h:189-192 | Convergence survives a smaller residual or a larger criterion. |
| IterationControl.IterationCtl.constructor | src/FB/IterationControl.h:56-72 | The constructed state is the initial state. |
| IterationControl.IterationCtl.IsResConverged | src/FB/IterationControl.h:189-192 | Holds iff residual < eps_res, strictly. |
| IterationControl.IterationCtl.IsErrConverged | src/FB/IterationControl.h:195-198 | Holds iff error < eps_err, strictly. |
| IterationControl.IterationCtl.IncLoopCount | src/FB/IterationControl.h:182-185 | LoopCount rises by exactly 1 and nothing else changes. |
| IterationControl.IterationCtl.SetAlias | src/FB/IterationControl.h:201-204 | `getAlias` returns the key and nothing else changes. |
| IterationControl.IterationCtl.SetResCriterion | src/FB/IterationControl.h:208-211 | `getResCriterion` returns r and nothing else changes. |
| IterationControl.IterationCtl.SetLoopCount | src/FB/IterationControl.h:215-218 | `getLoopCount` returns the key and nothing else changes. |
| IterationControl.IterationCtl.SetMaxIteration | src/FB/IterationControl.h:229-232 | `getMaxIteration` returns the key and nothing else changes. |
| IterationControl.IterationCtl.SetErrType | src/FB/IterationControl.h:236-239 | `getErrType` returns n and nothing else changes. |
| IterationControl.IterationCtl.SetResType | src/FB/IterationControl.h:242-245 | `getResType` returns n and nothing else changes. |
| IterationControl.IterationCtl.SetResidual | src/FB/IterationControl.h:248-251 | `getResidual` returns r and nothing else changes. |
| IterationControl.IterationCtl.SetError | src/FB/IterationControl.h:254-257 | `getError` returns r and nothing else changes. |
| IterationControl.IterationCtl.SetValid | src/FB/IterationControl.h:261-264 | `getValid` returns n and nothing else changes. |
| IterationControl.IterationCtl.SetOmega | src/FB/IterationControl.h:282-285 | `getOmega` returns r and nothing else changes. |
| IterationControl.IterationCtl.SetSyncMode | src/FB/IterationControl.h:289-292 | `getSyncMode` returns r and nothing else changes. |

The getters of `IterationCtl` are functions reading `this`, so they cannot change any field.
Their results are stated through the setters' contracts and `State()`.

## Left out

- Floating point: `REAL_TYPE`, `float` and `double` arithmetic is idealised as exact real arithmetic; no result is claimed to agree with rounded arithmetic.
- Division by zero: the conversions, the cell-index computation and `vec3f_div` require non-zero divisors (Dafny's real division is partial); the source would produce infinities or NaN there, and the `(int)` cast of those in the cell-index computation (src/FB/Sampling.h:88-90) is undefined behaviour in C.
- FBUtility.FindexS3D: the result is an unbounded integer. The source returns `unsigned`, which wraps for cells outside the block; inside the block the two agree because the result lies in [0, count), provided the cell count (ix+2gc)(jx+2gc)(kx+2gc) is at most 2^32.
- FlowSampling.Sampling.Slot: the source's `size_t` offset is modelled the same way and is only taken for cells inside the block.
- IterationControl.IterationCtl.IncLoopCount: LoopCount is an unbounded integer, so 32-bit overflow after 2^31−1 increments is not modelled.
- The constants `KELVIN`, `SINGLE_EPSILON`, `DOUBLE_EPSILON` and `OFF`, and the `SAMPLING_*` and `Unit_*` switches, come from FB_Define.h, which is not part of this model; their values are as stated above. A mode value other than fluid-only or solid-only behaves as "all", as in the source's else branches.
- `IS_FLUID`, `DECODE_CMP`, `getBit5` and `setBitID` are bit-layout macros defined elsewhere; they are parameters of the model.
- The sampling strategy bodies (`samplingScalar`, `samplingVelocity`, `samplingVorticity` and `samplingTotalPressure` of Nearest, Smoothing and Interpolation, the Smoothing `add_*`/`nAdd` setup, the Interpolation base cell and trilinear coefficients) live in Sampling.C, which is not part of this model. Only the behaviour the header comments state is modelled: Nearest's containing-cell value, Smoothing's admission predicate, and Interpolation's fallback for scalar, pressure, temperature and velocity sampling. `samplingVorticity` and `samplingTotalPressure` (all three strategies) and Smoothing's sampling functions are not modelled; of the total-pressure sampling only its `calcTotalPressure` helper is. The trilinear blend is a function parameter (`blend` for scalars, `blendV` for vectors), the base cell is a constructor parameter, and `onBoundary` is set from its documented meaning. As in the source, `onBoundary` is fixed when the Interpolation is built: the sampling functions read the field, not the current BCindex B, so a later change to BCindex B does not change which value they return.
- `calcVorticity`, the Smoothing averages and `InterpolationStgV` (staggered-velocity offsets) are left out: their bodies are not in the header.
- `vec3f_dist` needs a square root, which real arithmetic here does not provide.
- The MPI reduction wrappers, `getDirection`, `displayMemory` and `printVersion` in FBUtility.h are communication, output or declarations only.
- The FileIO loaders and converters, `IterationCtl::copy`, `getInherentPara`, `setLS` and `getPara*` are declarations or parse input files.
- `DomainInfo`, array allocation, post-processing timers and the IP_* headers carry no logic to model.
- FileIO.CalcIndexOffsets: the identity dst_ix + sta == dst_ilen is stated exactly only when the difference fits in int32 and the lengths do not wrap; in general `CalcIndex` states it modulo 2^32.
- FillBid.FillStep: models one execution of the fragment for one cell; the enclosing i/j/k sweep and its repetition until no cell is filled are not part of the fragment.
