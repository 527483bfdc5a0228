/**
 * Unit conversions and Fortran-order index flattening of the flow base
 * utilities (src/FB/FBUtility.h).
 *
 * Floating point (REAL_TYPE) is idealised as `real`; the index maps work on
 * unbounded integers.
 */
module FBUtility {
  import opened RealArith

  // ---------------------------------------------------------------------------
  // Temperature, velocity, heat-source and pressure conversions
  // ---------------------------------------------------------------------------

  /** Temperature unit: the source compares a code with Unit_KELVIN; every other code is Celsius. */
  datatype TempUnit = Kelvin | Celsius

  /** Pressure reporting: Unit_Absolute, or any other code (gauge pressure). */
  datatype PressureMode = Absolute | Gauge

  /** Offset between the Kelvin and the Celsius scale. */
  const KELVIN: real := 273.15

  function Abs(x: real): (r: real)
    ensures r >= 0.0 && (r == x || r == -x)
  {
    if x < 0.0 then -x else x
  }

  /** Non-dimensional temperature to Kelvin. */
  function ConvND2Kelvin(v: real, base: real, diff: real): (r: real)
    ensures v == 0.0 ==> r == base
    ensures diff > 0.0 ==> (r > base <==> v > 0.0) && (r < base <==> v < 0.0)
  {
    if diff > 0.0 && v > 0.0 then MulPos(diff, v); base + diff * v
    else if diff > 0.0 && v < 0.0 then MulMixed(diff, v); base + diff * v
    else base + diff * v
  }

  /** Kelvin to non-dimensional temperature: divides by the magnitude of `diff`. */
  function ConvK2ND(v: real, base: real, diff: real): (r: real)
    requires diff != 0.0
    ensures r * Abs(diff) == v - base
    ensures r > 0.0 <==> v > base
    ensures r == 0.0 <==> v == base
  {
    var q := (v - base) / Abs(diff);
    if q > 0.0 then MulPos(q, Abs(diff)); q
    else if q < 0.0 then MulMixed(Abs(diff), q); q
    else q
  }

  /** Kelvin to the given unit. */
  function ConvK2Temp(v: real, unit: TempUnit): (r: real)
    ensures r <= v
    ensures r == v <==> unit == Kelvin
    ensures ConvTemp2K(r, unit) == v
  {
    if unit == Kelvin then v else v - KELVIN
  }

  /** The given unit to Kelvin. */
  function ConvTemp2K(v: real, unit: TempUnit): (r: real)
    ensures r >= v
    ensures r == v <==> unit == Kelvin
    ensures unit == Celsius ==> r - v == KELVIN
  {
    if unit == Kelvin then v else v + KELVIN
  }

  /** Dimensional temperature in `unit` to non-dimensional. */
  function ConvD2ND(v: real, base: real, diff: real, unit: TempUnit): (r: real)
    requires diff != 0.0
    ensures r == ConvK2ND(ConvTemp2K(v, unit), base, diff)
  {
    var tmp := ConvTemp2K(v, unit);
    (tmp - base) / Abs(diff)
  }

  /** Dimensional velocity to non-dimensional. */
  function ConvD2NDVelocity(v: real, refV: real): (r: real)
    requires refV != 0.0
    ensures r * refV == v
  {
    v / refV
  }

  /** Heat source (W/m^3) to non-dimensional. */
  function ConvD2NDHeatSource(v: real, refV: real, refL: real, diff: real, rho: real, c: real): (r: real)
    requires refV != 0.0 && diff != 0.0 && rho != 0.0 && c != 0.0
    ensures r * (refV * diff * rho * c) == v * refL
    ensures r == 0.0 <==> v == 0.0 || refL == 0.0
  {
    var den := refV * diff * rho * c;
    NonZeroProduct4(refV, diff, rho, c);
    var q := v * refL / den;
    ZeroProductIff(q, den);
    ZeroProductIff(v, refL);
    q
  }

  /** Non-dimensional heat source to W/m^3. */
  function ConvND2DHeatSource(v: real, refV: real, refL: real, diff: real, rho: real, c: real): (r: real)
    requires refL != 0.0
    ensures r * refL == v * refV * diff * rho * c
    ensures v == 0.0 ==> r == 0.0
  {
    v * refV * diff * rho * c / refL
  }

  /** The pressure scale RefV*RefV*rho both pressure conversions use. */
  function PressureScale(rho: real, refV: real): real
  {
    refV * refV * rho
  }

  /** Dimensional pressure (absolute or gauge) to non-dimensional. */
  function ConvD2NDPressure(v: real, bp: real, rho: real, refV: real, mode: PressureMode): (r: real)
    requires PressureScale(rho, refV) != 0.0
    ensures r * PressureScale(rho, refV) == if mode == Absolute then v - bp else v
    ensures r == 0.0 <==> if mode == Absolute then v == bp else v == 0.0
  {
    var a := if mode == Absolute then v - bp else v;
    var q := a / PressureScale(rho, refV);
    ZeroProductIff(q, PressureScale(rho, refV));
    q
  }

  /** Non-dimensional pressure to dimensional (absolute or gauge). */
  function ConvND2DPressure(v: real, bp: real, rho: real, refV: real, mode: PressureMode): (r: real)
    ensures PressureScale(rho, refV) != 0.0 ==>
      (r == (if mode == Absolute then bp else 0.0) <==> v == 0.0)
  {
    var a := v * PressureScale(rho, refV);
    ZeroProductIff(v, PressureScale(rho, refV));
    if mode == Absolute then bp + a else a
  }

  /** Changing unit and changing back is the identity, in both orders and for both units. */
  lemma TempUnitRoundTrip(v: real, unit: TempUnit)
    ensures ConvK2Temp(ConvTemp2K(v, unit), unit) == v
    ensures ConvTemp2K(ConvK2Temp(v, unit), unit) == v
    ensures unit == Kelvin ==> ConvK2Temp(v, unit) == v && ConvTemp2K(v, unit) == v
  {
  }

  /**
   * Kelvin -> non-dimensional -> Kelvin gives `v` back only when `diff` is
   * positive: one direction divides by |diff|, the other multiplies by diff,
   * so a negative `diff` reflects `v` about `base`.
   */
  lemma NDKelvinRoundTrip(v: real, base: real, diff: real)
    requires diff != 0.0
    ensures diff > 0.0 ==> ConvND2Kelvin(ConvK2ND(v, base, diff), base, diff) == v
    ensures diff < 0.0 ==> ConvND2Kelvin(ConvK2ND(v, base, diff), base, diff) == 2.0 * base - v
    ensures diff > 0.0 ==> ConvK2ND(ConvND2Kelvin(v, base, diff), base, diff) == v
    ensures diff < 0.0 ==> ConvK2ND(ConvND2Kelvin(v, base, diff), base, diff) == -v
  {
    var q := ConvK2ND(v, base, diff);
    var r := ConvK2ND(ConvND2Kelvin(v, base, diff), base, diff);
    assert r * Abs(diff) == diff * v;
    if diff > 0.0 {
      assert diff * q == v - base;
      assert r * diff == v * diff;
      CancelFactor(r, v, diff);
    } else {
      assert diff * q == -(v - base);
      assert (-r) * diff == v * diff;
      CancelFactor(-r, v, diff);
    }
  }

  /** Non-dimensional -> dimensional pressure inverts dimensional -> non-dimensional, in both directions and both modes. */
  lemma PressureRoundTrip(x: real, bp: real, rho: real, refV: real, mode: PressureMode)
    requires PressureScale(rho, refV) != 0.0
    ensures ConvND2DPressure(ConvD2NDPressure(x, bp, rho, refV, mode), bp, rho, refV, mode) == x
    ensures ConvD2NDPressure(ConvND2DPressure(x, bp, rho, refV, mode), bp, rho, refV, mode) == x
  {
    var k := PressureScale(rho, refV);
    var a := if mode == Absolute then x - bp else x;
    assert (a / k) * k == a;
    var b := x * k;
    assert (if mode == Absolute then (bp + b) - bp else b) == b;
    assert b / k == x;
  }

  /** Non-dimensional -> W/m^3 inverts W/m^3 -> non-dimensional, in both directions. */
  lemma HeatSourceRoundTrip(x: real, refV: real, refL: real, diff: real, rho: real, c: real)
    requires refV != 0.0 && refL != 0.0 && diff != 0.0 && rho != 0.0 && c != 0.0
    ensures ConvND2DHeatSource(ConvD2NDHeatSource(x, refV, refL, diff, rho, c), refV, refL, diff, rho, c) == x
    ensures ConvD2NDHeatSource(ConvND2DHeatSource(x, refV, refL, diff, rho, c), refV, refL, diff, rho, c) == x
  {
    var d := refV * diff * rho * c;
    NonZeroProduct4(refV, diff, rho, c);
    var q := x * refL / d;
    assert q * refV * diff * rho * c == q * d;
    assert q * d == x * refL;
    var p := x * refV * diff * rho * c;
    assert p == x * d;
    assert (p / refL) * refL == p;
    assert (p / refL) * refL / d == x;
  }

  // ---------------------------------------------------------------------------
  // Fortran-order flattening of 3D indices with guide cells
  // ---------------------------------------------------------------------------

  /** Interior cell counts of a local block, per axis (guide cells excluded). */
  datatype Extent = Extent(ix: nat, jx: nat, kx: nat)

  /** Number of cells of the block including `gc` guide cells on every face. */
  function CellCount(sz: Extent, gc: nat): nat
  {
    (sz.ix + 2 * gc) * (sz.jx + 2 * gc) * (sz.kx + 2 * gc)
  }

  /** (i, j, k) is a cell of the block, guide cells included: 1-gc <= i <= ix+gc, and likewise for j and k. */
  predicate InGrid(sz: Extent, gc: nat, i: int, j: int, k: int)
  {
    && 1 - gc <= i <= sz.ix + gc
    && 1 - gc <= j <= sz.jx + gc
    && 1 - gc <= k <= sz.kx + gc
  }

  /** A mixed-radix digit pair (b, a) with a < A and b < B stays below A*B. */
  lemma MixedRadixBound(a: int, b: int, wa: int, wb: int)
    requires 0 <= a < wa && 0 <= b < wb
    ensures 0 <= wa * b + a < wa * wb
  {
    assert wa * (wb - b - 1) >= 0;
    assert wa * wb == wa * b + wa + wa * (wb - b - 1);
  }

  /** A mixed-radix representation with a low digit below `wa` is unique. */
  lemma MixedRadixUnique(a: int, b: int, a': int, b': int, wa: int)
    requires 0 <= a < wa && 0 <= a' < wa
    requires wa * b + a == wa * b' + a'
    ensures a == a' && b == b'
  {
    if b < b' {
      LowDigitOverflow(a, b, a', b', wa);
    } else if b' < b {
      LowDigitOverflow(a', b', a, b, wa);
    }
  }

  /** A higher top digit outweighs any low digit below `wa`. */
  lemma LowDigitOverflow(a: int, b: int, a': int, b': int, wa: int)
    requires 0 <= a < wa && 0 <= a'
    requires b < b'
    ensures wa * b + a < wa * b' + a'
  {
    var d := b' - b - 1;
    assert d >= 0;
    assert wa * d >= 0;
    assert wa * b' == wa * b + wa + wa * d;
  }

  /** The 0-based flat offset of scalar cell (i, j, k): the i index runs fastest. */
  function FindexS3D(sz: Extent, gc: nat, i: int, j: int, k: int): (r: int)
    ensures InGrid(sz, gc, i, j, k) ==> 0 <= r < CellCount(sz, gc)
  {
    var t1 := gc * 2;
    var t2 := gc - 1;
    var t3 := sz.ix + t1;
    var r := t3 * ((sz.jx + t1) * (k + t2) + j + t2) + i + t2;
    if InGrid(sz, gc, i, j, k) then
      MixedRadixBound(j + t2, k + t2, sz.jx + t1, sz.kx + t1);
      MixedRadixBound(i + t2, (sz.jx + t1) * (k + t2) + j + t2, t3, (sz.jx + t1) * (sz.kx + t1));
      assert t3 * ((sz.jx + t1) * (sz.kx + t1)) == CellCount(sz, gc);
      r
    else
      r
  }

  /** The flattening agrees with the expanded Fortran-order formula the source keeps as a comment. */
  lemma FindexS3DFortranOrder(sz: Extent, gc: nat, i: int, j: int, k: int)
    ensures FindexS3D(sz, gc, i, j, k)
         == (sz.ix + gc * 2) * (sz.jx + gc * 2) * (k + gc - 1) + (sz.ix + gc * 2) * (j + gc - 1) + i + gc - 1
  {
    var x, y := sz.ix + gc * 2, sz.jx + gc * 2;
    assert x * (y * (k + gc - 1) + j + gc - 1) == x * y * (k + gc - 1) + x * (j + gc - 1);
  }

  /** Distinct cells of the block get distinct offsets. */
  lemma FindexS3DInjective(sz: Extent, gc: nat, i: int, j: int, k: int, i': int, j': int, k': int)
    requires InGrid(sz, gc, i, j, k) && InGrid(sz, gc, i', j', k')
    requires FindexS3D(sz, gc, i, j, k) == FindexS3D(sz, gc, i', j', k')
    ensures i == i' && j == j' && k == k'
  {
    var x, y := sz.ix + gc * 2, sz.jx + gc * 2;
    var t2 := gc - 1;
    MixedRadixUnique(i + t2, y * (k + t2) + j + t2, i' + t2, y * (k' + t2) + j' + t2, x);
    MixedRadixUnique(j + t2, k + t2, j' + t2, k' + t2, y);
  }

  /** Stepping i adds 1, stepping j adds one row, stepping k adds one plane. */
  lemma FindexS3DStrides(sz: Extent, gc: nat, i: int, j: int, k: int)
    ensures FindexS3D(sz, gc, i + 1, j, k) == FindexS3D(sz, gc, i, j, k) + 1
    ensures FindexS3D(sz, gc, i, j + 1, k) == FindexS3D(sz, gc, i, j, k) + (sz.ix + 2 * gc)
    ensures FindexS3D(sz, gc, i, j, k + 1) == FindexS3D(sz, gc, i, j, k) + (sz.ix + 2 * gc) * (sz.jx + 2 * gc)
  {
    var x, y := sz.ix + gc * 2, sz.jx + gc * 2;
    var t2 := gc - 1;
    var inner := y * (k + t2) + j + t2;
    assert x * (inner + 1) == x * inner + x;
    assert y * (k + 1 + t2) == y * (k + t2) + y;
    assert x * (inner + y) == x * inner + x * y;
  }

  /** Offset of component `l` of a 3-wide interleaved vector field. */
  function FindexV3DEx(sz: Extent, gc: nat, l: int, i: int, j: int, k: int): (r: int)
    ensures r == 3 * FindexS3D(sz, gc, i, j, k) + l
    ensures InGrid(sz, gc, i, j, k) && 0 <= l < 3 ==> 0 <= r < 3 * CellCount(sz, gc)
  {
    var t1 := gc * 2;
    var t2 := gc - 1;
    var t3 := sz.ix + t1;
    assert t3 * ((sz.jx + t1) * (k + t2) + j + t2) == t3 * (sz.jx + t1) * (k + t2) + t3 * (j + t2);
    3 * (t3 * (sz.jx + t1) * (k + t2) + t3 * (j + t2) + i + t2) + l
  }

  /** Offset of direction `l` (0..5) in the 6-wide cut-information array. */
  function FindexS3DCut(sz: Extent, gc: nat, l: int, i: int, j: int, k: int): (r: int)
    ensures r == 6 * FindexS3D(sz, gc, i, j, k) + l
    ensures InGrid(sz, gc, i, j, k) && 0 <= l < 6 ==> 0 <= r < 6 * CellCount(sz, gc)
  {
    var t1 := gc * 2;
    var t2 := gc - 1;
    var t3 := sz.ix + t1;
    assert t3 * ((sz.jx + t1) * (k + t2) + j + t2) == t3 * (sz.jx + t1) * (k + t2) + t3 * (j + t2);
    6 * (t3 * (sz.jx + t1) * (k + t2) + t3 * (j + t2) + i + t2) + l
  }

  /** Offset of the first of the two words a cell holds in the boundary-ID array. */
  function FindexBID8(sz: Extent, gc: nat, i: int, j: int, k: int): (r: int)
    ensures r == 2 * FindexS3D(sz, gc, i, j, k)
    ensures InGrid(sz, gc, i, j, k) ==> 0 <= r && r + 1 < 2 * CellCount(sz, gc)
  {
    var t1 := gc * 2;
    var t2 := gc - 1;
    var t3 := sz.ix + t1;
    assert t3 * ((sz.jx + t1) * (k + t2) + j + t2) == t3 * (sz.jx + t1) * (k + t2) + t3 * (j + t2);
    2 * (t3 * (sz.jx + t1) * (k + t2) + t3 * (j + t2) + i + t2)
  }
}
