/**
 * Monitor-point sampling (src/FB/Sampling.h).
 *
 * A `Sampling` fixes, once, the sampling mode, the local grid, the BCindex B
 * array and the index of the cell that contains the monitor point. The three
 * strategies of the header (Nearest, Smoothing, Interpolation) are modelled as
 * classes that hold the `Sampling` they extend. The `IS_FLUID` test on a
 * BCindex word is a parameter of the object, and a field array is passed to
 * the lookups as the sequence of its values.
 */
module FlowSampling {
  import opened FBUtility
  import opened RealArith

  /** The three sampling modes (SAMPLING_ALL, SAMPLING_FLUID_ONLY, SAMPLING_SOLID_ONLY). */
  datatype SamplingMode = All | FluidOnly | SolidOnly

  /** Result of checking the monitor cell against the mode. */
  datatype PointStatus = PointStatusOk | UnexpectedSolid | UnexpectedFluid

  /** A cell index (FB::Vec3i). */
  datatype Index3 = Index3(x: int, y: int, z: int)

  /** A point or vector (FB::Vec3r). */
  datatype Vec3r = Vec3r(x: real, y: real, z: real)

  const Zero: Vec3r := Vec3r(0.0, 0.0, 0.0)

  function Sub(a: Vec3r, b: Vec3r): (r: Vec3r)
    ensures r == Zero <==> a == b
  {
    Vec3r(a.x - b.x, a.y - b.y, a.z - b.z)
  }

  function LengthSquared(v: Vec3r): real
  {
    v.x * v.x + v.y * v.y + v.z * v.z
  }

  // ---------------------------------------------------------------------
  // Monitor cell index

  /** The C cast `(int)c`: truncation toward zero. */
  function Trunc(c: real): (t: int)
    ensures c >= 0.0 ==> t as real <= c < t as real + 1.0
    ensures c <= 0.0 ==> t as real - 1.0 < c <= t as real
  {
    if c >= 0.0 then c.Floor else -((-c).Floor)
  }

  /** Truncation brackets a non-negative quotient, scaled back by its positive divisor. */
  lemma {:induction false} TruncSlab(crd: real, org: real, pch: real)
    requires pch > 0.0 && crd >= org
    ensures var t := Trunc((crd - org) / pch) as real;
      org + t * pch <= crd < org + (t + 1.0) * pch
  {
    var d := crd - org;
    var c := d / pch;
    assert c * pch == d;
    QuotientNonNeg(d, pch);
    var t := Trunc(c) as real;
    assert t <= c < t + 1.0;
    MulMonotone(t, c, pch);
    MulStrictMonotone(c, t + 1.0, pch);
    assert c * pch < (t + 1.0) * pch;
    assert d < (t + 1.0) * pch;
  }

  /**
   * One axis of the monitor cell index: the offset from the local origin in
   * pitches, truncated, plus one. A point at or beyond the origin (with a
   * positive pitch) lies in the half-open slab of the cell it is given, and a
   * point less than one pitch away on either side of the origin gets index 1.
   */
  function AxisIndex(crd: real, org: real, pch: real): (r: int)
    requires pch != 0.0
    ensures pch > 0.0 && crd >= org ==>
      org + (r - 1) as real * pch <= crd < org + (r - 1) as real * pch + pch
    ensures -1.0 < (crd - org) / pch < 1.0 ==> r == 1
  {
    var t := Trunc((crd - org) / pch);
    if pch > 0.0 && crd >= org then
      TruncSlab(crd, org, pch);
      assert (t as real + 1.0) * pch == t as real * pch + pch;
      t + 1
    else
      t + 1
  }

  /** The index of the cell containing `crd`, for a block with origin `org` and pitch `pch`. */
  function CellIndexOf(crd: Vec3r, org: Vec3r, pch: Vec3r): (r: Index3)
    requires pch.x != 0.0 && pch.y != 0.0 && pch.z != 0.0
    ensures r.x == AxisIndex(crd.x, org.x, pch.x)
    ensures r.y == AxisIndex(crd.y, org.y, pch.y)
    ensures r.z == AxisIndex(crd.z, org.z, pch.z)
  {
    Index3(AxisIndex(crd.x, org.x, pch.x), AxisIndex(crd.y, org.y, pch.y), AxisIndex(crd.z, org.z, pch.z))
  }

  /** A point just below the origin is still given index 1, where floor+1 would give 0. */
  lemma AxisIndexTruncatesTowardZero()
    ensures AxisIndex(-0.5, 0.0, 1.0) == 1
    ensures (-0.5 - 0.0) / 1.0 < 0.0
  {
  }

  // ---------------------------------------------------------------------
  // Face and corner shifts

  function ShiftXp(c: Index3): (r: Index3)
    ensures r.x == c.x + 1 && r.y == c.y && r.z == c.z
  {
    Index3(c.x + 1, c.y, c.z)
  }

  function ShiftYp(c: Index3): (r: Index3)
    ensures r.x == c.x && r.y == c.y + 1 && r.z == c.z
  {
    Index3(c.x, c.y + 1, c.z)
  }

  function ShiftZp(c: Index3): (r: Index3)
    ensures r.x == c.x && r.y == c.y && r.z == c.z + 1
  {
    Index3(c.x, c.y, c.z + 1)
  }

  function ShiftXm(c: Index3): (r: Index3)
    ensures ShiftXp(r) == c
  {
    Index3(c.x - 1, c.y, c.z)
  }

  function ShiftYm(c: Index3): (r: Index3)
    ensures ShiftYp(r) == c
  {
    Index3(c.x, c.y - 1, c.z)
  }

  function ShiftZm(c: Index3): (r: Index3)
    ensures ShiftZp(r) == c
  {
    Index3(c.x, c.y, c.z - 1)
  }

  /** The corner shifts are compositions of the unit face shifts. */
  function Shift1(c: Index3): (r: Index3)
    ensures r == ShiftXp(c)
  {
    Index3(c.x + 1, c.y, c.z)
  }

  function Shift2(c: Index3): (r: Index3)
    ensures r == ShiftYp(c)
  {
    Index3(c.x, c.y + 1, c.z)
  }

  function Shift3(c: Index3): (r: Index3)
    ensures r == ShiftXp(ShiftYp(c))
  {
    Index3(c.x + 1, c.y + 1, c.z)
  }

  function Shift4(c: Index3): (r: Index3)
    ensures r == ShiftZp(c)
  {
    Index3(c.x, c.y, c.z + 1)
  }

  function Shift5(c: Index3): (r: Index3)
    ensures r == ShiftXp(ShiftZp(c))
  {
    Index3(c.x + 1, c.y, c.z + 1)
  }

  function Shift6(c: Index3): (r: Index3)
    ensures r == ShiftYp(ShiftZp(c))
  {
    Index3(c.x, c.y + 1, c.z + 1)
  }

  function Shift7(c: Index3): (r: Index3)
    ensures r == ShiftXp(ShiftYp(ShiftZp(c)))
  {
    Index3(c.x + 1, c.y + 1, c.z + 1)
  }

  /** `c` is one of the 2x2x2 cells whose lowest corner cell is `b`. */
  predicate InCube(b: Index3, c: Index3)
  {
    b.x <= c.x <= b.x + 1 && b.y <= c.y <= b.y + 1 && b.z <= c.z <= b.z + 1
  }

  /**
   * The trilinear stencil: the base cell followed by its seven corner shifts.
   * The eight cells are pairwise distinct and are exactly the 2x2x2 cube.
   */
  function Stencil(b: Index3): (r: seq<Index3>)
    ensures |r| == 8 && r[0] == b
    ensures forall p, q :: 0 <= p < q < 8 ==> r[p] != r[q]
    ensures forall c :: c in r <==> InCube(b, c)
  {
    var r := [b, Shift1(b), Shift2(b), Shift3(b), Shift4(b), Shift5(b), Shift6(b), Shift7(b)];
    forall c | InCube(b, c) ensures c in r {
      var dx, dy, dz := c.x - b.x, c.y - b.y, c.z - b.z;
      assert c == r[dx + 2 * dy + 4 * dz];
    }
    r
  }

  /** The six face neighbours: exactly the cells at unit Manhattan distance. */
  function FaceNeighbours(b: Index3): (r: seq<Index3>)
    ensures |r| == 6
    ensures forall p, q :: 0 <= p < q < 6 ==> r[p] != r[q]
    ensures forall c :: c in r <==> Manhattan(b, c) == 1
  {
    var r := [ShiftXm(b), ShiftXp(b), ShiftYm(b), ShiftYp(b), ShiftZm(b), ShiftZp(b)];
    forall c | Manhattan(b, c) == 1 ensures c in r {
      if c.x < b.x { assert c == r[0]; }
      else if c.x > b.x { assert c == r[1]; }
      else if c.y < b.y { assert c == r[2]; }
      else if c.y > b.y { assert c == r[3]; }
      else if c.z < b.z { assert c == r[4]; }
      else { assert c == r[5]; }
    }
    r
  }

  function AbsInt(x: int): int { if x < 0 then -x else x }

  function Manhattan(a: Index3, b: Index3): nat
  {
    AbsInt(a.x - b.x) + AbsInt(a.y - b.y) + AbsInt(a.z - b.z)
  }

  // ---------------------------------------------------------------------
  // Total pressure

  /** The squared length is non-negative and vanishes only for the zero vector. */
  lemma {:induction false} LengthSquaredZero(v: Vec3r)
    ensures LengthSquared(v) >= 0.0
    ensures LengthSquared(v) == 0.0 <==> v == Zero
  {
    SquareFactsOf(v.x, v.x);
    SquareFactsOf(v.y, v.y);
    SquareFactsOf(v.z, v.z);
    NonNegSum(v.x * v.x, v.y * v.y, v.z * v.z);
  }

  lemma HalfSquarePlus(d: Vec3r, p: real)
    ensures 0.5 * LengthSquared(d) + p >= p
    ensures 0.5 * LengthSquared(d) + p == p <==> d == Zero
  {
    LengthSquaredZero(d);
  }

  // ---------------------------------------------------------------------
  // The sampling base object

  class Sampling {
    const mode: SamplingMode
    const size: Extent
    const guide: nat
    const pch: Vec3r
    const v00: Vec3r
    /** BCindex B, one word per cell in the scalar layout. */
    const bcd: array<int>
    /** The `IS_FLUID` test on a BCindex word. */
    const isFluidCode: int -> bool
    /** The cell that contains the monitor point. */
    const cIndex: Index3

    constructor (mode: SamplingMode, size: Extent, guide: nat, crd: Vec3r, org: Vec3r,
                 pch: Vec3r, v00: Vec3r, bcd: array<int>, isFluidCode: int -> bool)
      requires pch.x != 0.0 && pch.y != 0.0 && pch.z != 0.0
      requires bcd.Length == CellCount(size, guide)
      ensures Valid()
      ensures this.mode == mode && this.size == size && this.guide == guide
      ensures this.pch == pch && this.v00 == v00 && this.bcd == bcd
      ensures this.isFluidCode == isFluidCode
      ensures cIndex == CellIndexOf(crd, org, pch)
    {
      this.mode := mode;
      this.size := size;
      this.guide := guide;
      this.pch := pch;
      this.v00 := v00;
      this.bcd := bcd;
      this.isFluidCode := isFluidCode;
      cIndex := CellIndexOf(crd, org, pch);
    }

    /** BCindex B covers every cell of the block, guide cells included. */
    predicate Valid()
    {
      bcd.Length == CellCount(size, guide)
    }

    predicate InBlock(c: Index3)
    {
      InGrid(size, guide, c.x, c.y, c.z)
    }

    /** Offset of cell `c` in the scalar layout. */
    function Slot(c: Index3): (m: nat)
      requires InBlock(c)
      ensures m < CellCount(size, guide)
    {
      FindexS3D(size, guide, c.x, c.y, c.z)
    }

    /** The `IS_FLUID` test on the BCindex word at cell `c`'s offset in the scalar layout. */
    function IsFluid(c: Index3): (r: bool)
      requires Valid() && InBlock(c)
      reads bcd
      ensures r == isFluidCode(bcd[FindexS3D(size, guide, c.x, c.y, c.z)])
    {
      isFluidCode(bcd[Slot(c)])
    }

    /** Whether the monitor cell agrees with the mode. */
    function CheckMonitorPoint(): (r: PointStatus)
      requires Valid() && (mode == FluidOnly || mode == SolidOnly ==> InBlock(cIndex))
      reads bcd
      ensures r == UnexpectedSolid <==> mode == FluidOnly && !IsFluid(cIndex)
      ensures r == UnexpectedFluid <==> mode == SolidOnly && IsFluid(cIndex)
      ensures r == PointStatusOk <==>
        (mode == FluidOnly ==> IsFluid(cIndex)) && (mode == SolidOnly ==> !IsFluid(cIndex))
    {
      if mode == FluidOnly && !IsFluid(cIndex) then UnexpectedSolid
      else if mode == SolidOnly && IsFluid(cIndex) then UnexpectedFluid
      else PointStatusOk
    }

    /** The value of scalar field `f` at cell `c`. */
    function GetScalar(f: seq<real>, c: Index3): (r: real)
      requires |f| == CellCount(size, guide) && InBlock(c)
      ensures r == f[FindexS3D(size, guide, c.x, c.y, c.z)]
      ensures r in f
    {
      f[Slot(c)]
    }

    /** The value of the interleaved vector field `v` at cell `c`. */
    function GetVector(v: seq<real>, c: Index3): (r: Vec3r)
      requires |v| == 3 * CellCount(size, guide) && InBlock(c)
      ensures r.x == v[3 * Slot(c)] && r.y == v[3 * Slot(c) + 1] && r.z == v[3 * Slot(c) + 2]
    {
      Vec3r(v[FindexV3DEx(size, guide, 0, c.x, c.y, c.z)],
            v[FindexV3DEx(size, guide, 1, c.x, c.y, c.z)],
            v[FindexV3DEx(size, guide, 2, c.x, c.y, c.z)])
    }

    /**
     * Total pressure: half the squared speed relative to the moving frame plus
     * the static pressure. It is never below the static pressure and equals it
     * exactly when the velocity is the frame velocity.
     */
    function CalcTotalPressure(v: Vec3r, p: real): (r: real)
      ensures r >= p
      ensures r == p <==> v == v00
    {
      var v1 := Sub(v, v00);
      HalfSquarePlus(v1, p);
      0.5 * LengthSquared(v1) + p
    }
  }

  /**
   * A scalar lookup sees a write to its own cell and no other: the scalar
   * layout gives every cell of the block a slot of its own.
   */
  lemma {:induction false} GetScalarAfterWrite(s: Sampling, f: seq<real>, c: Index3, c': Index3, x: real)
    requires |f| == CellCount(s.size, s.guide) && s.InBlock(c) && s.InBlock(c')
    ensures s.GetScalar(f[s.Slot(c) := x], c) == x
    ensures c' != c ==> s.GetScalar(f[s.Slot(c) := x], c') == s.GetScalar(f, c')
  {
    if c' != c && s.Slot(c') == s.Slot(c) {
      FindexS3DInjective(s.size, s.guide, c.x, c.y, c.z, c'.x, c'.y, c'.z);
    }
  }

  /**
   * The fluid test of a cell reads that cell's own BCindex word only: writing
   * the word of any other cell of the block leaves it unchanged.
   */
  lemma {:induction false} IsFluidAfterWrite(s: Sampling, c: Index3, c': Index3, w: int)
    requires s.Valid() && s.InBlock(c) && s.InBlock(c') && c' != c
    ensures s.isFluidCode(s.bcd[..][s.Slot(c') := w][s.Slot(c)]) == s.IsFluid(c)
  {
    if s.Slot(c') == s.Slot(c) {
      FindexS3DInjective(s.size, s.guide, c.x, c.y, c.z, c'.x, c'.y, c'.z);
    }
  }

  /**
   * Writing component `l` of cell `c` in the interleaved vector layout changes
   * that component of that cell's vector and nothing else.
   */
  lemma {:induction false} GetVectorAfterWrite(s: Sampling, v: seq<real>, c: Index3, l: nat, c': Index3, x: real)
    requires |v| == 3 * CellCount(s.size, s.guide) && s.InBlock(c) && s.InBlock(c') && l < 3
    ensures var w := s.GetVector(v[3 * s.Slot(c) + l := x], c);
      w == if l == 0 then s.GetVector(v, c).(x := x)
           else if l == 1 then s.GetVector(v, c).(y := x)
           else s.GetVector(v, c).(z := x)
    ensures c' != c ==> s.GetVector(v[3 * s.Slot(c) + l := x], c') == s.GetVector(v, c')
  {
    if c' != c && s.Slot(c') == s.Slot(c) {
      FindexS3DInjective(s.size, s.guide, c.x, c.y, c.z, c'.x, c'.y, c'.z);
    }
  }

  // ---------------------------------------------------------------------
  // Strategies

  /** Samples the value of the cell that contains the monitor point. */
  class Nearest {
    const s: Sampling

    constructor (s: Sampling)
      ensures this.s == s
    {
      this.s := s;
    }

    function SamplingScalar(f: seq<real>): (r: real)
      requires |f| == CellCount(s.size, s.guide) && s.InBlock(s.cIndex)
      ensures r == s.GetScalar(f, s.cIndex)
    {
      s.GetScalar(f, s.cIndex)
    }

    function SamplingPressure(p: seq<real>): (r: real)
      requires |p| == CellCount(s.size, s.guide) && s.InBlock(s.cIndex)
      ensures r == SamplingScalar(p)
    {
      SamplingScalar(p)
    }

    function SamplingTemperature(t: seq<real>): (r: real)
      requires |t| == CellCount(s.size, s.guide) && s.InBlock(s.cIndex)
      ensures r == SamplingScalar(t)
    {
      SamplingScalar(t)
    }

    function SamplingVelocity(v: seq<real>): (r: Vec3r)
      requires |v| == 3 * CellCount(s.size, s.guide) && s.InBlock(s.cIndex)
      ensures r == s.GetVector(v, s.cIndex)
    {
      s.GetVector(v, s.cIndex)
    }
  }

  /** Nearest sampling of a field that holds one value everywhere returns that value. */
  lemma NearestOfUniform(n: Nearest, f: seq<real>, x: real)
    requires |f| == CellCount(n.s.size, n.s.guide) && n.s.InBlock(n.s.cIndex)
    requires forall m :: 0 <= m < |f| ==> f[m] == x
    ensures n.SamplingScalar(f) == x
  {
  }

  /** Local averaging over the monitor cell and those face neighbours the mode admits. */
  class Smoothing {
    const s: Sampling

    constructor (s: Sampling)
      ensures this.s == s
    {
      this.s := s;
    }

    /** Whether cell `c` may take part in the average. */
    function PermitToAdd(c: Index3): (r: bool)
      requires s.Valid() && s.InBlock(c)
      reads s.bcd
      ensures s.mode == All ==> r
      ensures s.mode == FluidOnly ==> r == s.IsFluid(c)
      ensures s.mode == SolidOnly ==> r == !s.IsFluid(c)
    {
      if s.mode == FluidOnly then s.IsFluid(c)
      else if s.mode == SolidOnly then !s.IsFluid(c)
      else true
    }
  }

  /** The monitor cell is reported as expected exactly when the mode admits it to an average. */
  lemma MonitorPointAdmitted(sm: Smoothing)
    requires sm.s.Valid() && sm.s.InBlock(sm.s.cIndex)
    ensures sm.s.CheckMonitorPoint() == PointStatusOk <==> sm.PermitToAdd(sm.s.cIndex)
  {
  }

  /**
   * Trilinear interpolation over the 2x2x2 stencil whose lowest cell is
   * `base`, falling back to the monitor cell's own value when a stencil cell
   * other than the monitor cell is of the material the mode excludes.
   */
  class Interpolation {
    const s: Sampling
    const base: Index3
    var onBoundary: bool

    /** The whole stencil lies in the block and contains the monitor cell. */
    predicate StencilOk()
    {
      s.cIndex in Stencil(base) && forall c :: c in Stencil(base) ==> s.InBlock(c)
    }

    predicate Valid()
      reads this, s.bcd
    {
      s.Valid() && StencilOk() &&
      (onBoundary <==> exists c :: c in Stencil(base) && c != s.cIndex && CheckBoundary(c))
    }

    constructor (s: Sampling, base: Index3)
      requires s.Valid() && s.cIndex in Stencil(base)
      requires forall c :: c in Stencil(base) ==> s.InBlock(c)
      ensures this.s == s && this.base == base
      ensures Valid()
    {
      this.s := s;
      this.base := base;
      new;
      onBoundary := exists c :: c in Stencil(base) && c != s.cIndex && CheckBoundary(c);
    }

    /** Whether cell `c` is of the material the mode excludes. */
    function CheckBoundary(c: Index3): (r: bool)
      requires s.Valid() && s.InBlock(c)
      reads s.bcd
      ensures s.mode == All ==> !r
      ensures s.mode == FluidOnly ==> r == !s.IsFluid(c)
      ensures s.mode == SolidOnly ==> r == s.IsFluid(c)
    {
      if s.mode == FluidOnly then !s.IsFluid(c)
      else if s.mode == SolidOnly then s.IsFluid(c)
      else false
    }

    /** The eight stencil values of scalar field `f`, in stencil order. */
    function StencilValues(f: seq<real>): (r: seq<real>)
      requires StencilOk() && |f| == CellCount(s.size, s.guide)
      ensures |r| == 8
      ensures forall p :: 0 <= p < 8 ==> r[p] == s.GetScalar(f, Stencil(base)[p])
    {
      var st := Stencil(base);
      seq(8, p requires 0 <= p < 8 => s.GetScalar(f, st[p]))
    }

    /**
     * Scalar sampling: the monitor cell's value on a material boundary, and
     * otherwise `blend` (the trilinear weights) applied to the stencil values.
     */
    function SamplingScalar(f: seq<real>, blend: seq<real> -> real): (r: real)
      requires StencilOk() && |f| == CellCount(s.size, s.guide)
      reads this
      ensures onBoundary ==> r == s.GetScalar(f, s.cIndex)
      ensures !onBoundary ==> r == blend(StencilValues(f))
    {
      if onBoundary then s.GetScalar(f, s.cIndex) else blend(StencilValues(f))
    }

    /** The eight stencil vectors of interleaved vector field `v`, in stencil order. */
    function StencilVectors(v: seq<real>): (r: seq<Vec3r>)
      requires StencilOk() && |v| == 3 * CellCount(s.size, s.guide)
      ensures |r| == 8
      ensures forall p :: 0 <= p < 8 ==> r[p] == s.GetVector(v, Stencil(base)[p])
    {
      var st := Stencil(base);
      seq(8, p requires 0 <= p < 8 => s.GetVector(v, st[p]))
    }

    /**
     * Vector sampling: the monitor cell's vector on a material boundary, and
     * otherwise `blendV` (the trilinear weights, component by component)
     * applied to the stencil vectors.
     */
    function SamplingVelocity(v: seq<real>, blendV: seq<Vec3r> -> Vec3r): (r: Vec3r)
      requires StencilOk() && |v| == 3 * CellCount(s.size, s.guide)
      reads this
      ensures onBoundary ==> r == s.GetVector(v, s.cIndex)
      ensures !onBoundary ==> r == blendV(StencilVectors(v))
    {
      if onBoundary then s.GetVector(v, s.cIndex) else blendV(StencilVectors(v))
    }

    function SamplingPressure(p: seq<real>, blend: seq<real> -> real): (r: real)
      requires StencilOk() && |p| == CellCount(s.size, s.guide)
      reads this
      ensures r == SamplingScalar(p, blend)
    {
      SamplingScalar(p, blend)
    }

    function SamplingTemperature(t: seq<real>, blend: seq<real> -> real): (r: real)
      requires StencilOk() && |t| == CellCount(s.size, s.guide)
      reads this
      ensures r == SamplingScalar(t, blend)
    {
      SamplingScalar(t, blend)
    }
  }

  /** A boundary cell is exactly a cell that Smoothing would not admit, outside "all" mode. */
  lemma CheckBoundaryIsNotPermit(it: Interpolation, sm: Smoothing, c: Index3)
    requires it.s == sm.s && it.s.Valid() && it.s.InBlock(c)
    ensures it.s.mode == All ==> !it.CheckBoundary(c) && sm.PermitToAdd(c)
    ensures it.s.mode != All ==> it.CheckBoundary(c) == !sm.PermitToAdd(c)
  {
  }

  /** In "all" mode interpolation never falls back. */
  lemma AllModeNeverOnBoundary(it: Interpolation)
    requires it.Valid() && it.s.mode == All
    ensures !it.onBoundary
  {
  }

  /**
   * On a boundary, interpolation returns what Nearest returns; a stencil that
   * is all of the admitted material uses the blend.
   */
  lemma InterpolationFallback(it: Interpolation, n: Nearest, f: seq<real>, blend: seq<real> -> real)
    requires it.Valid() && n.s == it.s && |f| == CellCount(it.s.size, it.s.guide)
    ensures it.onBoundary ==> it.SamplingScalar(f, blend) == n.SamplingScalar(f)
    ensures (forall c :: c in Stencil(it.base) ==> !it.CheckBoundary(c)) ==>
      it.SamplingScalar(f, blend) == blend(it.StencilValues(f))
  {
  }

  /**
   * Velocity follows the same rule: on a boundary, interpolation returns the
   * vector Nearest returns; a stencil that is all of the admitted material
   * uses the blend.
   */
  lemma InterpolationVelocityFallback(it: Interpolation, n: Nearest, v: seq<real>, blendV: seq<Vec3r> -> Vec3r)
    requires it.Valid() && n.s == it.s && |v| == 3 * CellCount(it.s.size, it.s.guide)
    ensures it.onBoundary ==> it.SamplingVelocity(v, blendV) == n.SamplingVelocity(v)
    ensures (forall c :: c in Stencil(it.base) ==> !it.CheckBoundary(c)) ==>
      it.SamplingVelocity(v, blendV) == blendV(it.StencilVectors(v))
  {
  }
}
