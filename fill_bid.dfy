/**
 * One step of the naive flood fill by boundary ID (src/Geometry/fill_bid_naive.h).
 *
 * The fragment is the body of a loop over the cells (i, j, k) of a block. An
 * unpainted cell is painted with the target ID `tg` when some face neighbour
 * already carries `tg` and the face shared with it carries no boundary ID.
 * Neighbours across a face of the whole domain are ignored when the axis is
 * not switched on for filling. The bit-field macros that decode and encode the
 * BCindex words and the boundary-ID words are parameters.
 */
module FillBid {
  import opened FBUtility

  /** A cell of the block. */
  datatype Cell = Cell(i: int, j: int, k: int)

  /** The six face directions, in the order the fragment tests them. */
  datatype Dir = W | E | S | N | B | T

  const Dirs: seq<Dir> := [W, E, S, N, B, T]

  /** The bit-field macros: DECODE_CMP, getBit5 and setBitID. */
  datatype BitCodec = BitCodec(decodeCmp: int -> int, getBit5: (int, int) -> int, setBitId: (int, int) -> int)

  /**
   * The neighbouring ranks on the six faces (negative when the face is a face
   * of the whole domain) and the per-axis switches that allow filling across
   * a domain face.
   */
  datatype Edges = Edges(sdw: int, sde: int, sds: int, sdn: int, sdb: int, sdt: int,
                         modeX: bool, modeY: bool, modeZ: bool)

  /** Everything one step reads besides the two arrays. */
  datatype FillContext = FillContext(sz: Extent, gd: nat, c: Cell, tg: int, edges: Edges, codec: BitCodec)

  /** The field of the boundary-ID word that belongs to each face. */
  function Field(d: Dir): (f: nat)
    ensures f < 6 && Dirs[f] == d
  {
    match d
    case W => 0
    case E => 1
    case S => 2
    case N => 3
    case B => 4
    case T => 5
  }

  /** The neighbour across face `d`: one step along one axis. */
  function Step(d: Dir, c: Cell): (r: Cell)
    ensures AbsInt(r.i - c.i) + AbsInt(r.j - c.j) + AbsInt(r.k - c.k) == 1
    ensures d == W ==> r.i < c.i
    ensures d == E ==> r.i > c.i
    ensures d == S ==> r.j < c.j
    ensures d == N ==> r.j > c.j
    ensures d == B ==> r.k < c.k
    ensures d == T ==> r.k > c.k
  {
    match d
    case W => Cell(c.i - 1, c.j, c.k)
    case E => Cell(c.i + 1, c.j, c.k)
    case S => Cell(c.i, c.j - 1, c.k)
    case N => Cell(c.i, c.j + 1, c.k)
    case B => Cell(c.i, c.j, c.k - 1)
    case T => Cell(c.i, c.j, c.k + 1)
  }

  function AbsInt(x: int): int { if x < 0 then -x else x }

  /** The six neighbours are six different cells. */
  lemma StepsDistinct(c: Cell, d: Dir, d': Dir)
    requires d != d'
    ensures Step(d, c) != Step(d', c)
  {
  }

  /** The cell and its six face neighbours lie in the block, guide cells included. */
  predicate Ready(ctx: FillContext, bcd: seq<int>, bid: seq<int>)
  {
    && |bcd| == CellCount(ctx.sz, ctx.gd)
    && |bid| == CellCount(ctx.sz, ctx.gd)
    && 1 - ctx.gd < ctx.c.i && ctx.c.i < ctx.sz.ix + ctx.gd
    && 1 - ctx.gd < ctx.c.j && ctx.c.j < ctx.sz.jx + ctx.gd
    && 1 - ctx.gd < ctx.c.k && ctx.c.k < ctx.sz.kx + ctx.gd
  }

  function Slot(ctx: FillContext, c: Cell): int
  {
    FindexS3D(ctx.sz, ctx.gd, c.i, c.j, c.k)
  }

  lemma SlotsInRange(ctx: FillContext, bcd: seq<int>, bid: seq<int>, d: Dir)
    requires Ready(ctx, bcd, bid)
    ensures 0 <= Slot(ctx, ctx.c) < |bcd|
    ensures 0 <= Slot(ctx, Step(d, ctx.c)) < |bcd|
  {
  }

  /** Face `d` is ignored: it is a face of the domain on an axis not switched on. */
  predicate Skipped(ctx: FillContext, d: Dir)
  {
    var e, c, sz := ctx.edges, ctx.c, ctx.sz;
    match d
    case W => e.sdw < 0 && c.i == 1 && !e.modeX
    case E => e.sde < 0 && c.i == sz.ix && !e.modeX
    case S => e.sds < 0 && c.j == 1 && !e.modeY
    case N => e.sdn < 0 && c.j == sz.jx && !e.modeY
    case B => e.sdb < 0 && c.k == 1 && !e.modeZ
    case T => e.sdt < 0 && c.k == sz.kx && !e.modeZ
  }

  /**
   * A skipped face always leads out of the block's interior, onto a guide
   * cell, and no face is skipped on an axis whose switch is on.
   */
  lemma SkippedLeavesInterior(ctx: FillContext, d: Dir)
    ensures Skipped(ctx, d) ==>
      var n := Step(d, ctx.c);
      !(1 <= n.i <= ctx.sz.ix && 1 <= n.j <= ctx.sz.jx && 1 <= n.k <= ctx.sz.kx)
    ensures (d == W || d == E) && ctx.edges.modeX ==> !Skipped(ctx, d)
    ensures (d == S || d == N) && ctx.edges.modeY ==> !Skipped(ctx, d)
    ensures (d == B || d == T) && ctx.edges.modeZ ==> !Skipped(ctx, d)
  {
  }

  /** Decoded component ID of the neighbour across face `d`. */
  function NeighbourId(ctx: FillContext, bcd: seq<int>, bid: seq<int>, d: Dir): int
    requires Ready(ctx, bcd, bid)
  {
    SlotsInRange(ctx, bcd, bid, d);
    ctx.codec.decodeCmp(bcd[Slot(ctx, Step(d, ctx.c))])
  }

  /** Boundary ID that the cell carries on face `d`. */
  function FaceId(ctx: FillContext, bcd: seq<int>, bid: seq<int>, d: Dir): int
    requires Ready(ctx, bcd, bid)
  {
    SlotsInRange(ctx, bcd, bid, d);
    ctx.codec.getBit5(bid[Slot(ctx, ctx.c)], Field(d))
  }

  /** Face `d` is considered, its neighbour carries `tg`, and the face has no boundary ID. */
  predicate Joins(ctx: FillContext, bcd: seq<int>, bid: seq<int>, d: Dir)
    requires Ready(ctx, bcd, bid)
  {
    !Skipped(ctx, d) && NeighbourId(ctx, bcd, bid, d) == ctx.tg && FaceId(ctx, bcd, bid, d) == 0
  }

  /** The number of faces among `ds` that join, counted in order. */
  function CountJoins(ctx: FillContext, bcd: seq<int>, bid: seq<int>, ds: seq<Dir>): nat
    requires Ready(ctx, bcd, bid)
  {
    if ds == [] then 0
    else CountJoins(ctx, bcd, bid, ds[..|ds| - 1]) + (if Joins(ctx, bcd, bid, ds[|ds| - 1]) then 1 else 0)
  }

  /** The count is at most the number of faces, and positive exactly when some face joins. */
  lemma {:induction false} CountJoinsRange(ctx: FillContext, bcd: seq<int>, bid: seq<int>, ds: seq<Dir>)
    requires Ready(ctx, bcd, bid)
    ensures CountJoins(ctx, bcd, bid, ds) <= |ds|
    ensures CountJoins(ctx, bcd, bid, ds) > 0 <==> exists d :: d in ds && Joins(ctx, bcd, bid, d)
  {
    if ds != [] {
      var init, last := ds[..|ds| - 1], ds[|ds| - 1];
      CountJoinsRange(ctx, bcd, bid, init);
      assert ds == init + [last];
      if CountJoins(ctx, bcd, bid, init) > 0 {
        var d :| d in init && Joins(ctx, bcd, bid, d);
        assert d in ds;
      }
    }
  }

  /** The value of `tag` once all six faces are tested. */
  function Tag(ctx: FillContext, bcd: seq<int>, bid: seq<int>): (t: nat)
    requires Ready(ctx, bcd, bid)
    ensures t <= 6
    ensures t > 0 <==> exists d :: Joins(ctx, bcd, bid, d)
  {
    CountJoinsRange(ctx, bcd, bid, Dirs);
    forall d ensures d in Dirs {
      assert Dirs[Field(d)] == d;
    }
    CountJoins(ctx, bcd, bid, Dirs)
  }

  /** Decoded component ID of the cell itself. */
  function OwnId(ctx: FillContext, bcd: seq<int>, bid: seq<int>): int
    requires Ready(ctx, bcd, bid)
  {
    SlotsInRange(ctx, bcd, bid, W);
    ctx.codec.decodeCmp(bcd[Slot(ctx, ctx.c)])
  }

  /**
   * The step paints the cell exactly when it is unpainted and some considered
   * face neighbour carries `tg` across a face without a boundary ID.
   */
  predicate Paints(ctx: FillContext, bcd: seq<int>, bid: seq<int>)
    requires Ready(ctx, bcd, bid)
  {
    OwnId(ctx, bcd, bid) == 0 && Tag(ctx, bcd, bid) > 0
  }

  lemma PaintsIff(ctx: FillContext, bcd: seq<int>, bid: seq<int>)
    requires Ready(ctx, bcd, bid)
    ensures Paints(ctx, bcd, bid) <==>
      OwnId(ctx, bcd, bid) == 0 &&
      (exists d :: !Skipped(ctx, d) && NeighbourId(ctx, bcd, bid, d) == ctx.tg && FaceId(ctx, bcd, bid, d) == 0)
  {
    if exists d :: !Skipped(ctx, d) && NeighbourId(ctx, bcd, bid, d) == ctx.tg && FaceId(ctx, bcd, bid, d) == 0 {
      var d :| !Skipped(ctx, d) && NeighbourId(ctx, bcd, bid, d) == ctx.tg && FaceId(ctx, bcd, bid, d) == 0;
      assert Joins(ctx, bcd, bid, d);
    }
  }

  /** A painted cell is never painted again: the step leaves it alone. */
  lemma PaintedCellUnchanged(ctx: FillContext, bcd: seq<int>, bid: seq<int>)
    requires Ready(ctx, bcd, bid) && OwnId(ctx, bcd, bid) != 0
    ensures AfterStep(ctx, bcd, bid) == bcd
  {
  }

  /** The BCindex array after the step: only the cell's own word may change. */
  function AfterStep(ctx: FillContext, bcd: seq<int>, bid: seq<int>): (r: seq<int>)
    requires Ready(ctx, bcd, bid)
    ensures |r| == |bcd|
    ensures forall m :: 0 <= m < |bcd| && m != Slot(ctx, ctx.c) ==> r[m] == bcd[m]
    ensures Paints(ctx, bcd, bid) ==> r[Slot(ctx, ctx.c)] == ctx.codec.setBitId(bcd[Slot(ctx, ctx.c)], ctx.tg)
    ensures !Paints(ctx, bcd, bid) ==> r == bcd
  {
    SlotsInRange(ctx, bcd, bid, W);
    var mp := Slot(ctx, ctx.c);
    if Paints(ctx, bcd, bid) then bcd[mp := ctx.codec.setBitId(bcd[mp], ctx.tg)] else bcd
  }

  /**
   * One fill step at cell ctx.c: counts the joining faces in `tag`, and when
   * the cell is unpainted and `tag` is positive writes `tg` into its word and
   * counts it in `filled`. The boundary-ID array is only read.
   */
  method FillStep(bcd: array<int>, bid: array<int>, ctx: FillContext, filled: int) returns (filledOut: int)
    requires Ready(ctx, bcd[..], bid[..])
    modifies bcd
    ensures filledOut == filled + (if Paints(ctx, old(bcd[..]), old(bid[..])) then 1 else 0)
    ensures bcd[..] == AfterStep(ctx, old(bcd[..]), old(bid[..]))
  {
    ghost var b0, q0 := bcd[..], bid[..];
    var tg, e, cd := ctx.tg, ctx.edges, ctx.codec;
    forall d: Dir ensures 0 <= Slot(ctx, Step(d, ctx.c)) < bcd.Length && 0 <= Slot(ctx, ctx.c) < bcd.Length {
      SlotsInRange(ctx, b0, q0, d);
    }

    var mp := Slot(ctx, ctx.c);
    var me := Slot(ctx, Step(E, ctx.c));
    var mw := Slot(ctx, Step(W, ctx.c));
    var mn := Slot(ctx, Step(N, ctx.c));
    var ms := Slot(ctx, Step(S, ctx.c));
    var mt := Slot(ctx, Step(T, ctx.c));
    var mb := Slot(ctx, Step(B, ctx.c));

    var zp := cd.decodeCmp(bcd[mp]);
    var zw := cd.decodeCmp(bcd[mw]);
    var ze := cd.decodeCmp(bcd[me]);
    var zs := cd.decodeCmp(bcd[ms]);
    var zn := cd.decodeCmp(bcd[mn]);
    var zb := cd.decodeCmp(bcd[mb]);
    var zt := cd.decodeCmp(bcd[mt]);
    assert zp == OwnId(ctx, b0, q0);
    assert zw == NeighbourId(ctx, b0, q0, W) && ze == NeighbourId(ctx, b0, q0, E);
    assert zs == NeighbourId(ctx, b0, q0, S) && zn == NeighbourId(ctx, b0, q0, N);
    assert zb == NeighbourId(ctx, b0, q0, B) && zt == NeighbourId(ctx, b0, q0, T);

    filledOut := filled;
    if zp == 0 {
      var qq := bid[mp];
      var qw := cd.getBit5(qq, 0);
      var qe := cd.getBit5(qq, 1);
      var qs := cd.getBit5(qq, 2);
      var qn := cd.getBit5(qq, 3);
      var qb := cd.getBit5(qq, 4);
      var qt := cd.getBit5(qq, 5);
      assert qq == q0[Slot(ctx, ctx.c)];

      JoinsAt(ctx, b0, q0, W, zw, qw);
      JoinsAt(ctx, b0, q0, E, ze, qe);
      JoinsAt(ctx, b0, q0, S, zs, qs);
      JoinsAt(ctx, b0, q0, N, zn, qn);
      JoinsAt(ctx, b0, q0, B, zb, qb);
      JoinsAt(ctx, b0, q0, T, zt, qt);
      TagAsSum(ctx, b0, q0);
      ghost var jw, je, js := Indicator(Joins(ctx, b0, q0, W)), Indicator(Joins(ctx, b0, q0, E)), Indicator(Joins(ctx, b0, q0, S));
      ghost var jn, jb, jt := Indicator(Joins(ctx, b0, q0, N)), Indicator(Joins(ctx, b0, q0, B)), Indicator(Joins(ctx, b0, q0, T));

      var tag := 0;
      if !(e.sdw < 0 && ctx.c.i == 1 && !e.modeX) && zw == tg && qw == 0 {
        tag := tag + 1;
      }
      assert tag == jw;
      if !(e.sde < 0 && ctx.c.i == ctx.sz.ix && !e.modeX) && ze == tg && qe == 0 {
        tag := tag + 1;
      }
      assert tag == jw + je;
      if !(e.sds < 0 && ctx.c.j == 1 && !e.modeY) && zs == tg && qs == 0 {
        tag := tag + 1;
      }
      assert tag == jw + je + js;
      if !(e.sdn < 0 && ctx.c.j == ctx.sz.jx && !e.modeY) && zn == tg && qn == 0 {
        tag := tag + 1;
      }
      assert tag == jw + je + js + jn;
      if !(e.sdb < 0 && ctx.c.k == 1 && !e.modeZ) && zb == tg && qb == 0 {
        tag := tag + 1;
      }
      assert tag == jw + je + js + jn + jb;
      if !(e.sdt < 0 && ctx.c.k == ctx.sz.kx && !e.modeZ) && zt == tg && qt == 0 {
        tag := tag + 1;
      }
      assert tag == jw + je + js + jn + jb + jt;
      assert tag == Tag(ctx, b0, q0);

      if tag > 0 {
        if cd.decodeCmp(bcd[mp]) == 0 {
          bcd[mp] := cd.setBitId(bcd[mp], tg);
          filledOut := filledOut + 1;
        }
      } else {
        assert !Paints(ctx, b0, q0);
      }
    }
  }

  /** The neighbour and face IDs read for face `d` decide whether it joins. */
  lemma JoinsAt(ctx: FillContext, bcd: seq<int>, bid: seq<int>, d: Dir, z: int, q: int)
    requires Ready(ctx, bcd, bid)
    requires z == NeighbourId(ctx, bcd, bid, d) && q == FaceId(ctx, bcd, bid, d)
    ensures Joins(ctx, bcd, bid, d) <==> !Skipped(ctx, d) && z == ctx.tg && q == 0
  {
  }

  function Indicator(b: bool): nat { if b then 1 else 0 }

  /** `tag` adds one for each joining face, tested in the order W, E, S, N, B, T. */
  lemma {:induction false} TagAsSum(ctx: FillContext, bcd: seq<int>, bid: seq<int>)
    requires Ready(ctx, bcd, bid)
    ensures Tag(ctx, bcd, bid) ==
      Indicator(Joins(ctx, bcd, bid, W)) + Indicator(Joins(ctx, bcd, bid, E)) +
      Indicator(Joins(ctx, bcd, bid, S)) + Indicator(Joins(ctx, bcd, bid, N)) +
      Indicator(Joins(ctx, bcd, bid, B)) + Indicator(Joins(ctx, bcd, bid, T))
  {
    AppendOne(ctx, bcd, bid, [], W);
    assert [] + [W] == [W];
    AppendOne(ctx, bcd, bid, [W], E);
    assert [W] + [E] == [W, E];
    AppendOne(ctx, bcd, bid, [W, E], S);
    assert [W, E] + [S] == [W, E, S];
    AppendOne(ctx, bcd, bid, [W, E, S], N);
    assert [W, E, S] + [N] == [W, E, S, N];
    AppendOne(ctx, bcd, bid, [W, E, S, N], B);
    assert [W, E, S, N] + [B] == [W, E, S, N, B];
    AppendOne(ctx, bcd, bid, [W, E, S, N, B], T);
    assert [W, E, S, N, B] + [T] == Dirs;
    assert Tag(ctx, bcd, bid) == CountJoins(ctx, bcd, bid, Dirs);
  }

  lemma AppendOne(ctx: FillContext, bcd: seq<int>, bid: seq<int>, ds: seq<Dir>, d: Dir)
    requires Ready(ctx, bcd, bid)
    ensures CountJoins(ctx, bcd, bid, ds + [d]) ==
      CountJoins(ctx, bcd, bid, ds) + Indicator(Joins(ctx, bcd, bid, d))
  {
    assert (ds + [d])[..|ds|] == ds;
  }
}
