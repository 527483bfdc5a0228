/**
 * Guide-cell size reconciliation between a source and a destination field
 * (CalcIndex of src/FB/FileIO.h).
 *
 * The source computes on C `unsigned` and `int`: differences are taken
 * modulo 2^32 and reinterpreted as signed, and the sums are stored back into
 * unsigned variables. This model writes both conversions out.
 */
module FileIO {

  const TWO32: int := 0x1_0000_0000
  const TWO31: int := 0x8000_0000

  /** A C `unsigned` value. */
  type u32 = x: int | 0 <= x < 0x1_0000_0000

  /** Storing an integer into an `unsigned`: reduction modulo 2^32. */
  function ToU32(x: int): (r: u32)
    ensures (r - x) % TWO32 == 0
    ensures 0 <= x < TWO32 ==> r == x
  {
    x % TWO32
  }

  /** Reinterpreting an `unsigned` as a two's-complement `int`. */
  function ToInt32(x: u32): (r: int)
    ensures -TWO31 <= r < TWO31
    ensures (r - x) % TWO32 == 0
  {
    if x < TWO31 then x else x - TWO32
  }

  function AbsInt(x: int): (r: int)
    ensures r >= 0 && (r == x || r == -x)
  {
    if x < 0 then -x else x
  }

  /** The five out-parameters of CalcIndex. */
  datatype GuideIndex = GuideIndex(ix: u32, jx: u32, kx: u32, diff: int, sta: u32)

  /**
   * Lengths to copy and the start offset when a field written with `srcGc`
   * guide cells is read into a block of `dstGc` guide cells whose lengths
   * (guide cells included) are ilen, jlen and klen.
   */
  function CalcIndex(ilen: u32, jlen: u32, klen: u32, dstGc: u32, srcGc: u32): (r: GuideIndex)
    ensures -TWO31 <= r.diff < TWO31 && (r.diff - (srcGc - dstGc)) % TWO32 == 0
    ensures srcGc >= dstGc ==> r.sta == 0 && r.ix == ilen && r.jx == jlen && r.kx == klen
    ensures srcGc < dstGc ==> r.sta == AbsInt(r.diff)
    ensures srcGc < dstGc ==>
      && (r.ix - (ilen + r.diff)) % TWO32 == 0
      && (r.jx - (jlen + r.diff)) % TWO32 == 0
      && (r.kx - (klen + r.diff)) % TWO32 == 0
  {
    var diff := ToInt32(ToU32(srcGc - dstGc));
    if srcGc >= dstGc then
      GuideIndex(ilen, jlen, klen, diff, 0)
    else
      GuideIndex(ToU32(ilen + diff), ToU32(jlen + diff), ToU32(klen + diff), diff, ToU32(AbsInt(diff)))
  }

  /** When the two widths differ by less than 2^31, `diff` is exactly srcGc - dstGc. */
  lemma CalcIndexDiff(ilen: u32, jlen: u32, klen: u32, dstGc: u32, srcGc: u32)
    requires -TWO31 <= srcGc - dstGc < TWO31
    ensures CalcIndex(ilen, jlen, klen, dstGc, srcGc).diff == srcGc - dstGc
  {
    var r := CalcIndex(ilen, jlen, klen, dstGc, srcGc);
    var d := srcGc - dstGc;
    SameResidueInWindow(r.diff, d);
  }

  /** Two integers in one window of width 2^32 that agree modulo 2^32 are equal. */
  lemma SameResidueInWindow(a: int, b: int)
    requires -TWO31 <= a < TWO31 && -TWO31 <= b < TWO31
    requires (a - b) % TWO32 == 0
    ensures a == b
  {
    var q := (a - b) / TWO32;
    assert a - b == TWO32 * q;
  }

  /**
   * Whenever no length wraps around: the start offset is max(0, -diff), every
   * axis is shortened by that same amount, and length plus offset gives back
   * the destination length on every axis.
   */
  lemma CalcIndexOffsets(ilen: u32, jlen: u32, klen: u32, dstGc: u32, srcGc: u32)
    requires -TWO31 <= srcGc - dstGc < TWO31
    requires srcGc < dstGc ==> dstGc - srcGc <= ilen && dstGc - srcGc <= jlen && dstGc - srcGc <= klen
    ensures var r := CalcIndex(ilen, jlen, klen, dstGc, srcGc);
      && r.sta == (if r.diff < 0 then -r.diff else 0)
      && r.ix + r.sta == ilen
      && r.jx + r.sta == jlen
      && r.kx + r.sta == klen
  {
    var r := CalcIndex(ilen, jlen, klen, dstGc, srcGc);
    CalcIndexDiff(ilen, jlen, klen, dstGc, srcGc);
    if srcGc < dstGc {
      assert 0 <= ilen + r.diff < TWO32;
      assert 0 <= jlen + r.diff < TWO32;
      assert 0 <= klen + r.diff < TWO32;
    }
  }
}
