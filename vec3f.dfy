/**
 * Three-component vector helpers (src/FB/vec3f_func.h).
 *
 * The helpers that write a result take the output array first and may be
 * called with the output array equal to one of the inputs. Each such helper is
 * a method on arrays of length 3, proved against a function on the values;
 * the inner product and the squared distance are functions.
 */
module Vec3f {
  import opened RealArith

  /** The value of a three-element array. */
  type Vec3 = s: seq<real> | |s| == 3 witness [0.0, 0.0, 0.0]

  // ---------------------------------------------------------------------
  // Values

  /** Componentwise minimum; on a tie the second operand is taken. */
  function Minimum(a: Vec3, b: Vec3): (r: Vec3)
    ensures forall n :: 0 <= n < 3 ==> r[n] <= a[n] && r[n] <= b[n] && (r[n] == a[n] || r[n] == b[n])
  {
    [if a[0] < b[0] then a[0] else b[0],
     if a[1] < b[1] then a[1] else b[1],
     if a[2] < b[2] then a[2] else b[2]]
  }

  /** Componentwise maximum; on a tie the second operand is taken. */
  function Maximum(a: Vec3, b: Vec3): (r: Vec3)
    ensures forall n :: 0 <= n < 3 ==> r[n] >= a[n] && r[n] >= b[n] && (r[n] == a[n] || r[n] == b[n])
  {
    [if a[0] > b[0] then a[0] else b[0],
     if a[1] > b[1] then a[1] else b[1],
     if a[2] > b[2] then a[2] else b[2]]
  }

  function Sum(a: Vec3, b: Vec3): Vec3
  {
    [a[0] + b[0], a[1] + b[1], a[2] + b[2]]
  }

  function Difference(a: Vec3, b: Vec3): Vec3
  {
    [a[0] - b[0], a[1] - b[1], a[2] - b[2]]
  }

  function Product(a: Vec3, b: Vec3): Vec3
  {
    [a[0] * b[0], a[1] * b[1], a[2] * b[2]]
  }

  function Scaled(a: Vec3, b: real): Vec3
  {
    [a[0] * b, a[1] * b, a[2] * b]
  }

  function Quotient(a: Vec3, b: Vec3): Vec3
    requires b[0] != 0.0 && b[1] != 0.0 && b[2] != 0.0
  {
    [a[0] / b[0], a[1] / b[1], a[2] / b[2]]
  }

  function Negated(a: Vec3): Vec3
  {
    [-a[0], -a[1], -a[2]]
  }

  function CrossProduct(a: Vec3, b: Vec3): Vec3
  {
    [a[1] * b[2] - a[2] * b[1],
     a[2] * b[0] - a[0] * b[2],
     a[0] * b[1] - a[1] * b[0]]
  }

  /**
   * What the cross-product helper leaves in its output when the output array
   * is `a` (aliasA), `b` (aliasB), both or neither: each component is computed
   * from the inputs as they stand after the earlier components were written.
   */
  function CrossAsWritten(a: Vec3, b: Vec3, aliasA: bool, aliasB: bool): Vec3
  {
    var c0 := a[1] * b[2] - a[2] * b[1];
    var a0 := if aliasA then c0 else a[0];
    var b0 := if aliasB then c0 else b[0];
    var c1 := a[2] * b0 - a0 * b[2];
    var a1 := if aliasA then c1 else a[1];
    var b1 := if aliasB then c1 else b[1];
    var c2 := a0 * b1 - a1 * b0;
    [c0, c1, c2]
  }

  /** Inner product. */
  function Dot(a: Vec3, b: Vec3): (r: real)
    ensures a == b ==> r >= 0.0 && (r == 0.0 <==> a == [0.0, 0.0, 0.0])
  {
    if a == b then
      SquareFactsOf(a[0], b[0]);
      SquareFactsOf(a[1], b[1]);
      SquareFactsOf(a[2], b[2]);
      NonNegSum(a[0] * b[0], a[1] * b[1], a[2] * b[2]);
      a[0] * b[0] + a[1] * b[1] + a[2] * b[2]
    else
      a[0] * b[0] + a[1] * b[1] + a[2] * b[2]
  }

  /** Squared distance: non-negative, zero only between equal points, and the
   *  inner product of the difference with itself. */
  function SqDist(a: Vec3, b: Vec3): (r: real)
    ensures r >= 0.0
    ensures r == 0.0 <==> a == b
    ensures r == Dot(Difference(a, b), Difference(a, b))
  {
    var x := a[0] - b[0];
    var y := a[1] - b[1];
    var z := a[2] - b[2];
    SquareFactsOf(x, x);
    SquareFactsOf(y, y);
    SquareFactsOf(z, z);
    NonNegSum(x * x, y * y, z * z);
    x * x + y * y + z * z
  }

  // ---------------------------------------------------------------------
  // Properties

  /** The componentwise minimum never exceeds the componentwise maximum. */
  lemma MinBelowMax(a: Vec3, b: Vec3)
    ensures forall n :: 0 <= n < 3 ==> Minimum(a, b)[n] <= Maximum(a, b)[n]
  {
  }

  /** Subtracting what was added gives the original vector back. */
  lemma PlusMinusRoundTrip(a: Vec3, b: Vec3)
    ensures Difference(Sum(a, b), b) == a
    ensures Sum(Difference(a, b), b) == a
  {
  }

  /** The cross product is orthogonal to both operands. */
  lemma CrossOrthogonal(a: Vec3, b: Vec3)
    ensures Dot(a, CrossProduct(a, b)) == 0.0
    ensures Dot(b, CrossProduct(a, b)) == 0.0
  {
  }

  /** The cross product is antisymmetric. */
  lemma CrossAntisymmetric(a: Vec3, b: Vec3)
    ensures CrossProduct(a, b) == Negated(CrossProduct(b, a))
  {
  }

  /** Squared distance is symmetric. */
  lemma SqDistSymmetric(a: Vec3, b: Vec3)
    ensures SqDist(a, b) == SqDist(b, a)
  {
  }

  /** Scaling by the reciprocal divides each component. */
  lemma ScaledByReciprocal(a: Vec3, b: real)
    requires b != 0.0
    ensures forall n :: 0 <= n < 3 ==> Scaled(a, 1.0 / b)[n] == a[n] / b
  {
    var r := Scaled(a, 1.0 / b);
    forall n | 0 <= n < 3 ensures r[n] == a[n] / b {
      MulReciprocal(a[n], b);
    }
  }

  /** Without aliasing, the helper's sequential writes compute the cross product. */
  lemma CrossAsWrittenUnaliased(a: Vec3, b: Vec3)
    ensures CrossAsWritten(a, b, false, false) == CrossProduct(a, b)
  {
    var w, x := CrossAsWritten(a, b, false, false), CrossProduct(a, b);
    assert w[0] == x[0] && w[1] == x[1] && w[2] == x[2];
  }

  /** Writing the cross product over its first operand gives a wrong result. */
  lemma CrossIntoFirstOperandDiffers()
    ensures CrossAsWritten([0.0, 1.0, 0.0], [0.0, 0.0, 1.0], true, false) == [1.0, -1.0, 0.0]
    ensures CrossProduct([0.0, 1.0, 0.0], [0.0, 0.0, 1.0]) == [1.0, 0.0, 0.0]
  {
  }

  /** Writing the cross product over its second operand gives a wrong result. */
  lemma CrossIntoSecondOperandDiffers()
    ensures CrossAsWritten([0.0, 0.0, 1.0], [0.0, 1.0, 0.0], false, true) == [-1.0, -1.0, 0.0]
    ensures CrossProduct([0.0, 0.0, 1.0], [0.0, 1.0, 0.0]) == [-1.0, 0.0, 0.0]
  {
  }

  // ---------------------------------------------------------------------
  // In-place helpers

  method Copy(to: array<real>, from: array<real>)
    requires to.Length == 3 && from.Length == 3
    modifies to
    ensures to[..] == old(from[..])
  {
    to[0] := from[0];
    to[1] := from[1];
    to[2] := from[2];
  }

  method Set(v: array<real>, x: real, y: real, z: real)
    requires v.Length == 3
    modifies v
    ensures v[..] == [x, y, z]
  {
    v[0] := x;
    v[1] := y;
    v[2] := z;
  }

  method Min(c: array<real>, a: array<real>, b: array<real>)
    requires c.Length == 3 && a.Length == 3 && b.Length == 3
    modifies c
    ensures c[..] == Minimum(old(a[..]), old(b[..]))
  {
    c[0] := if a[0] < b[0] then a[0] else b[0];
    c[1] := if a[1] < b[1] then a[1] else b[1];
    c[2] := if a[2] < b[2] then a[2] else b[2];
  }

  method Max(c: array<real>, a: array<real>, b: array<real>)
    requires c.Length == 3 && a.Length == 3 && b.Length == 3
    modifies c
    ensures c[..] == Maximum(old(a[..]), old(b[..]))
  {
    c[0] := if a[0] > b[0] then a[0] else b[0];
    c[1] := if a[1] > b[1] then a[1] else b[1];
    c[2] := if a[2] > b[2] then a[2] else b[2];
  }

  method Plus(c: array<real>, a: array<real>, b: array<real>)
    requires c.Length == 3 && a.Length == 3 && b.Length == 3
    modifies c
    ensures c[..] == Sum(old(a[..]), old(b[..]))
  {
    c[0] := a[0] + b[0];
    c[1] := a[1] + b[1];
    c[2] := a[2] + b[2];
  }

  method Minus(c: array<real>, a: array<real>, b: array<real>)
    requires c.Length == 3 && a.Length == 3 && b.Length == 3
    modifies c
    ensures c[..] == Difference(old(a[..]), old(b[..]))
  {
    c[0] := a[0] - b[0];
    c[1] := a[1] - b[1];
    c[2] := a[2] - b[2];
  }

  method Multi(c: array<real>, a: array<real>, b: array<real>)
    requires c.Length == 3 && a.Length == 3 && b.Length == 3
    modifies c
    ensures c[..] == Product(old(a[..]), old(b[..]))
  {
    ghost var r := Product(a[..], b[..]);
    c[0] := a[0] * b[0];
    assert c[0] == r[0];
    c[1] := a[1] * b[1];
    assert c[1] == r[1];
    c[2] := a[2] * b[2];
    assert c[2] == r[2];
  }

  method MultiScalar(c: array<real>, a: array<real>, b: real)
    requires c.Length == 3 && a.Length == 3
    modifies c
    ensures c[..] == Scaled(old(a[..]), b)
  {
    ghost var r := Scaled(a[..], b);
    c[0] := a[0] * b;
    assert c[0] == r[0];
    c[1] := a[1] * b;
    assert c[1] == r[1];
    c[2] := a[2] * b;
    assert c[2] == r[2];
  }

  method Div(c: array<real>, a: array<real>, b: array<real>)
    requires c.Length == 3 && a.Length == 3 && b.Length == 3
    requires b[0] != 0.0 && b[1] != 0.0 && b[2] != 0.0
    modifies c
    ensures c[..] == Quotient(old(a[..]), old(b[..]))
  {
    c[0] := a[0] / b[0];
    c[1] := a[1] / b[1];
    c[2] := a[2] / b[2];
  }

  /** Division by a scalar, through its reciprocal. */
  method DivScalar(c: array<real>, a: array<real>, b: real)
    requires c.Length == 3 && a.Length == 3 && b != 0.0
    modifies c
    ensures c[..] == Scaled(old(a[..]), 1.0 / b)
  {
    var inv := 1.0 / b;
    ghost var r := Scaled(a[..], inv);
    c[0] := a[0] * inv;
    assert c[0] == r[0];
    c[1] := a[1] * inv;
    assert c[1] == r[1];
    c[2] := a[2] * inv;
    assert c[2] == r[2];
  }

  /**
   * The three component writes of the cross-product helper, given the values
   * each write reads: a0'/b0' are a[0]/b[0] after the first write and a1'/b1'
   * are a[1]/b[1] after the second.
   */
  lemma CrossSteps(a0: real, a1: real, a2: real, b0: real, b1: real, b2: real,
                   a0': real, b0': real, a1': real, b1': real,
                   x0: real, x1: real, x2: real, aliasA: bool, aliasB: bool)
    requires x0 == a1 * b2 - a2 * b1
    requires a0' == (if aliasA then x0 else a0) && b0' == (if aliasB then x0 else b0)
    requires x1 == a2 * b0' - a0' * b2
    requires a1' == (if aliasA then x1 else a1) && b1' == (if aliasB then x1 else b1)
    requires x2 == a0' * b1' - a1' * b0'
    ensures [x0, x1, x2] == CrossAsWritten([a0, a1, a2], [b0, b1, b2], aliasA, aliasB)
  {
    var a, b := [a0, a1, a2], [b0, b1, b2];
    assert a[0] == a0 && a[1] == a1 && a[2] == a2;
    assert b[0] == b0 && b[1] == b1 && b[2] == b2;
    var w := CrossAsWritten(a, b, aliasA, aliasB);
    assert w[0] == x0;
    assert w[1] == x1;
    assert w[2] == x2;
  }

  /** Cross product; correct only when the output is neither operand. */
  method Cross(c: array<real>, a: array<real>, b: array<real>)
    requires c.Length == 3 && a.Length == 3 && b.Length == 3
    modifies c
    ensures c[..] == CrossAsWritten(old(a[..]), old(b[..]), c == a, c == b)
    ensures c != a && c != b ==> c[..] == CrossProduct(old(a[..]), old(b[..]))
  {
    ghost var a0, a1, a2, b0, b1, b2 := a[0], a[1], a[2], b[0], b[1], b[2];
    c[0] := a[1] * b[2] - a[2] * b[1];
    ghost var x0, a0', b0' := c[0], a[0], b[0];
    c[1] := a[2] * b[0] - a[0] * b[2];
    ghost var x1, a1', b1' := c[1], a[1], b[1];
    c[2] := a[0] * b[1] - a[1] * b[0];
    CrossSteps(a0, a1, a2, b0, b1, b2, a0', b0', a1', b1', x0, x1, c[2], c == a, c == b);
    assert c[..] == [x0, x1, c[2]];
    assert old(a[..]) == [a0, a1, a2] && old(b[..]) == [b0, b1, b2];
    if c != a && c != b {
      CrossAsWrittenUnaliased(old(a[..]), old(b[..]));
    }
  }
}
