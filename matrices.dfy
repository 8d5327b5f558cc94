/** The 3x3 matrices of part/src/math/Matrix.ts: a value holding its rows,
    built by a checking constructor, multiplied with a triple loop, applied
    to 2D points as an affine map and inverted through the adjugate. */
module Matrices {
  import opened Wrappers
  import opened Vectors

  const NumRows: nat := 3
  const NumCols: nat := 3

  datatype Matrix3 = Matrix3(elements: seq<seq<real>>)
  {
    /** Three rows of three numbers each. */
    predicate Valid() {
      |elements| == NumRows && |elements[0]| == NumCols && |elements[1]| == NumCols && |elements[2]| == NumCols
    }

    /** The last row is [0, 0, 1], as in every 2D transformation. */
    predicate IsAffine()
      requires Valid()
    {
      elements[2] == [0.0, 0.0, 1.0]
    }

    static function Identity(): (r: Matrix3)
      ensures r.Valid() && r.IsAffine()
      ensures forall i, j :: 0 <= i < 3 && 0 <= j < 3 ==> r.elements[i][j] == if i == j then 1.0 else 0.0
    {
      Matrix3([[1.0, 0.0, 0.0], [0.0, 1.0, 0.0], [0.0, 0.0, 1.0]])
    }

    /** multiply: the product m1 m2, one row and one entry at a time. */
    static method Multiply(m1: Matrix3, m2: Matrix3) returns (r: Matrix3)
      requires m1.Valid() && m2.Valid()
      ensures r == Product(m1, m2)
    {
      var resultElements: seq<seq<real>> := [];
      for i := 0 to 3
        invariant |resultElements| == i
        invariant forall i' :: 0 <= i' < i ==> resultElements[i'] == ProductRow(m1, m2, i')
      {
        var row := MultiplyRow(m1, m2, i);
        resultElements := resultElements + [row];
      }
      var made := New(resultElements);
      assert resultElements == Product(m1, m2).elements;
      r := made.value;
    }

    /** applyToVector2: the affine map (x, y) |-> (a x + b y + c, d x + e y + f)
        given by the first two rows; the last row is ignored. */
    function ApplyToVector2(v: Vec): Vec
      requires Valid()
    {
      Vec(elements[0][0] * v.x + elements[0][1] * v.y + elements[0][2],
          elements[1][0] * v.x + elements[1][1] * v.y + elements[1][2])
    }

    /** The determinant, expanded along the first row. */
    function Det(): real
      requires Valid()
    {
      var a, b, c := elements[0][0], elements[0][1], elements[0][2];
      var d, e, f := elements[1][0], elements[1][1], elements[1][2];
      var g, h, i := elements[2][0], elements[2][1], elements[2][2];
      a * (e * i - f * h) - b * (d * i - f * g) + c * (d * h - e * g)
    }

    /** The adjugate (the transposed cofactors). */
    function Adjugate(): (r: Matrix3)
      requires Valid()
      ensures r.Valid()
    {
      var a, b, c := elements[0][0], elements[0][1], elements[0][2];
      var d, e, f := elements[1][0], elements[1][1], elements[1][2];
      var g, h, i := elements[2][0], elements[2][1], elements[2][2];
      Matrix3([[e * i - f * h, c * h - b * i, b * f - c * e],
               [f * g - d * i, a * i - c * g, c * d - a * f],
               [d * h - e * g, b * g - a * h, a * e - b * d]])
    }

    /** inverse: fails on a zero determinant, otherwise scales each
        cofactor by 1 / det. */
    function Inverse(): (r: Result<Matrix3>)
      requires Valid()
      ensures r.Err? <==> Det() == 0.0
      ensures r.Ok? ==> r.value.Valid()
    {
      var det := Det();
      if det == 0.0 then Err("Matrix is not invertible")
      else
        var invDet := 1.0 / det;
        var a, b, c := elements[0][0], elements[0][1], elements[0][2];
        var d, e, f := elements[1][0], elements[1][1], elements[1][2];
        var g, h, i := elements[2][0], elements[2][1], elements[2][2];
        Ok(Matrix3([[(e * i - f * h) * invDet, (c * h - b * i) * invDet, (b * f - c * e) * invDet],
                    [(f * g - d * i) * invDet, (a * i - c * g) * invDet, (c * d - a * f) * invDet],
                    [(d * h - e * g) * invDet, (b * g - a * h) * invDet, (a * e - b * d) * invDet]]))
    }
  }

  // ---------------------------------------------------------------------
  // Construction

  /** The constructor as written: it throws unless there are three rows
      and the first of them has three entries; the other rows are not
      looked at. */
  function NewAsWritten(elements: seq<seq<real>>): (r: Result<Matrix3>)
    ensures r.Ok? <==> |elements| == 3 && |elements[0]| == 3
    ensures r.Ok? ==> r.value.elements == elements
  {
    if |elements| != 3 || |elements[0]| != 3 then Err("Matrix must be 3x3")
    else Ok(Matrix3(elements))
  }

  /** The constructor as its message intends: every row has three entries. */
  function New(elements: seq<seq<real>>): (r: Result<Matrix3>)
    ensures r.Ok? <==> Matrix3(elements).Valid()
    ensures r.Ok? ==> r.value.elements == elements && r.value.Valid()
  {
    if |elements| != 3 || |elements[0]| != 3 || |elements[1]| != 3 || |elements[2]| != 3 then Err("Matrix must be 3x3")
    else Ok(Matrix3(elements))
  }

  /** The as-written check accepts a matrix with short second and third
      rows, which applyToVector2 and inverse then read past the end of. */
  lemma AsWrittenAcceptsRaggedRows()
    ensures var e := [[1.0, 2.0, 3.0], [4.0], [5.0]];
            NewAsWritten(e).Ok? && !NewAsWritten(e).value.Valid() && New(e).Err?
  {
    var e := [[1.0, 2.0, 3.0], [4.0], [5.0]];
    assert |e[1]| != 3;
  }

  /** The corrected check only rejects more: whatever it accepts, the
      written one accepts with the same matrix, and the two differ exactly
      on rows 1 and 2 of the wrong length. */
  lemma NewRefinesAsWritten(elements: seq<seq<real>>)
    ensures New(elements).Ok? ==> NewAsWritten(elements) == New(elements)
    ensures NewAsWritten(elements).Ok? && New(elements).Err? <==>
            |elements| == 3 && |elements[0]| == 3 && (|elements[1]| != 3 || |elements[2]| != 3)
  {
  }

  // ---------------------------------------------------------------------
  // Multiplication

  /** m1[i][0] m2[0][j] + ... + m1[i][n-1] m2[n-1][j], summed in the loop's order. */
  function PartialDot(m1: Matrix3, m2: Matrix3, i: nat, j: nat, n: nat): real
    requires m1.Valid() && m2.Valid() && i < 3 && j < 3 && n <= 3
  {
    if n == 0 then 0.0
    else PartialDot(m1, m2, i, j, n - 1) + Term(m1, m2, i, j, n - 1)
  }

  /** The k-th product the loop adds: m1[i][k] m2[k][j]. */
  function Term(m1: Matrix3, m2: Matrix3, i: nat, j: nat, k: nat): real
    requires m1.Valid() && m2.Valid() && i < 3 && j < 3 && k < 3
  {
    m1.elements[i][k] * m2.elements[k][j]
  }

  function ProductRow(m1: Matrix3, m2: Matrix3, i: nat): seq<real>
    requires m1.Valid() && m2.Valid() && i < 3
  {
    [PartialDot(m1, m2, i, 0, 3), PartialDot(m1, m2, i, 1, 3), PartialDot(m1, m2, i, 2, 3)]
  }

  /** The matrix product. */
  function Product(m1: Matrix3, m2: Matrix3): (r: Matrix3)
    requires m1.Valid() && m2.Valid()
    ensures r.Valid()
  {
    Matrix3([ProductRow(m1, m2, 0), ProductRow(m1, m2, 1), ProductRow(m1, m2, 2)])
  }

  /** Entry (i, j) of the product is row i of m1 dotted with column j of m2. */
  lemma ProductEntry(m1: Matrix3, m2: Matrix3, i: nat, j: nat)
    requires m1.Valid() && m2.Valid() && i < 3 && j < 3
    ensures Product(m1, m2).elements[i][j] == Term(m1, m2, i, j, 0) + Term(m1, m2, i, j, 1) + Term(m1, m2, i, j, 2)
  {
    assert Product(m1, m2).elements[i][j] == PartialDot(m1, m2, i, j, 3);
    assert PartialDot(m1, m2, i, j, 1) == Term(m1, m2, i, j, 0);
  }

  /** One row of multiply. */
  method MultiplyRow(m1: Matrix3, m2: Matrix3, i: nat) returns (row: seq<real>)
    requires m1.Valid() && m2.Valid() && i < 3
    ensures row == ProductRow(m1, m2, i)
  {
    row := [];
    for j := 0 to 3
      invariant |row| == j
      invariant forall j' :: 0 <= j' < j ==> row[j'] == PartialDot(m1, m2, i, j', 3)
    {
      var sum := MultiplyEntry(m1, m2, i, j);
      row := row + [sum];
    }
  }

  /** One entry of multiply: the innermost accumulating loop. */
  method MultiplyEntry(m1: Matrix3, m2: Matrix3, i: nat, j: nat) returns (sum: real)
    requires m1.Valid() && m2.Valid() && i < 3 && j < 3
    ensures sum == PartialDot(m1, m2, i, j, 3)
  {
    sum := 0.0;
    for k := 0 to 3
      invariant sum == PartialDot(m1, m2, i, j, k)
    {
      sum := sum + m1.elements[i][k] * m2.elements[k][j];
      assert sum == PartialDot(m1, m2, i, j, k) + Term(m1, m2, i, j, k);
    }
  }

  // ---------------------------------------------------------------------
  // The nine entries of a matrix, for the algebra

  /** A matrix's entries row by row: a b c / d e f / g h i. */
  datatype Entries = Entries(a: real, b: real, c: real, d: real, e: real, f: real, g: real, h: real, i: real)

  function Flat(m: Matrix3): (x: Entries)
    requires m.Valid()
  {
    var e := m.elements;
    Entries(e[0][0], e[0][1], e[0][2], e[1][0], e[1][1], e[1][2], e[2][0], e[2][1], e[2][2])
  }

  /** The matrix with the given entries. */
  function Of(x: Entries): (m: Matrix3)
    ensures m.Valid() && Flat(m) == x
  {
    Matrix3([[x.a, x.b, x.c], [x.d, x.e, x.f], [x.g, x.h, x.i]])
  }

  /** A valid matrix is determined by its entries. */
  lemma OfFlat(m: Matrix3)
    requires m.Valid()
    ensures Of(Flat(m)) == m
  {
    var e := m.elements;
    assert e[0] == [e[0][0], e[0][1], e[0][2]];
    assert e[1] == [e[1][0], e[1][1], e[1][2]];
    assert e[2] == [e[2][0], e[2][1], e[2][2]];
  }

  /** x0 y0 + x1 y1 + x2 y2. */
  function Dot3(x0: real, x1: real, x2: real, y0: real, y1: real, y2: real): real {
    x0 * y0 + x1 * y1 + x2 * y2
  }

  /** Row-by-column products of the entries. */
  function Mul(x: Entries, y: Entries): Entries {
    Entries(Dot3(x.a, x.b, x.c, y.a, y.d, y.g), Dot3(x.a, x.b, x.c, y.b, y.e, y.h), Dot3(x.a, x.b, x.c, y.c, y.f, y.i),
            Dot3(x.d, x.e, x.f, y.a, y.d, y.g), Dot3(x.d, x.e, x.f, y.b, y.e, y.h), Dot3(x.d, x.e, x.f, y.c, y.f, y.i),
            Dot3(x.g, x.h, x.i, y.a, y.d, y.g), Dot3(x.g, x.h, x.i, y.b, y.e, y.h), Dot3(x.g, x.h, x.i, y.c, y.f, y.i))
  }

  /** p times q, named so that the algebra below can refer to it. */
  function Times(p: real, q: real): real {
    p * q
  }

  /** Every entry times s. */
  function ScaleEntries(x: Entries, s: real): Entries {
    Entries(Times(x.a, s), Times(x.b, s), Times(x.c, s), Times(x.d, s), Times(x.e, s), Times(x.f, s),
            Times(x.g, s), Times(x.h, s), Times(x.i, s))
  }

  /** s on the diagonal, zero elsewhere. */
  function DiagonalEntries(s: real): Entries {
    Entries(s, 0.0, 0.0, 0.0, s, 0.0, 0.0, 0.0, s)
  }

  /** p q - r s, the shape of every 2x2 minor. */
  function Cross(p: real, q: real, r: real, s: real): real {
    p * q - r * s
  }

  /** The determinant, expanded along the first row. */
  function Det3(a: real, b: real, c: real, d: real, e: real, f: real, g: real, h: real, i: real): real {
    a * (e * i - f * h) - b * (d * i - f * g) + c * (d * h - e * g)
  }

  function DetOf(x: Entries): real {
    Det3(x.a, x.b, x.c, x.d, x.e, x.f, x.g, x.h, x.i)
  }

  /** The adjugate: the transposed cofactors. */
  function AdjugateOf(x: Entries): Entries {
    Entries(Cross(x.e, x.i, x.f, x.h), Cross(x.c, x.h, x.b, x.i), Cross(x.b, x.f, x.c, x.e),
            Cross(x.f, x.g, x.d, x.i), Cross(x.a, x.i, x.c, x.g), Cross(x.c, x.d, x.a, x.f),
            Cross(x.d, x.h, x.e, x.g), Cross(x.b, x.g, x.a, x.h), Cross(x.a, x.e, x.b, x.d))
  }

  /** multiply computes Mul on the entries. */
  lemma ProductEntriesMul(m1: Matrix3, m2: Matrix3)
    requires m1.Valid() && m2.Valid()
    ensures Product(m1, m2) == Of(Mul(Flat(m1), Flat(m2)))
  {
    ProductEntry(m1, m2, 0, 0);
    ProductEntry(m1, m2, 0, 1);
    ProductEntry(m1, m2, 0, 2);
    ProductEntry(m1, m2, 1, 0);
    ProductEntry(m1, m2, 1, 1);
    ProductEntry(m1, m2, 1, 2);
    ProductEntry(m1, m2, 2, 0);
    ProductEntry(m1, m2, 2, 1);
    ProductEntry(m1, m2, 2, 2);
    assert Flat(Product(m1, m2)) == Mul(Flat(m1), Flat(m2));
    OfFlat(Product(m1, m2));
  }

  /** The identity is neutral on both sides. */
  lemma ProductIdentity(m: Matrix3)
    requires m.Valid()
    ensures Product(Matrix3.Identity(), m) == m
    ensures Product(m, Matrix3.Identity()) == m
  {
    ProductEntriesMul(Matrix3.Identity(), m);
    ProductEntriesMul(m, Matrix3.Identity());
    OfFlat(m);
  }

  /** The product of two 2D transformations is one. */
  lemma ProductAffine(m1: Matrix3, m2: Matrix3)
    requires m1.Valid() && m2.Valid() && m1.IsAffine() && m2.IsAffine()
    ensures Product(m1, m2).IsAffine()
  {
    ProductEntriesMul(m1, m2);
  }

  // ---------------------------------------------------------------------
  // Application to points

  lemma ApplyIdentity(v: Vec)
    ensures Matrix3.Identity().ApplyToVector2(v) == v
  {
  }

  /** Applying a product is applying its factors in turn, right factor
      first, when the right factor is a 2D transformation (so that the point
      it produces has the implicit third coordinate 1). */
  lemma ApplyProduct(m1: Matrix3, m2: Matrix3, v: Vec)
    requires m1.Valid() && m2.Valid() && m2.IsAffine()
    ensures Product(m1, m2).ApplyToVector2(v) == m1.ApplyToVector2(m2.ApplyToVector2(v))
  {
    ProductEntriesMul(m1, m2);
    var w := m2.ApplyToVector2(v);
    ApplyFlat(Product(m1, m2), v);
    ApplyFlat(m2, v);
    ApplyFlat(m1, w);
    assert Flat(m2).g == 0.0 && Flat(m2).h == 0.0 && Flat(m2).i == 1.0;
    ApplyMul(Flat(m1), Flat(m2), v);
  }

  /** A 2D point under the matrix with entries x. */
  function ApplyEntries(x: Entries, v: Vec): Vec {
    Vec(x.a * v.x + x.b * v.y + x.c, x.d * v.x + x.e * v.y + x.f)
  }

  lemma ApplyFlat(m: Matrix3, v: Vec)
    requires m.Valid()
    ensures m.ApplyToVector2(v) == ApplyEntries(Flat(m), v)
  {
  }

  /** ApplyProduct on entries. */
  lemma ApplyMul(x: Entries, y: Entries, v: Vec)
    requires y.g == 0.0 && y.h == 0.0 && y.i == 1.0
    ensures ApplyEntries(Mul(x, y), v) == ApplyEntries(x, ApplyEntries(y, v))
  {
    var p, w := Mul(x, y), ApplyEntries(y, v);
    ApplyRow(x.a, x.b, x.c, y, v, p.a, p.b, p.c, w.x, w.y);
    ApplyRow(x.d, x.e, x.f, y, v, p.d, p.e, p.f, w.x, w.y);
  }

  /** One row of ApplyProduct: the row (r0, r1, r2) times y, which is
      (p0, p1, p2), applied to v, is the row applied to y's image (wx, wy)
      of v. */
  lemma ApplyRow(r0: real, r1: real, r2: real, y: Entries, v: Vec, p0: real, p1: real, p2: real, wx: real, wy: real)
    requires y.g == 0.0 && y.h == 0.0 && y.i == 1.0
    requires p0 == Dot3(r0, r1, r2, y.a, y.d, y.g) && p1 == Dot3(r0, r1, r2, y.b, y.e, y.h)
    requires p2 == Dot3(r0, r1, r2, y.c, y.f, y.i)
    requires wx == y.a * v.x + y.b * v.y + y.c && wy == y.d * v.x + y.e * v.y + y.f
    ensures p0 * v.x + p1 * v.y + p2 == r0 * wx + r1 * wy + r2
  {
    assert r0 * (y.a * v.x + y.b * v.y + y.c) == r0 * y.a * v.x + r0 * y.b * v.y + r0 * y.c;
    assert r1 * (y.d * v.x + y.e * v.y + y.f) == r1 * y.d * v.x + r1 * y.e * v.y + r1 * y.f;
  }

  // ---------------------------------------------------------------------
  // Inversion

  /** The determinant of a matrix is that of its entries. */
  lemma DetEntries(m: Matrix3)
    requires m.Valid()
    ensures m.Det() == DetOf(Flat(m))
  {
  }

  /** inverse is the adjugate scaled by 1 / det. */
  lemma InverseEntries(m: Matrix3)
    requires m.Valid() && m.Inverse().Ok?
    ensures m.Inverse().value == Of(ScaleEntries(AdjugateOf(Flat(m)), 1.0 / m.Det()))
  {
    var x, t := Flat(m), 1.0 / m.Det();
    var r := m.Inverse().value.elements;
    ScaledCross(r[0][0], x.e, x.i, x.f, x.h, t);
    ScaledCross(r[0][1], x.c, x.h, x.b, x.i, t);
    ScaledCross(r[0][2], x.b, x.f, x.c, x.e, t);
    ScaledCross(r[1][0], x.f, x.g, x.d, x.i, t);
    ScaledCross(r[1][1], x.a, x.i, x.c, x.g, t);
    ScaledCross(r[1][2], x.c, x.d, x.a, x.f, t);
    ScaledCross(r[2][0], x.d, x.h, x.e, x.g, t);
    ScaledCross(r[2][1], x.b, x.g, x.a, x.h, t);
    ScaledCross(r[2][2], x.a, x.e, x.b, x.d, t);
    OfFlat(m.Inverse().value);
  }

  /** A cofactor scaled as inverse writes it. */
  lemma ScaledCross(v: real, p: real, q: real, r: real, s: real, t: real)
    requires v == (p * q - r * s) * t
    ensures v == Times(Cross(p, q, r, s), t)
  {
  }

  /** Each row of a matrix times the cofactors of its first row: the
      determinant for the first row, zero for the other two. */
  lemma CofactorsRow0(a: real, b: real, c: real, d: real, e: real, f: real, g: real, h: real, i: real)
    ensures Dot3(a, b, c, Cross(e, i, f, h), Cross(f, g, d, i), Cross(d, h, e, g)) == Det3(a, b, c, d, e, f, g, h, i)
    ensures Dot3(d, e, f, Cross(e, i, f, h), Cross(f, g, d, i), Cross(d, h, e, g)) == 0.0
    ensures Dot3(g, h, i, Cross(e, i, f, h), Cross(f, g, d, i), Cross(d, h, e, g)) == 0.0
  {
  }

  /** ... of its second row ... */
  lemma CofactorsRow1(a: real, b: real, c: real, d: real, e: real, f: real, g: real, h: real, i: real)
    ensures Dot3(a, b, c, Cross(c, h, b, i), Cross(a, i, c, g), Cross(b, g, a, h)) == 0.0
    ensures Dot3(d, e, f, Cross(c, h, b, i), Cross(a, i, c, g), Cross(b, g, a, h)) == Det3(a, b, c, d, e, f, g, h, i)
    ensures Dot3(g, h, i, Cross(c, h, b, i), Cross(a, i, c, g), Cross(b, g, a, h)) == 0.0
  {
  }

  /** ... and of its third row. */
  lemma CofactorsRow2(a: real, b: real, c: real, d: real, e: real, f: real, g: real, h: real, i: real)
    ensures Dot3(a, b, c, Cross(b, f, c, e), Cross(c, d, a, f), Cross(a, e, b, d)) == 0.0
    ensures Dot3(d, e, f, Cross(b, f, c, e), Cross(c, d, a, f), Cross(a, e, b, d)) == 0.0
    ensures Dot3(g, h, i, Cross(b, f, c, e), Cross(c, d, a, f), Cross(a, e, b, d)) == Det3(a, b, c, d, e, f, g, h, i)
  {
  }

  /** The cofactors of the first column times each column of the matrix. */
  lemma CofactorsColumn0(a: real, b: real, c: real, d: real, e: real, f: real, g: real, h: real, i: real)
    ensures Dot3(Cross(e, i, f, h), Cross(c, h, b, i), Cross(b, f, c, e), a, d, g) == Det3(a, b, c, d, e, f, g, h, i)
    ensures Dot3(Cross(e, i, f, h), Cross(c, h, b, i), Cross(b, f, c, e), b, e, h) == 0.0
    ensures Dot3(Cross(e, i, f, h), Cross(c, h, b, i), Cross(b, f, c, e), c, f, i) == 0.0
  {
  }

  /** ... of the second column ... */
  lemma CofactorsColumn1(a: real, b: real, c: real, d: real, e: real, f: real, g: real, h: real, i: real)
    ensures Dot3(Cross(f, g, d, i), Cross(a, i, c, g), Cross(c, d, a, f), a, d, g) == 0.0
    ensures Dot3(Cross(f, g, d, i), Cross(a, i, c, g), Cross(c, d, a, f), b, e, h) == Det3(a, b, c, d, e, f, g, h, i)
    ensures Dot3(Cross(f, g, d, i), Cross(a, i, c, g), Cross(c, d, a, f), c, f, i) == 0.0
  {
  }

  /** ... and of the third column. */
  lemma CofactorsColumn2(a: real, b: real, c: real, d: real, e: real, f: real, g: real, h: real, i: real)
    ensures Dot3(Cross(d, h, e, g), Cross(b, g, a, h), Cross(a, e, b, d), a, d, g) == 0.0
    ensures Dot3(Cross(d, h, e, g), Cross(b, g, a, h), Cross(a, e, b, d), b, e, h) == 0.0
    ensures Dot3(Cross(d, h, e, g), Cross(b, g, a, h), Cross(a, e, b, d), c, f, i) == Det3(a, b, c, d, e, f, g, h, i)
  {
  }

  /** A matrix times its adjugate is its determinant on the diagonal. */
  lemma AdjugateRight(x: Entries)
    ensures Mul(x, AdjugateOf(x)) == DiagonalEntries(DetOf(x))
  {
    CofactorsRow0(x.a, x.b, x.c, x.d, x.e, x.f, x.g, x.h, x.i);
    CofactorsRow1(x.a, x.b, x.c, x.d, x.e, x.f, x.g, x.h, x.i);
    CofactorsRow2(x.a, x.b, x.c, x.d, x.e, x.f, x.g, x.h, x.i);
  }

  /** So is the adjugate times the matrix. */
  lemma AdjugateLeft(x: Entries)
    ensures Mul(AdjugateOf(x), x) == DiagonalEntries(DetOf(x))
  {
    CofactorsColumn0(x.a, x.b, x.c, x.d, x.e, x.f, x.g, x.h, x.i);
    CofactorsColumn1(x.a, x.b, x.c, x.d, x.e, x.f, x.g, x.h, x.i);
    CofactorsColumn2(x.a, x.b, x.c, x.d, x.e, x.f, x.g, x.h, x.i);
  }

  /** Scaling one side of a three-term dot product scales the product. */
  lemma ScaledDot(x0: real, x1: real, x2: real, y0: real, y1: real, y2: real, s: real)
    ensures Dot3(x0, x1, x2, Times(y0, s), Times(y1, s), Times(y2, s)) == Times(Dot3(x0, x1, x2, y0, y1, y2), s)
    ensures Dot3(Times(x0, s), Times(x1, s), Times(x2, s), y0, y1, y2) == Times(Dot3(x0, x1, x2, y0, y1, y2), s)
  {
  }

  /** Scaling the right factor scales the product. */
  lemma MulScaleRight(x: Entries, y: Entries, s: real)
    ensures Mul(x, ScaleEntries(y, s)) == ScaleEntries(Mul(x, y), s)
  {
    ScaledDot(x.a, x.b, x.c, y.a, y.d, y.g, s);
    ScaledDot(x.a, x.b, x.c, y.b, y.e, y.h, s);
    ScaledDot(x.a, x.b, x.c, y.c, y.f, y.i, s);
    ScaledDot(x.d, x.e, x.f, y.a, y.d, y.g, s);
    ScaledDot(x.d, x.e, x.f, y.b, y.e, y.h, s);
    ScaledDot(x.d, x.e, x.f, y.c, y.f, y.i, s);
    ScaledDot(x.g, x.h, x.i, y.a, y.d, y.g, s);
    ScaledDot(x.g, x.h, x.i, y.b, y.e, y.h, s);
    ScaledDot(x.g, x.h, x.i, y.c, y.f, y.i, s);
  }

  /** Scaling the left factor scales the product. */
  lemma MulScaleLeft(x: Entries, y: Entries, s: real)
    ensures Mul(ScaleEntries(x, s), y) == ScaleEntries(Mul(x, y), s)
  {
    ScaledDot(x.a, x.b, x.c, y.a, y.d, y.g, s);
    ScaledDot(x.a, x.b, x.c, y.b, y.e, y.h, s);
    ScaledDot(x.a, x.b, x.c, y.c, y.f, y.i, s);
    ScaledDot(x.d, x.e, x.f, y.a, y.d, y.g, s);
    ScaledDot(x.d, x.e, x.f, y.b, y.e, y.h, s);
    ScaledDot(x.d, x.e, x.f, y.c, y.f, y.i, s);
    ScaledDot(x.g, x.h, x.i, y.a, y.d, y.g, s);
    ScaledDot(x.g, x.h, x.i, y.b, y.e, y.h, s);
    ScaledDot(x.g, x.h, x.i, y.c, y.f, y.i, s);
  }

  /** When inverse succeeds, it is a right inverse ... */
  lemma InverseRight(m: Matrix3)
    requires m.Valid() && m.Inverse().Ok?
    ensures Product(m, m.Inverse().value) == Matrix3.Identity()
  {
    var x, det := Flat(m), m.Det();
    DetEntries(m);
    InverseEntries(m);
    ProductEntriesMul(m, m.Inverse().value);
    MulScaleRight(x, AdjugateOf(x), 1.0 / det);
    AdjugateRight(x);
    assert ScaleEntries(DiagonalEntries(det), 1.0 / det) == Flat(Matrix3.Identity());
  }

  /** ... and a left inverse. */
  lemma InverseLeft(m: Matrix3)
    requires m.Valid() && m.Inverse().Ok?
    ensures Product(m.Inverse().value, m) == Matrix3.Identity()
  {
    var x, det := Flat(m), m.Det();
    DetEntries(m);
    InverseEntries(m);
    ProductEntriesMul(m.Inverse().value, m);
    MulScaleLeft(AdjugateOf(x), x, 1.0 / det);
    AdjugateLeft(x);
    assert ScaleEntries(DiagonalEntries(det), 1.0 / det) == Flat(Matrix3.Identity());
  }

  /** The converse of InverseRight: a matrix with any right inverse has a
      non-zero determinant, so inverse does not fail on it. */
  lemma OnlyZeroDeterminantFails(m: Matrix3, n: Matrix3)
    requires m.Valid() && n.Valid() && Product(m, n) == Matrix3.Identity()
    ensures m.Inverse().Ok?
  {
    DetProduct(m, n);
    assert Matrix3.Identity().Det() == 1.0;
  }

  /** The determinant is multiplicative. */
  lemma DetProduct(m1: Matrix3, m2: Matrix3)
    requires m1.Valid() && m2.Valid()
    ensures Product(m1, m2).Det() == m1.Det() * m2.Det()
  {
    ProductEntriesMul(m1, m2);
    DetEntries(m1);
    DetEntries(m2);
    DetEntries(Product(m1, m2));
    DetMul(Flat(m1), Flat(m2));
  }

  /** The determinant of a product of entries is the product of determinants. */
  lemma DetMul(x: Entries, y: Entries)
    ensures DetOf(Mul(x, y)) == DetOf(x) * DetOf(y)
  {
    var p := Mul(x, y);
    DetMultiplicative(x.a, x.b, x.c, x.d, x.e, x.f, x.g, x.h, x.i, y.a, y.b, y.c, y.d, y.e, y.f, y.g, y.h, y.i,
                      p.a, p.b, p.c, p.d, p.e, p.f, p.g, p.h, p.i);
  }

  /** The polynomial identity behind DetProduct; p00 ... p22 are the
      product's entries. */
  lemma DetMultiplicative(a: real, b: real, c: real, d: real, e: real, f: real, g: real, h: real, i: real,
                          a': real, b': real, c': real, d': real, e': real, f': real, g': real, h': real, i': real,
                          p00: real, p01: real, p02: real, p10: real, p11: real, p12: real, p20: real, p21: real, p22: real)
    requires p00 == a * a' + b * d' + c * g' && p01 == a * b' + b * e' + c * h' && p02 == a * c' + b * f' + c * i'
    requires p10 == d * a' + e * d' + f * g' && p11 == d * b' + e * e' + f * h' && p12 == d * c' + e * f' + f * i'
    requires p20 == g * a' + h * d' + i * g' && p21 == g * b' + h * e' + i * h' && p22 == g * c' + h * f' + i * i'
    ensures Det3(p00, p01, p02, p10, p11, p12, p20, p21, p22) ==
            Det3(a, b, c, d, e, f, g, h, i) * Det3(a', b', c', d', e', f', g', h', i')
  {
    DetPolynomial(a, b, c, d, e, f, g, h, i, a', b', c', d', e', f', g', h', i');
  }

  lemma DetPolynomial(a: real, b: real, c: real, d: real, e: real, f: real, g: real, h: real, i: real,
                      a': real, b': real, c': real, d': real, e': real, f': real, g': real, h': real, i': real)
    ensures Det3(a * a' + b * d' + c * g', a * b' + b * e' + c * h', a * c' + b * f' + c * i',
                 d * a' + e * d' + f * g', d * b' + e * e' + f * h', d * c' + e * f' + f * i',
                 g * a' + h * d' + i * g', g * b' + h * e' + i * h', g * c' + h * f' + i * i')
            == Det3(a, b, c, d, e, f, g, h, i) * Det3(a', b', c', d', e', f', g', h', i')
  {
  }

  // ---------------------------------------------------------------------
  // The worked examples of the matrix tests

  const M1: Matrix3 := Matrix3([[1.0, 2.0, 3.0], [4.0, 5.0, 6.0], [7.0, 8.0, 9.0]])
  const M2: Matrix3 := Matrix3([[-1.0, -2.0, -3.0], [-4.0, -5.0, -6.0], [-7.0, -8.0, -9.0]])
  const M3: Matrix3 := Matrix3([[9.0, 8.0, 7.0], [6.0, 5.0, 4.0], [3.0, 2.0, 1.0]])
  const Invertible: Matrix3 := Matrix3([[4.0, 1.0, 1.0], [1.0, 5.0, 2.0], [1.0, 1.0, 3.0]])

  lemma MultiplyExamples()
    ensures Product(M1, M3) == Matrix3([[30.0, 24.0, 18.0], [84.0, 69.0, 54.0], [138.0, 114.0, 90.0]])
    ensures Product(M3, M1) == Matrix3([[90.0, 114.0, 138.0], [54.0, 69.0, 84.0], [18.0, 24.0, 30.0]])
    ensures Product(M1, M2) == Matrix3([[-30.0, -36.0, -42.0], [-66.0, -81.0, -96.0], [-102.0, -126.0, -150.0]])
    ensures Product(M2, M1) == Matrix3([[-30.0, -36.0, -42.0], [-66.0, -81.0, -96.0], [-102.0, -126.0, -150.0]])
  {
  }

  lemma ApplyExamples()
    ensures M1.ApplyToVector2(Vec(2.0, 3.0)) == Vec(11.0, 29.0)
    ensures M2.ApplyToVector2(Vec(2.0, 3.0)) == Vec(-11.0, -29.0)
    ensures M3.ApplyToVector2(Vec(2.0, 3.0)) == Vec(49.0, 31.0)
    ensures Matrix3.Identity().ApplyToVector2(Vec(2.0, 3.0)) == Vec(2.0, 3.0)
    ensures M1.ApplyToVector2(Zero) == Vec(3.0, 6.0)
  {
  }

  /** The determinant of the test's invertible matrix is 47; its inverse is
      the adjugate over 47 (the test compares against these to 8 places). */
  lemma InverseExamples()
    ensures M1.Inverse().Err?
    ensures Invertible.Inverse() ==
            Ok(Matrix3([[13.0 / 47.0, -2.0 / 47.0, -3.0 / 47.0],
                        [-1.0 / 47.0, 11.0 / 47.0, -7.0 / 47.0],
                        [-4.0 / 47.0, -3.0 / 47.0, 19.0 / 47.0]]))
  {
    assert Invertible.Det() == 47.0;
  }
}
