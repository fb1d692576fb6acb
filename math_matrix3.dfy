/** src/math/matrix3.rs: 3x3 matrices stored column-major in `[f32; 9]`
    arrays, and the normal matrix of a 4x4 matrix. */
module Matrix3 {
  import opened Wrappers
  import opened Numeric

  const ElementNum: nat := 9

  /** The identity: ones on the diagonal slots 0, 4, 8. */
  function IdentityElements(): (e: seq<real>)
    ensures |e| == ElementNum
    ensures forall i | 0 <= i < ElementNum :: e[i] == if i % 4 == 0 then 1.0 else 0.0
  {
    [1.0, 0.0, 0.0,
     0.0, 1.0, 0.0,
     0.0, 0.0, 1.0]
  }

  /** Where row j of column i lives in the column-major layout. */
  function Slot(i: nat, j: nat): nat { 3 * i + j }

  /** The twelve 2x2 minors b00..b11 the normal matrix is built from: six
      from the top two rows of the 4x4 source, six from the bottom two
      (`src` is column-major, so row i of column j is src[4j+i]). */
  function Minors(src: seq<real>): (b: seq<real>)
    requires |src| == 16
  {
    var a00, a01, a02, a03 := src[0], src[1], src[2], src[3];
    var a10, a11, a12, a13 := src[4], src[5], src[6], src[7];
    var a20, a21, a22, a23 := src[8], src[9], src[10], src[11];
    var a30, a31, a32, a33 := src[12], src[13], src[14], src[15];
    [a00 * a11 - a01 * a10, a00 * a12 - a02 * a10, a00 * a13 - a03 * a10,
     a01 * a12 - a02 * a11, a01 * a13 - a03 * a11, a02 * a13 - a03 * a12,
     a20 * a31 - a21 * a30, a20 * a32 - a22 * a30, a20 * a33 - a23 * a30,
     a21 * a32 - a22 * a31, a21 * a33 - a23 * a31, a22 * a33 - a23 * a32]
  }

  /** The determinant of the 4x4 source, by the Laplace expansion over the
      minors. */
  function Determinant(src: seq<real>): real
    requires |src| == 16
  {
    var b := Minors(src);
    b[0] * b[11] - b[1] * b[10] + b[2] * b[9] + b[3] * b[8] - b[4] * b[7] + b[5] * b[6]
  }

  /** The nine cofactor expressions of `get_normal_matrix`. For a source
      whose last row is (0, 0, 0, 1) they are the cofactors of the
      upper-left 3x3 block (`AffineCofactors`), so that, divided by the
      determinant, they give its transposed inverse. */
  function Cofactors(src: seq<real>): (c: seq<real>)
    requires |src| == 16
  {
    var a00, a01, a02, a03 := src[0], src[1], src[2], src[3];
    var a10, a11, a12, a13 := src[4], src[5], src[6], src[7];
    var a30, a31, a32, a33 := src[12], src[13], src[14], src[15];
    var b := Minors(src);
    [a11 * b[11] - a12 * b[10] + a13 * b[9],
     a12 * b[8] - a10 * b[11] - a13 * b[7],
     a10 * b[10] - a11 * b[8] + a13 * b[6],
     a02 * b[10] - a01 * b[11] - a03 * b[9],
     a00 * b[11] - a02 * b[8] + a03 * b[7],
     a01 * b[8] - a00 * b[10] - a03 * b[6],
     a31 * b[5] - a32 * b[4] + a33 * b[3],
     a32 * b[2] - a30 * b[5] - a33 * b[1],
     a30 * b[4] - a31 * b[2] + a33 * b[0]]
  }

  /** Nine entries each multiplied by the same factor. */
  function ScaledAll(c: seq<real>, factor: real): (r: seq<real>)
    requires |c| == ElementNum
    ensures |r| == ElementNum
    ensures forall k | 0 <= k < ElementNum :: r[k] == Scaled(c[k], factor)
  {
    [Scaled(c[0], factor), Scaled(c[1], factor), Scaled(c[2], factor),
     Scaled(c[3], factor), Scaled(c[4], factor), Scaled(c[5], factor),
     Scaled(c[6], factor), Scaled(c[7], factor), Scaled(c[8], factor)]
  }

  /** The normal matrix of `src`, or `None` for a singular source, in which
      case `make_normal_from_matrix4` writes nothing. */
  function NormalElements(src: seq<real>): (r: Option<seq<real>>)
    requires |src| == 16
    ensures r.None? <==> Determinant(src) == 0.0
    ensures r.Some? ==> |r.value| == ElementNum
  {
    var det := Determinant(src);
    if det == 0.0 then None else Some(ScaledAll(Cofactors(src), 1.0 / det))
  }

  /** The normal matrix of the 4x4 identity is the 3x3 identity. */
  lemma NormalOfIdentity()
    ensures NormalElements([1.0, 0.0, 0.0, 0.0,
                            0.0, 1.0, 0.0, 0.0,
                            0.0, 0.0, 1.0, 0.0,
                            0.0, 0.0, 0.0, 1.0]) == Some(IdentityElements())
  {
    var src := [1.0, 0.0, 0.0, 0.0, 0.0, 1.0, 0.0, 0.0, 0.0, 0.0, 1.0, 0.0, 0.0, 0.0, 0.0, 1.0];
    assert Minors(src) == [1.0, 0.0, 0.0, 0.0, 0.0, 0.0, 0.0, 0.0, 0.0, 0.0, 0.0, 1.0];
    assert Determinant(src) == 1.0;
    assert Cofactors(src) == IdentityElements();
  }

  /** Column-major 4x4 matrices whose last row is (0, 0, 0, 1): the
      transforms a scene node's matrix takes. */
  predicate Affine(src: seq<real>)
    requires |src| == 16
  {
    src[3] == 0.0 && src[7] == 0.0 && src[11] == 0.0 && src[15] == 1.0
  }

  /** Row r of the transpose of the 3x3 matrix `n` times column c of the
      upper-left block of `src`. */
  function Dot(n: seq<real>, src: seq<real>, r: nat, c: nat): real
    requires |n| == ElementNum && |src| == 16 && r < 3 && c < 3
  {
    n[Slot(r, 0)] * src[4 * c] + n[Slot(r, 1)] * src[4 * c + 1] + n[Slot(r, 2)] * src[4 * c + 2]
  }

  /** The normal matrix is the inverse transpose of the upper-left 3x3
      block: for an affine source, transposing it and multiplying by that
      block gives the identity. */
  lemma NormalIsInverseTranspose(src: seq<real>)
    requires |src| == 16 && Affine(src)
    requires NormalElements(src).Some?
    ensures forall r, c | 0 <= r < 3 && 0 <= c < 3 ::
      Dot(NormalElements(src).value, src, r, c) == if r == c then 1.0 else 0.0
  {
    var det := Determinant(src);
    var co := Cofactors(src);
    CofactorsOfAffine(src);
    var n := NormalElements(src).value;
    forall r, c | 0 <= r < 3 && 0 <= c < 3
      ensures Dot(n, src, r, c) == if r == c then 1.0 else 0.0
    {
      DotScaled(co, 1.0 / det, src, r, c);
    }
  }

  /** For an affine source each row of cofactors dotted with a column of
      the upper-left block gives the determinant on the diagonal and zero
      elsewhere. */
  lemma CofactorsOfAffine(src: seq<real>)
    requires |src| == 16 && Affine(src)
    ensures forall r, c | 0 <= r < 3 && 0 <= c < 3 ::
      Dot(Cofactors(src), src, r, c) == if r == c then Determinant(src) else 0.0
  {
    AffineCofactors(src);
    AdjugateDots(Cofactors(src), src, Determinant(src));
  }

  /** The adjugate identity on the entries of the upper-left block of
      `src`, for any `co` holding that block's cofactors. */
  lemma AdjugateDots(co: seq<real>, src: seq<real>, d: real)
    requires |co| == ElementNum && |src| == 16
    requires var a00, a01, a02, a10, a11, a12, a20, a21, a22 := src[0], src[1], src[2], src[4], src[5], src[6], src[8], src[9], src[10];
             && co[0] == a11 * a22 - a12 * a21
             && co[1] == a12 * a20 - a10 * a22
             && co[2] == a10 * a21 - a11 * a20
             && co[3] == a02 * a21 - a01 * a22
             && co[4] == a00 * a22 - a02 * a20
             && co[5] == a01 * a20 - a00 * a21
             && co[6] == a01 * a12 - a02 * a11
             && co[7] == a02 * a10 - a00 * a12
             && co[8] == a00 * a11 - a01 * a10
             && d == Determinant3(a00, a01, a02, a10, a11, a12, a20, a21, a22)
    ensures forall r, c | 0 <= r < 3 && 0 <= c < 3 :: Dot(co, src, r, c) == if r == c then d else 0.0
  {
    CofactorRowDots(co, src, d, 0);
    CofactorRowDots(co, src, d, 1);
    CofactorRowDots(co, src, d, 2);
  }

  /** One row of `co`, holding the cofactors of that row of the upper-left
      block, against the three columns of the block. */
  lemma CofactorRowDots(co: seq<real>, src: seq<real>, d: real, r: nat)
    requires |co| == ElementNum && |src| == 16 && r < 3
    requires var a00, a01, a02, a10, a11, a12, a20, a21, a22 := src[0], src[1], src[2], src[4], src[5], src[6], src[8], src[9], src[10];
             && (r == 0 ==> co[0] == a11 * a22 - a12 * a21 && co[1] == a12 * a20 - a10 * a22 && co[2] == a10 * a21 - a11 * a20)
             && (r == 1 ==> co[3] == a02 * a21 - a01 * a22 && co[4] == a00 * a22 - a02 * a20 && co[5] == a01 * a20 - a00 * a21)
             && (r == 2 ==> co[6] == a01 * a12 - a02 * a11 && co[7] == a02 * a10 - a00 * a12 && co[8] == a00 * a11 - a01 * a10)
             && d == Determinant3(a00, a01, a02, a10, a11, a12, a20, a21, a22)
    ensures forall c | 0 <= c < 3 :: Dot(co, src, r, c) == if r == c then d else 0.0
  {
    var a00, a01, a02, a10, a11, a12, a20, a21, a22 := src[0], src[1], src[2], src[4], src[5], src[6], src[8], src[9], src[10];
    AdjugateRow(a00, a01, a02, a10, a11, a12, a20, a21, a22, co[3 * r], co[3 * r + 1], co[3 * r + 2], r);
    DotsOfRow(co, src, r, if r == 0 then d else 0.0, if r == 1 then d else 0.0, if r == 2 then d else 0.0);
  }

  /** Row `r` of `co` against the three columns of the upper-left block. */
  lemma DotsOfRow(co: seq<real>, src: seq<real>, r: nat, d0: real, d1: real, d2: real)
    requires |co| == ElementNum && |src| == 16 && r < 3
    requires co[3 * r] * src[0] + co[3 * r + 1] * src[1] + co[3 * r + 2] * src[2] == d0
    requires co[3 * r] * src[4] + co[3 * r + 1] * src[5] + co[3 * r + 2] * src[6] == d1
    requires co[3 * r] * src[8] + co[3 * r + 1] * src[9] + co[3 * r + 2] * src[10] == d2
    ensures Dot(co, src, r, 0) == d0 && Dot(co, src, r, 1) == d1 && Dot(co, src, r, 2) == d2
  {
  }

  /** With the last row (0, 0, 0, 1) the cofactors and the determinant are
      those of the upper-left 3x3 block. */
  lemma AffineCofactors(src: seq<real>)
    requires |src| == 16 && Affine(src)
    ensures var a00, a01, a02 := src[0], src[1], src[2];
            var a10, a11, a12 := src[4], src[5], src[6];
            var a20, a21, a22 := src[8], src[9], src[10];
            var co := Cofactors(src);
            && |co| == ElementNum
            && co[0] == a11 * a22 - a12 * a21
            && co[1] == a12 * a20 - a10 * a22
            && co[2] == a10 * a21 - a11 * a20
            && co[3] == a02 * a21 - a01 * a22
            && co[4] == a00 * a22 - a02 * a20
            && co[5] == a01 * a20 - a00 * a21
            && co[6] == a01 * a12 - a02 * a11
            && co[7] == a02 * a10 - a00 * a12
            && co[8] == a00 * a11 - a01 * a10
            && Determinant(src) == Determinant3(a00, a01, a02, a10, a11, a12, a20, a21, a22)
  {
    AffineMinors(src);
    AffineDeterminant(src);
  }

  /** With the last row (0, 0, 0, 1) the determinant is that of the
      upper-left 3x3 block. */
  lemma AffineDeterminant(src: seq<real>)
    requires |src| == 16 && Affine(src)
    ensures Determinant(src) == Determinant3(src[0], src[1], src[2], src[4], src[5], src[6], src[8], src[9], src[10])
  {
    var b := Minors(src);
    AffineMinors(src);
    assert Determinant(src) == b[0] * src[10] - b[1] * src[9] + b[3] * src[8];
  }

  /** The minors of an affine source: those involving the last row reduce
      to entries of the third column or vanish. */
  lemma AffineMinors(src: seq<real>)
    requires |src| == 16 && Affine(src)
    ensures var b := Minors(src);
            b[0] == src[0] * src[5] - src[1] * src[4] && b[1] == src[0] * src[6] - src[2] * src[4]
            && b[2] == 0.0 && b[3] == src[1] * src[6] - src[2] * src[5] && b[4] == 0.0 && b[5] == 0.0
            && b[8] == src[8] && b[10] == src[9] && b[11] == src[10]
  {
  }

  /** The determinant of the 3x3 matrix with columns (a00, a01, a02),
      (a10, a11, a12), (a20, a21, a22). */
  function Determinant3(a00: real, a01: real, a02: real, a10: real, a11: real, a12: real,
                        a20: real, a21: real, a22: real): real
  {
    (a00 * a11 - a01 * a10) * a22 - (a00 * a12 - a02 * a10) * a21 + (a01 * a12 - a02 * a11) * a20
  }

  /** The adjugate identity for 3x3 matrices, one row of cofactors at a
      time: row `r` (c0, c1, c2) of the cofactors of the matrix with columns
      (a00, a01, a02), (a10, a11, a12), (a20, a21, a22), against the three
      columns, gives the determinant against column `r` and zero against
      the others. */
  lemma AdjugateRow(a00: real, a01: real, a02: real, a10: real, a11: real, a12: real,
                    a20: real, a21: real, a22: real, c0: real, c1: real, c2: real, r: nat)
    requires r < 3
    requires r == 0 ==> c0 == a11 * a22 - a12 * a21 && c1 == a12 * a20 - a10 * a22 && c2 == a10 * a21 - a11 * a20
    requires r == 1 ==> c0 == a02 * a21 - a01 * a22 && c1 == a00 * a22 - a02 * a20 && c2 == a01 * a20 - a00 * a21
    requires r == 2 ==> c0 == a01 * a12 - a02 * a11 && c1 == a02 * a10 - a00 * a12 && c2 == a00 * a11 - a01 * a10
    ensures var d := Determinant3(a00, a01, a02, a10, a11, a12, a20, a21, a22);
      && c0 * a00 + c1 * a01 + c2 * a02 == (if r == 0 then d else 0.0)
      && c0 * a10 + c1 * a11 + c2 * a12 == (if r == 1 then d else 0.0)
      && c0 * a20 + c1 * a21 + c2 * a22 == (if r == 2 then d else 0.0)
  {
    if r == 0 {
      CrossDots(a10, a11, a12, a20, a21, a22, a00, a01, a02);
    } else if r == 1 {
      CrossDots(a20, a21, a22, a00, a01, a02, a10, a11, a12);
      Determinant3Cyclic(a00, a01, a02, a10, a11, a12, a20, a21, a22);
    } else {
      CrossDots(a00, a01, a02, a10, a11, a12, a20, a21, a22);
      Determinant3Cyclic(a10, a11, a12, a20, a21, a22, a00, a01, a02);
      Determinant3Cyclic(a00, a01, a02, a10, a11, a12, a20, a21, a22);
    }
  }

  /** The cross product of u and v is orthogonal to both, and its dot
      product with w is the determinant with columns w, u, v. */
  lemma CrossDots(u0: real, u1: real, u2: real, v0: real, v1: real, v2: real, w0: real, w1: real, w2: real)
    ensures var c0, c1, c2 := u1 * v2 - u2 * v1, u2 * v0 - u0 * v2, u0 * v1 - u1 * v0;
      && c0 * u0 + c1 * u1 + c2 * u2 == 0.0
      && c0 * v0 + c1 * v1 + c2 * v2 == 0.0
      && c0 * w0 + c1 * w1 + c2 * w2 == Determinant3(w0, w1, w2, u0, u1, u2, v0, v1, v2)
  {
  }

  /** Rotating the columns leaves the determinant unchanged. */
  lemma Determinant3Cyclic(a00: real, a01: real, a02: real, a10: real, a11: real, a12: real,
                           a20: real, a21: real, a22: real)
    ensures Determinant3(a10, a11, a12, a20, a21, a22, a00, a01, a02) == Determinant3(a00, a01, a02, a10, a11, a12, a20, a21, a22)
  {
  }

  /** Scaling every entry scales each row-times-column product. */
  lemma DotScaled(co: seq<real>, factor: real, src: seq<real>, r: nat, c: nat)
    requires |co| == ElementNum && |src| == 16 && r < 3 && c < 3
    ensures Dot(ScaledAll(co, factor), src, r, c) == factor * Dot(co, src, r, c)
  {
    var i0, i1, i2 := Slot(r, 0), Slot(r, 1), Slot(r, 2);
    ScaledSum(co[i0], co[i1], co[i2], src[4 * c], src[4 * c + 1], src[4 * c + 2], factor);
  }

  /** Factoring a common scale out of a three-term sum of products. */
  lemma ScaledSum(x0: real, x1: real, x2: real, y0: real, y1: real, y2: real, factor: real)
    ensures Scaled(x0, factor) * y0 + Scaled(x1, factor) * y1 + Scaled(x2, factor) * y2
            == factor * (x0 * y0 + x1 * y1 + x2 * y2)
  {
  }

  method Create() returns (m: array<real>)
    ensures fresh(m)
    ensures m[..] == IdentityElements()
  {
    m := new real[ElementNum](_ => 0.0);
    Identity(m);
  }

  method Identity(m: array<real>)
    requires m.Length == ElementNum
    modifies m
    ensures m[..] == IdentityElements()
  {
    m[0] := 1.0; m[1] := 0.0; m[2] := 0.0;
    m[3] := 0.0; m[4] := 1.0; m[5] := 0.0;
    m[6] := 0.0; m[7] := 0.0; m[8] := 1.0;
  }

  /** Element-wise copy; `src` is a shared borrow, so distinct from `m`. */
  method Copy(m: array<real>, src: array<real>)
    requires m.Length == ElementNum && src.Length == ElementNum
    requires m != src
    modifies m
    ensures m[..] == src[..]
  {
    for i := 0 to ElementNum
      invariant forall k | 0 <= k < i :: m[k] == src[k]
    {
      m[i] := src[i];
    }
  }

  /** A singular source leaves `m` as it was; otherwise all nine entries
      are overwritten with the normal matrix, whatever `m` held before. */
  method MakeNormalFromMatrix4(m: array<real>, src: array<real>)
    requires m.Length == ElementNum && src.Length == 16
    requires m != src
    modifies m
    ensures NormalElements(src[..]).None? ==> m[..] == old(m[..])
    ensures NormalElements(src[..]).Some? ==> m[..] == NormalElements(src[..]).value
  {
    var det := Determinant(src[..]);
    if det == 0.0 {
      return;
    }
    var inverse := 1.0 / det;
    WriteScaled(m, Cofactors(src[..]), inverse);
  }

  /** The nine stores of `make_normal_from_matrix4`, each a cofactor times
      the inverse determinant. */
  method WriteScaled(m: array<real>, c: seq<real>, factor: real)
    requires m.Length == ElementNum && |c| == ElementNum
    modifies m
    ensures m[..] == ScaledAll(c, factor)
  {
    m[0] := Scaled(c[0], factor);
    m[1] := Scaled(c[1], factor);
    m[2] := Scaled(c[2], factor);
    m[3] := Scaled(c[3], factor);
    m[4] := Scaled(c[4], factor);
    m[5] := Scaled(c[5], factor);
    m[6] := Scaled(c[6], factor);
    m[7] := Scaled(c[7], factor);
    m[8] := Scaled(c[8], factor);
    assert m[..] == [m[0], m[1], m[2], m[3], m[4], m[5], m[6], m[7], m[8]];
  }
}

/** src/math/matrix3gpu.rs: a 3x3 matrix laid out for the GPU as three
    columns of four floats, the fourth of each being padding. */
module Matrix3GPU {
  import Matrix3

  const ElementNum: nat := 12

  /** The identity: ones at 0, 5, 10 and zeros elsewhere, padding included. */
  function IdentityElements(): (e: seq<real>)
    ensures |e| == ElementNum
    ensures forall i | 0 <= i < ElementNum :: e[i] == if i % 5 == 0 && i < 11 then 1.0 else 0.0
  {
    [1.0, 0.0, 0.0, 0.0,
     0.0, 1.0, 0.0, 0.0,
     0.0, 0.0, 1.0, 0.0]
  }

  /** Where row j of column i lives: columns are four slots apart. */
  function Slot(i: nat, j: nat): nat { 4 * i + j }

  /** Column i of the 3x3 source lands at slots 4i..4i+2; slot 4i+3 is zero
      padding. */
  function Padded(src: seq<real>): (g: seq<real>)
    requires |src| == 9
    ensures |g| == ElementNum
    ensures forall i, j | 0 <= i < 3 && 0 <= j < 3 :: g[Slot(i, j)] == src[Matrix3.Slot(i, j)]
    ensures g[3] == 0.0 && g[7] == 0.0 && g[11] == 0.0
  {
    [src[0], src[1], src[2], 0.0,
     src[3], src[4], src[5], 0.0,
     src[6], src[7], src[8], 0.0]
  }

  /** Reads the nine matrix slots back, skipping the padding. */
  function Compact(g: seq<real>): (src: seq<real>)
    requires |g| == ElementNum
    ensures |src| == 9
  {
    [g[0], g[1], g[2], g[4], g[5], g[6], g[8], g[9], g[10]]
  }

  /** Reading back what `copy_from_matrix3` wrote gives the source matrix. */
  lemma CompactPadded(src: seq<real>)
    requires |src| == 9
    ensures Compact(Padded(src)) == src
  {
  }

  /** A layout whose padding slots are zero is determined by its nine matrix
      slots. */
  lemma PaddedCompact(g: seq<real>)
    requires |g| == ElementNum
    requires g[3] == 0.0 && g[7] == 0.0 && g[11] == 0.0
    ensures Padded(Compact(g)) == g
  {
  }

  /** The 3x3 identity is laid out as the padded identity. */
  lemma PaddedIdentity()
    ensures Padded(Matrix3.IdentityElements()) == IdentityElements()
  {
  }

  method Create() returns (m: array<real>)
    ensures fresh(m)
    ensures m[..] == IdentityElements()
  {
    m := new real[ElementNum](_ => 0.0);
    Identity(m);
  }

  method Identity(m: array<real>)
    requires m.Length == ElementNum
    modifies m
    ensures m[..] == IdentityElements()
  {
    m[0] := 1.0; m[1] := 0.0;  m[2] := 0.0;  m[3] := 0.0;
    m[4] := 0.0; m[5] := 1.0;  m[6] := 0.0;  m[7] := 0.0;
    m[8] := 0.0; m[9] := 0.0;  m[10] := 1.0; m[11] := 0.0;
  }

  /** Element-wise copy; `src` is a shared borrow, so distinct from `m`. */
  method Copy(m: array<real>, src: array<real>)
    requires m.Length == ElementNum && src.Length == ElementNum
    requires m != src
    modifies m
    ensures m[..] == src[..]
  {
    for i := 0 to ElementNum
      invariant forall k | 0 <= k < i :: m[k] == src[k]
    {
      m[i] := src[i];
    }
  }

  method CopyFromMatrix3(m: array<real>, src: array<real>)
    requires m.Length == ElementNum && src.Length == 9
    requires m != src
    modifies m
    ensures m[..] == Padded(src[..])
  {
    m[0] := src[0];
    m[1] := src[1];
    m[2] := src[2];
    m[3] := 0.0;
    m[4] := src[3];
    m[5] := src[4];
    m[6] := src[5];
    m[7] := 0.0;
    m[8] := src[6];
    m[9] := src[7];
    m[10] := src[8];
    m[11] := 0.0;
    assert m[..] == [m[0], m[1], m[2], m[3], m[4], m[5], m[6], m[7], m[8], m[9], m[10], m[11]];
  }
}
