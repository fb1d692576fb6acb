/** src/utils/geometry_helper.rs: builders for a triangle, a plane and a box.
    Each fills a position, a normal and a uv buffer and a `u16` index
    buffer, adds them to the attribute and index pools, and adds a geometry
    that refers to them by handle. `f32` is modelled as `real`; products of
    a unit coordinate and a dimension go through `Scaled`. */
module GeometryHelper {
  import opened Numeric
  import opened Resource
  import opened Wrappers
  import Attributes
  import GeometryIndices
  import Geometries
  import Vector3
  import opened ResourceRegistry

  type Triple = (real, real, real)

  function Component(t: Triple, c: nat): real
    requires c < 3
  {
    if c == 0 then t.0 else if c == 1 then t.1 else t.2
  }

  function Minus(a: Triple, b: Triple): Triple
  {
    (a.0 - b.0, a.1 - b.1, a.2 - b.2)
  }

  function Cross(a: Triple, b: Triple): Triple
  {
    (a.1 * b.2 - a.2 * b.1, a.2 * b.0 - a.0 * b.2, a.0 * b.1 - a.1 * b.0)
  }

  function Dot(a: Triple, b: Triple): real
  {
    a.0 * b.0 + a.1 * b.1 + a.2 * b.2
  }

  /** Vertex `v` of a flat buffer of three components per vertex. */
  function Vertex(buffer: seq<real>, v: nat): Triple
    requires 3 * v + 3 <= |buffer|
  {
    (buffer[3 * v], buffer[3 * v + 1], buffer[3 * v + 2])
  }

  /** Triangle `t` of an index buffer names three vertices of the buffers
      and turns counter-clockwise around the normal of its first vertex:
      the cross product of its two edges points the way that normal does. */
  predicate FacesNormal(positions: seq<real>, normals: seq<real>, indices: seq<u16>, t: nat)
    requires 3 * t + 3 <= |indices|
  {
    var a, b, c := indices[3 * t] as nat, indices[3 * t + 1] as nat, indices[3 * t + 2] as nat;
    3 * a + 3 <= |positions| && 3 * b + 3 <= |positions| && 3 * c + 3 <= |positions| && 3 * a + 3 <= |normals|
    && Dot(Cross(Minus(Vertex(positions, b), Vertex(positions, a)), Minus(Vertex(positions, c), Vertex(positions, a))),
           Vertex(normals, a)) > 0.0
  }

  /** Every triangle of the buffers faces its normal. */
  predicate WoundOutward(positions: seq<real>, normals: seq<real>, indices: seq<u16>)
  {
    |indices| % 3 == 0
    && (forall k | 0 <= k < |indices| :: 3 * (indices[k] as nat) + 3 <= |positions| && 3 * (indices[k] as nat) + 3 <= |normals|)
    && forall t | 0 <= t < |indices| / 3 :: FacesNormal(positions, normals, indices, t)
  }

  // ---------------------------------------------------------------- triangle

  /** The triangle's vertices: apex on the y axis, base below it; `root` is
      the `f32` square root of 0.75 that the source computes. */
  function TrianglePositions(width: real, height: real, root: real): seq<real>
  {
    var dy := root / 2.0;
    [0.0, Scaled(root - dy, height), 0.0,
     Scaled(-0.5, width), Scaled(-dy, height), 0.0,
     Scaled(0.5, width), Scaled(-dy, height), 0.0]
  }

  const TriangleNormals: seq<real> := [0.0, 0.0, 1.0, 0.0, 0.0, 1.0, 0.0, 0.0, 1.0]

  const TriangleUvs: seq<real> := [0.5, 0.0, 1.0, 1.0, 0.0, 1.0]

  const TriangleIndices: seq<u16> := [0, 1, 2]

  function SquaredDistance(a: Triple, b: Triple): real
  {
    var e := Minus(a, b);
    Dot(e, e)
  }

  /** With a unit width and height and the exact square root, the triangle
      is equilateral with sides of length one, and its apex and base are
      equally far from the x axis. */
  lemma TriangleEquilateral(root: real)
    requires root > 0.0 && root * root == 0.75
    ensures var p := TrianglePositions(1.0, 1.0, root);
            SquaredDistance(Vertex(p, 0), Vertex(p, 1)) == 1.0
            && SquaredDistance(Vertex(p, 1), Vertex(p, 2)) == 1.0
            && SquaredDistance(Vertex(p, 2), Vertex(p, 0)) == 1.0
            && p[1] == -p[4] && p[4] == p[7]
  {
    var p := TrianglePositions(1.0, 1.0, root);
    assert Vertex(p, 0) == (0.0, root / 2.0, 0.0);
    assert Vertex(p, 1) == (-0.5, -(root / 2.0), 0.0);
    assert Vertex(p, 2) == (0.5, -(root / 2.0), 0.0);
  }

  /** The triangle's single face turns counter-clockwise around its normal
      (0, 0, 1) for any positive size. */
  lemma TriangleWinding(width: real, height: real, root: real)
    requires width > 0.0 && height > 0.0 && root > 0.0
    ensures WoundOutward(TrianglePositions(width, height, root), TriangleNormals, TriangleIndices)
  {
    var p := TrianglePositions(width, height, root);
    var e1 := Minus(Vertex(p, 1), Vertex(p, 0));
    var e2 := Minus(Vertex(p, 2), Vertex(p, 0));
    assert Cross(e1, e2).2 == root * width * height by {
      assert e1 == (Scaled(-0.5, width), Scaled(-(root / 2.0), height) - Scaled(root - root / 2.0, height), 0.0);
      assert e2 == (Scaled(0.5, width), Scaled(-(root / 2.0), height) - Scaled(root - root / 2.0, height), 0.0);
    }
    assert root * width * height > 0.0 by {
      assert root * width > 0.0;
    }
    assert FacesNormal(p, TriangleNormals, TriangleIndices, 0);
  }

  // ------------------------------------------------------------------- plane

  /** Top-left, top-right, bottom-left, bottom-right, at z = 0. */
  function PlanePositions(width: real, height: real): seq<real>
  {
    [Scaled(-0.5, width), Scaled(0.5, height), 0.0,
     Scaled(0.5, width), Scaled(0.5, height), 0.0,
     Scaled(-0.5, width), Scaled(-0.5, height), 0.0,
     Scaled(0.5, width), Scaled(-0.5, height), 0.0]
  }

  const PlaneNormals: seq<real> := [0.0, 0.0, 1.0, 0.0, 0.0, 1.0, 0.0, 0.0, 1.0, 0.0, 0.0, 1.0]

  const QuadUvs: seq<real> := [0.0, 0.0, 1.0, 0.0, 0.0, 1.0, 1.0, 1.0]

  function PlaneIndices(): seq<u16>
  {
    [0, 2, 1, 1, 2, 3]
  }

  /** Both triangles of the plane turn counter-clockwise around the normal
      (0, 0, 1) for any positive size. */
  lemma PlaneWinding(width: real, height: real)
    requires width > 0.0 && height > 0.0
    ensures WoundOutward(PlanePositions(width, height), PlaneNormals, PlaneIndices())
  {
    var p := PlanePositions(width, height);
    var i := PlaneIndices();
    assert Vertex(p, 0) == (Scaled(-0.5, width), Scaled(0.5, height), 0.0);
    assert Vertex(p, 1) == (Scaled(0.5, width), Scaled(0.5, height), 0.0);
    assert Vertex(p, 2) == (Scaled(-0.5, width), Scaled(-0.5, height), 0.0);
    assert Vertex(p, 3) == (Scaled(0.5, width), Scaled(-0.5, height), 0.0);
    assert width * height > 0.0;
    assert FacesNormal(p, PlaneNormals, i, 0);
    assert FacesNormal(p, PlaneNormals, i, 1);
    assert forall k | 0 <= k < |i| :: i[k] as nat <= 3;
    forall t | 0 <= t < |i| / 3
      ensures FacesNormal(p, PlaneNormals, i, t)
    {
      assert t == 0 || t == 1;
    }
  }

  // --------------------------------------------------------------------- box

  /** The per-face constants of `create_box`: the first corner of the face
      on the unit cube, the face normal, and the offsets of the four
      corners from the first along each axis. */
  datatype FaceSpec = FaceSpec(origin: Triple, normal: Triple, dx: seq<real>, dy: seq<real>, dz: seq<real>)

  /** Front, right, back, left, top, bottom. */
  const Faces: seq<FaceSpec> := [
    FaceSpec((-0.5, 0.5, 0.5), (0.0, 0.0, 1.0),
             [0.0, 1.0, 0.0, 1.0], [0.0, 0.0, -1.0, -1.0], [0.0, 0.0, 0.0, 0.0]),
    FaceSpec((0.5, 0.5, 0.5), (1.0, 0.0, 0.0),
             [0.0, 0.0, 0.0, 0.0], [0.0, 0.0, -1.0, -1.0], [0.0, -1.0, 0.0, -1.0]),
    FaceSpec((0.5, 0.5, -0.5), (0.0, 0.0, -1.0),
             [0.0, -1.0, 0.0, -1.0], [0.0, 0.0, -1.0, -1.0], [0.0, 0.0, 0.0, 0.0]),
    FaceSpec((-0.5, 0.5, -0.5), (-1.0, 0.0, 0.0),
             [0.0, 0.0, 0.0, 0.0], [0.0, 0.0, -1.0, -1.0], [0.0, 1.0, 0.0, 1.0]),
    FaceSpec((-0.5, 0.5, -0.5), (0.0, 1.0, 0.0),
             [0.0, 1.0, 0.0, 1.0], [0.0, 0.0, 0.0, 0.0], [0.0, 0.0, 1.0, 1.0]),
    FaceSpec((-0.5, -0.5, 0.5), (0.0, -1.0, 0.0),
             [0.0, 1.0, 0.0, 1.0], [0.0, 0.0, 0.0, 0.0], [0.0, 0.0, -1.0, -1.0])]

  /** The match on `face`: every number past the top is the bottom. */
  function Face(face: nat): (f: FaceSpec)
    ensures |f.dx| == 4 && |f.dy| == 4 && |f.dz| == 4
  {
    if face < 5 then Faces[face] else Faces[5]
  }

  /** Corner `i` of a face on the unit cube. */
  function UnitCorner(face: nat, i: nat): Triple
    requires i < 4
  {
    var f := Face(face);
    (f.origin.0 + f.dx[i], f.origin.1 + f.dy[i], f.origin.2 + f.dz[i])
  }

  /** A point of the unit cube stretched to the box. */
  function Stretched(u: Triple, width: real, height: real, depth: real): Triple
  {
    (Scaled(u.0, width), Scaled(u.1, height), Scaled(u.2, depth))
  }

  /** Corner `i` of a face, scaled to the box. */
  function Corner(face: nat, i: nat, width: real, height: real, depth: real): Triple
    requires i < 4
  {
    Stretched(UnitCorner(face, i), width, height, depth)
  }

  /** The concatenation of `chunks`, in order. */
  function Flatten<T>(chunks: seq<seq<T>>): seq<T>
  {
    if chunks == [] then [] else Flatten(chunks[..|chunks| - 1]) + chunks[|chunks| - 1]
  }

  /** Appending one more chunk appends its entries. */
  lemma FlattenSnoc<T>(chunks: seq<seq<T>>, n: nat)
    requires n < |chunks|
    ensures Flatten(chunks[..n + 1]) == Flatten(chunks[..n]) + chunks[n]
  {
    assert chunks[..n + 1][..n] == chunks[..n];
  }

  /** Chunks of `size` entries each make `size` entries per chunk. */
  lemma {:induction false} FlattenLength<T>(chunks: seq<seq<T>>, size: nat)
    requires forall m | 0 <= m < |chunks| :: |chunks[m]| == size
    ensures |Flatten(chunks)| == size * |chunks|
  {
    if chunks != [] {
      var n := |chunks|;
      FlattenLength(chunks[..n - 1], size);
      assert size * (n - 1) + size == size * n;
    }
  }

  /** When every chunk has `size` entries, chunk `m` sits at entries
      `size * m ..` of the concatenation. */
  lemma FlattenChunk<T>(chunks: seq<seq<T>>, size: nat, m: nat)
    requires forall j | 0 <= j < |chunks| :: |chunks[j]| == size
    requires m < |chunks|
    ensures |Flatten(chunks)| == size * |chunks|
    ensures size * m + size <= |Flatten(chunks)| && Flatten(chunks)[size * m..size * m + size] == chunks[m]
  {
    var front, rest := chunks[..m], chunks[m + 1..];
    assert chunks == front + [chunks[m]] + rest;
    FlattenAppend(front + [chunks[m]], rest);
    FlattenAppend(front, [chunks[m]]);
    assert Flatten([chunks[m]]) == chunks[m] by {
      assert [chunks[m]][..0] == [];
    }
    FlattenLength(front, size);
    FlattenLength(chunks, size);
    var whole := Flatten(chunks);
    assert whole == Flatten(front) + chunks[m] + Flatten(rest);
  }

  /** Flattening distributes over concatenation. */
  lemma {:induction false} FlattenAppend<T>(a: seq<seq<T>>, b: seq<seq<T>>)
    ensures Flatten(a + b) == Flatten(a) + Flatten(b)
  {
    if b == [] {
      assert a + b == a;
    } else {
      var init, last := b[..|b| - 1], b[|b| - 1];
      assert (a + b)[..|a + b| - 1] == a + init;
      calc {
        Flatten(a + b);
        Flatten(a + init) + last;
        { FlattenAppend(a, init); }
        (Flatten(a) + Flatten(init)) + last;
        Flatten(a) + (Flatten(init) + last);
      }
    }
  }

  /** The three components of corner `i` of `face`, as `position_vec` holds
      them. */
  function CornerComponents(face: nat, i: nat, width: real, height: real, depth: real): (c: seq<real>)
    requires i < 4
    ensures |c| == 3
  {
    var c := Corner(face, i, width, height, depth);
    [c.0, c.1, c.2]
  }

  function NormalComponents(face: nat): (c: seq<real>)
    ensures |c| == 3
  {
    var n := Face(face).normal;
    [n.0, n.1, n.2]
  }

  /** The position buffer of one face, one chunk per corner. */
  function CornerChunks(face: nat, width: real, height: real, depth: real): (c: seq<seq<real>>)
    ensures |c| == 4 && forall m | 0 <= m < 4 :: |c[m]| == 3
  {
    seq(4, i requires 0 <= i < 4 => CornerComponents(face, i, width, height, depth))
  }

  /** The normal buffer of one face: its normal once per corner. */
  function NormalChunks(face: nat): (c: seq<seq<real>>)
    ensures |c| == 4 && forall m | 0 <= m < 4 :: |c[m]| == 3
  {
    seq(4, _ => NormalComponents(face))
  }

  function FacePositions(face: nat, width: real, height: real, depth: real): (p: seq<real>)
    ensures |p| == 12
  {
    FlattenLength(CornerChunks(face, width, height, depth), 3);
    Flatten(CornerChunks(face, width, height, depth))
  }

  function FaceNormals(face: nat): (n: seq<real>)
    ensures |n| == 12
  {
    FlattenLength(NormalChunks(face), 3);
    Flatten(NormalChunks(face))
  }

  /** The two triangles of `face`, 0-2-1 and 1-2-3 over its own corners. */
  function FaceIndexEntries(face: nat): (ix: seq<u16>)
    requires face < 6
    ensures |ix| == 6
  {
    [(face * 4 + 0) as u16, (face * 4 + 2) as u16, (face * 4 + 1) as u16,
     (face * 4 + 1) as u16, (face * 4 + 2) as u16, (face * 4 + 3) as u16]
  }

  /** The box's buffers, one chunk per face, front to bottom. */
  function PositionChunks(width: real, height: real, depth: real): (c: seq<seq<real>>)
    ensures |c| == 6 && forall m | 0 <= m < 6 :: |c[m]| == 12
  {
    seq(6, face requires 0 <= face < 6 => FacePositions(face, width, height, depth))
  }

  function NormalFaceChunks(): (c: seq<seq<real>>)
    ensures |c| == 6 && forall m | 0 <= m < 6 :: |c[m]| == 12
  {
    seq(6, face requires 0 <= face < 6 => FaceNormals(face))
  }

  function UvChunks(): (c: seq<seq<real>>)
    ensures |c| == 6 && forall m | 0 <= m < 6 :: |c[m]| == 8
  {
    seq(6, _ => QuadUvs)
  }

  function IndexChunks(): (c: seq<seq<u16>>)
    ensures |c| == 6 && forall m | 0 <= m < 6 :: |c[m]| == 6
  {
    seq(6, face requires 0 <= face < 6 => FaceIndexEntries(face))
  }

  function BoxPositions(width: real, height: real, depth: real): (p: seq<real>)
    ensures |p| == 72
  {
    FlattenLength(PositionChunks(width, height, depth), 12);
    Flatten(PositionChunks(width, height, depth))
  }

  function BoxNormals(): (n: seq<real>)
    ensures |n| == 72
  {
    FlattenLength(NormalFaceChunks(), 12);
    Flatten(NormalFaceChunks())
  }

  function BoxUvs(): (u: seq<real>)
    ensures |u| == 48
  {
    FlattenLength(UvChunks(), 8);
    Flatten(UvChunks())
  }

  function BoxIndices(): (i: seq<u16>)
    ensures |i| == 36
  {
    FlattenLength(IndexChunks(), 6);
    Flatten(IndexChunks())
  }

  /** The loops of `create_box`: for each face, four corners of three
      components and three normal components each, then the face's uvs and
      its two triangles. */
  method BoxBuffers(width: real, height: real, depth: real)
    returns (positions: seq<real>, normals: seq<real>, uvs: seq<real>, indices: seq<u16>)
    ensures positions == BoxPositions(width, height, depth)
    ensures normals == BoxNormals()
    ensures uvs == BoxUvs()
    ensures indices == BoxIndices()
  {
    positions, normals, uvs, indices := [], [], [], [];
    var positionVec := Vector3.Create();
    for face := 0 to 6
      invariant positions == Flatten(PositionChunks(width, height, depth)[..face])
      invariant normals == Flatten(NormalFaceChunks()[..face])
      invariant uvs == Flatten(UvChunks()[..face])
      invariant indices == Flatten(IndexChunks()[..face])
    {
      positions, normals := FaceCorners(face, width, height, depth, positionVec, positions, normals);
      uvs := uvs + QuadUvs;
      indices := indices + FaceIndexEntries(face);
      FlattenSnoc(PositionChunks(width, height, depth), face);
      FlattenSnoc(NormalFaceChunks(), face);
      FlattenSnoc(UvChunks(), face);
      FlattenSnoc(IndexChunks(), face);
    }
    assert PositionChunks(width, height, depth)[..6] == PositionChunks(width, height, depth);
    assert NormalFaceChunks()[..6] == NormalFaceChunks();
    assert UvChunks()[..6] == UvChunks();
    assert IndexChunks()[..6] == IndexChunks();
  }

  /** The two inner loops of `create_box` for one face: each corner goes
      through `position_vec`, then onto the position buffer one component
      at a time, and the face normal follows onto the normal buffer. */
  method FaceCorners(face: nat, width: real, height: real, depth: real, positionVec: array<real>,
                     positions0: seq<real>, normals0: seq<real>)
    returns (positions: seq<real>, normals: seq<real>)
    requires face < 6 && positionVec.Length == 3
    modifies positionVec
    ensures positions == positions0 + FacePositions(face, width, height, depth)
    ensures normals == normals0 + FaceNormals(face)
  {
    positions, normals := positions0, normals0;
    for i := 0 to 4
      invariant positions == positions0 + Flatten(CornerChunks(face, width, height, depth)[..i])
      invariant normals == normals0 + Flatten(NormalChunks(face)[..i])
    {
      positions := PushCorner(face, i, width, height, depth, positionVec, positions);
      var normal := Face(face).normal;
      normals := normals + [normal.0, normal.1, normal.2];
      FlattenSnoc(CornerChunks(face, width, height, depth), i);
      FlattenSnoc(NormalChunks(face), i);
    }
    assert CornerChunks(face, width, height, depth)[..4] == CornerChunks(face, width, height, depth);
    assert NormalChunks(face)[..4] == NormalChunks(face);
  }

  /** One pass of the corner loop: corner `i` of `face` goes into
      `position_vec` and from there onto the position buffer. */
  method PushCorner(face: nat, i: nat, width: real, height: real, depth: real, positionVec: array<real>,
                    positions0: seq<real>)
    returns (positions: seq<real>)
    requires i < 4 && positionVec.Length == 3
    modifies positionVec
    ensures positions == positions0 + CornerComponents(face, i, width, height, depth)
  {
    var spec := Face(face);
    positionVec[0] := Scaled(spec.origin.0 + spec.dx[i], width);
    positionVec[1] := Scaled(spec.origin.1 + spec.dy[i], height);
    positionVec[2] := Scaled(spec.origin.2 + spec.dz[i], depth);
    assert positionVec[..] == CornerComponents(face, i, width, height, depth);
    positions := PushComponents(positionVec, positions0);
  }

  /** The innermost loop: the three components of `position_vec`, in order. */
  method PushComponents(positionVec: array<real>, positions0: seq<real>) returns (positions: seq<real>)
    requires positionVec.Length == 3
    ensures positions == positions0 + positionVec[..]
  {
    positions := positions0;
    for j := 0 to 3
      invariant positions == positions0 + positionVec[..j]
    {
      assert positionVec[..j + 1] == positionVec[..j] + [positionVec[j]];
      positions := positions + [positionVec[j]];
    }
  }


  /** Every corner of the unit cube's faces has coordinates of plus or
      minus one half, lies on the plane of its face (half a unit out along
      the face normal), and each normal is a unit vector. */
  lemma UnitCornerOnFace(face: nat, i: nat)
    requires face < 6 && i < 4
    ensures var u := UnitCorner(face, i);
            (u.0 == 0.5 || u.0 == -0.5) && (u.1 == 0.5 || u.1 == -0.5) && (u.2 == 0.5 || u.2 == -0.5)
    ensures Dot(UnitCorner(face, i), Face(face).normal) == 0.5
    ensures Dot(Face(face).normal, Face(face).normal) == 1.0
  {
  }

  /** The four corners of a face are four different points. */
  lemma FaceCornersDistinct(face: nat)
    requires face < 6
    ensures var u0, u1, u2, u3 := UnitCorner(face, 0), UnitCorner(face, 1), UnitCorner(face, 2), UnitCorner(face, 3);
            u0 != u1 && u0 != u2 && u0 != u3 && u1 != u2 && u1 != u3 && u2 != u3
  {
  }

  /** Vertex `4 * face + i` of the box buffers is corner `i` of `face`, with
      that face's normal. */
  lemma BoxVertex(face: nat, i: nat, width: real, height: real, depth: real)
    requires face < 6 && i < 4
    ensures Vertex(BoxPositions(width, height, depth), 4 * face + i) == Corner(face, i, width, height, depth)
    ensures Vertex(BoxNormals(), 4 * face + i) == Face(face).normal
  {
    var k := 12 * face + 3 * i;
    assert 3 * (4 * face + i) == k;
    var p, c := BoxPositions(width, height, depth), CornerComponents(face, i, width, height, depth);
    BoxPositionEntries(face, i, width, height, depth);
    assert p[k] == c[0] && p[k + 1] == c[1] && p[k + 2] == c[2] by {
      assert p[k..k + 3] == c;
    }
    var n, d := BoxNormals(), NormalComponents(face);
    BoxNormalEntries(face, i);
    assert n[k] == d[0] && n[k + 1] == d[1] && n[k + 2] == d[2] by {
      assert n[k..k + 3] == d;
    }
  }

  /** Entries `12 * face + 3 * i ..` of the position buffer. */
  lemma BoxPositionEntries(face: nat, i: nat, width: real, height: real, depth: real)
    requires face < 6 && i < 4
    ensures BoxPositions(width, height, depth)[12 * face + 3 * i..12 * face + 3 * i + 3]
            == CornerComponents(face, i, width, height, depth)
  {
    var lo, a := 12 * face, 3 * i;
    var chunks, corners := PositionChunks(width, height, depth), CornerChunks(face, width, height, depth);
    var p, f := BoxPositions(width, height, depth), FacePositions(face, width, height, depth);
    FlattenChunk(chunks, 12, face);
    assert p[lo..lo + 12] == chunks[face] == f;
    FlattenChunk(corners, 3, i);
    assert f[a..a + 3] == corners[i] == CornerComponents(face, i, width, height, depth);
    SubSlice(p, lo, lo + 12, a, a + 3);
  }

  /** Entries `12 * face + 3 * i ..` of the normal buffer. */
  lemma BoxNormalEntries(face: nat, i: nat)
    requires face < 6 && i < 4
    ensures BoxNormals()[12 * face + 3 * i..12 * face + 3 * i + 3] == NormalComponents(face)
  {
    var lo, a := 12 * face, 3 * i;
    var chunks, corners := NormalFaceChunks(), NormalChunks(face);
    var n, f := BoxNormals(), FaceNormals(face);
    FlattenChunk(chunks, 12, face);
    assert n[lo..lo + 12] == chunks[face] == f;
    FlattenChunk(corners, 3, i);
    assert f[a..a + 3] == corners[i] == NormalComponents(face);
    SubSlice(n, lo, lo + 12, a, a + 3);
  }

  /** Every face of the box maps the whole texture, with the plane's uvs:
      entries `8 * face ..` of the uv buffer. */
  lemma BoxUvEntries(face: nat)
    requires face < 6
    ensures BoxUvs()[8 * face..8 * face + 8] == QuadUvs
  {
    FlattenChunk(UvChunks(), 8, face);
  }

  /** A slice of a slice is a slice of the whole. */
  lemma SubSlice<T>(s: seq<T>, lo: nat, hi: nat, a: nat, b: nat)
    requires lo <= hi <= |s| && a <= b <= hi - lo
    ensures s[lo..hi][a..b] == s[lo + a..lo + b]
  {
    var inner, whole := s[lo..hi][a..b], s[lo + a..lo + b];
    forall j | 0 <= j < b - a
      ensures inner[j] == whole[j]
    {
      assert inner[j] == s[lo..hi][a + j] == s[lo + a + j];
    }
  }

  /** On the unit cube, the edges of each face's two triangles span exactly
      the face normal. */
  predicate UnitFaceWound(face: nat)
  {
    var u0, u1, u2, u3 := UnitCorner(face, 0), UnitCorner(face, 1), UnitCorner(face, 2), UnitCorner(face, 3);
    Cross(Minus(u2, u0), Minus(u1, u0)) == Face(face).normal
    && Cross(Minus(u2, u1), Minus(u3, u1)) == Face(face).normal
  }

  lemma UnitFaceWinding(face: nat)
    requires face < 6
    ensures UnitFaceWound(face)
  {
    if face == 0 {
      FrontWinding();
    } else if face == 1 {
      RightWinding();
    } else if face == 2 {
      BackWinding();
    } else if face == 3 {
      LeftWinding();
    } else if face == 4 {
      TopWinding();
    } else {
      BottomWinding();
    }
  }

  lemma FrontWinding()
    ensures UnitFaceWound(0)
  {
    assert UnitCorner(0, 0) == (-0.5, 0.5, 0.5) && UnitCorner(0, 1) == (0.5, 0.5, 0.5);
    assert UnitCorner(0, 2) == (-0.5, -0.5, 0.5) && UnitCorner(0, 3) == (0.5, -0.5, 0.5);
  }

  lemma RightWinding()
    ensures UnitFaceWound(1)
  {
    assert UnitCorner(1, 0) == (0.5, 0.5, 0.5) && UnitCorner(1, 1) == (0.5, 0.5, -0.5);
    assert UnitCorner(1, 2) == (0.5, -0.5, 0.5) && UnitCorner(1, 3) == (0.5, -0.5, -0.5);
  }

  lemma BackWinding()
    ensures UnitFaceWound(2)
  {
    assert UnitCorner(2, 0) == (0.5, 0.5, -0.5) && UnitCorner(2, 1) == (-0.5, 0.5, -0.5);
    assert UnitCorner(2, 2) == (0.5, -0.5, -0.5) && UnitCorner(2, 3) == (-0.5, -0.5, -0.5);
  }

  lemma LeftWinding()
    ensures UnitFaceWound(3)
  {
    assert UnitCorner(3, 0) == (-0.5, 0.5, -0.5) && UnitCorner(3, 1) == (-0.5, 0.5, 0.5);
    assert UnitCorner(3, 2) == (-0.5, -0.5, -0.5) && UnitCorner(3, 3) == (-0.5, -0.5, 0.5);
  }

  lemma TopWinding()
    ensures UnitFaceWound(4)
  {
    assert UnitCorner(4, 0) == (-0.5, 0.5, -0.5) && UnitCorner(4, 1) == (0.5, 0.5, -0.5);
    assert UnitCorner(4, 2) == (-0.5, 0.5, 0.5) && UnitCorner(4, 3) == (0.5, 0.5, 0.5);
  }

  lemma BottomWinding()
    ensures UnitFaceWound(5)
  {
    assert UnitCorner(5, 0) == (-0.5, -0.5, 0.5) && UnitCorner(5, 1) == (0.5, -0.5, 0.5);
    assert UnitCorner(5, 2) == (-0.5, -0.5, -0.5) && UnitCorner(5, 3) == (0.5, -0.5, -0.5);
  }

  /** Stretching commutes with taking an edge. */
  lemma StretchedMinus(a: Triple, b: Triple, width: real, height: real, depth: real)
    ensures Minus(Stretched(b, width, height, depth), Stretched(a, width, height, depth))
            == Stretched(Minus(b, a), width, height, depth)
  {
    var l, r := Minus(Stretched(b, width, height, depth), Stretched(a, width, height, depth)),
                Stretched(Minus(b, a), width, height, depth);
    assert l.0 == r.0 by { assert Scaled(b.0, width) - Scaled(a.0, width) == Scaled(b.0 - a.0, width); }
    assert l.1 == r.1 by { assert Scaled(b.1, height) - Scaled(a.1, height) == Scaled(b.1 - a.1, height); }
    assert l.2 == r.2 by { assert Scaled(b.2, depth) - Scaled(a.2, depth) == Scaled(b.2 - a.2, depth); }
  }

  /** The cross product of two stretched edges is the cross product of the
      edges, each component scaled by the product of the other two factors. */
  lemma StretchedCross(e1: Triple, e2: Triple, width: real, height: real, depth: real)
    ensures var x, c := Cross(Stretched(e1, width, height, depth), Stretched(e2, width, height, depth)), Cross(e1, e2);
            x.0 == c.0 * (height * depth) && x.1 == c.1 * (width * depth) && x.2 == c.2 * (width * height)
  {
    var s1, s2 := Stretched(e1, width, height, depth), Stretched(e2, width, height, depth);
    var x, c := Cross(s1, s2), Cross(e1, e2);
    assert s1 == (e1.0 * width, e1.1 * height, e1.2 * depth);
    assert s2 == (e2.0 * width, e2.1 * height, e2.2 * depth);
    ScaledDifference(e1.1, e2.2, e1.2, e2.1, height, depth);
    ScaledDifference(e1.2, e2.0, e1.0, e2.2, depth, width);
    ScaledDifference(e1.0, e2.1, e1.1, e2.0, width, height);
  }

  /** (a p)(b q) - (c q)(d p) = (a b - c d)(p q), the shape of each
      component of a stretched cross product. */
  lemma ScaledDifference(a: real, b: real, c: real, d: real, p: real, q: real)
    ensures (a * p) * (b * q) - (c * q) * (d * p) == (a * b - c * d) * (p * q)
  {
  }

  /** Stretching the cube by positive factors keeps a triangle whose edges
      span an axis direction turning the same way around that axis. */
  lemma StretchedWinding(a: Triple, b: Triple, c: Triple, n: Triple, width: real, height: real, depth: real)
    requires width > 0.0 && height > 0.0 && depth > 0.0
    requires n in {(1.0, 0.0, 0.0), (-1.0, 0.0, 0.0), (0.0, 1.0, 0.0), (0.0, -1.0, 0.0), (0.0, 0.0, 1.0), (0.0, 0.0, -1.0)}
    requires Cross(Minus(b, a), Minus(c, a)) == n
    ensures var sa, sb, sc := Stretched(a, width, height, depth), Stretched(b, width, height, depth), Stretched(c, width, height, depth);
            Dot(Cross(Minus(sb, sa), Minus(sc, sa)), n) > 0.0
  {
    StretchedMinus(a, b, width, height, depth);
    StretchedMinus(a, c, width, height, depth);
    StretchedCross(Minus(b, a), Minus(c, a), width, height, depth);
    PositiveProducts(width, height, depth);
  }

  /** The six index entries of `face`: its two triangles, 0-2-1 and 1-2-3,
      over its own four corners. */
  lemma FaceIndices(face: nat)
    requires face < 6
    ensures var ix, base := BoxIndices(), 4 * face;
            ix[6 * face] as nat == base && ix[6 * face + 1] as nat == base + 2
            && ix[6 * face + 2] as nat == base + 1 && ix[6 * face + 3] as nat == base + 1
            && ix[6 * face + 4] as nat == base + 2 && ix[6 * face + 5] as nat == base + 3
  {
    FlattenChunk(IndexChunks(), 6, face);
    var ix, e := BoxIndices(), FaceIndexEntries(face);
    var k := 6 * face;
    assert ix[k..k + 6] == e;
    assert ix[k] == e[0] && ix[k + 1] == e[1] && ix[k + 2] == e[2];
    assert ix[k + 3] == e[3] && ix[k + 4] == e[4] && ix[k + 5] == e[5];
  }


  /** The two triangles of each face turn counter-clockwise around that
      face's normal, for a box of any positive size. */
  lemma FaceWinding(face: nat, width: real, height: real, depth: real)
    requires face < 6 && width > 0.0 && height > 0.0 && depth > 0.0
    ensures FacesNormal(BoxPositions(width, height, depth), BoxNormals(), BoxIndices(), 2 * face)
    ensures FacesNormal(BoxPositions(width, height, depth), BoxNormals(), BoxIndices(), 2 * face + 1)
  {
    FaceIndices(face);
    FaceVertices(face, width, height, depth);
    CornersWound(face, width, height, depth);
    QuadFaces(BoxPositions(width, height, depth), BoxNormals(), BoxIndices(), face,
              Corner(face, 0, width, height, depth), Corner(face, 1, width, height, depth),
              Corner(face, 2, width, height, depth), Corner(face, 3, width, height, depth), Face(face).normal);
  }

  /** The four vertices of `face` in the box buffers, and the normal at the
      first two. */
  lemma FaceVertices(face: nat, width: real, height: real, depth: real)
    requires face < 6
    ensures var p, v := BoxPositions(width, height, depth), 4 * face;
            Vertex(p, v) == Corner(face, 0, width, height, depth) && Vertex(p, v + 1) == Corner(face, 1, width, height, depth)
            && Vertex(p, v + 2) == Corner(face, 2, width, height, depth) && Vertex(p, v + 3) == Corner(face, 3, width, height, depth)
    ensures Vertex(BoxNormals(), 4 * face) == Face(face).normal && Vertex(BoxNormals(), 4 * face + 1) == Face(face).normal
  {
    BoxVertex(face, 0, width, height, depth);
    BoxVertex(face, 1, width, height, depth);
    BoxVertex(face, 2, width, height, depth);
    BoxVertex(face, 3, width, height, depth);
  }

  /** Four corners taken 0-2-1 and 1-2-3 turn counter-clockwise around
      `normal`. */
  predicate QuadWound(c0: Triple, c1: Triple, c2: Triple, c3: Triple, normal: Triple)
  {
    Dot(Cross(Minus(c2, c0), Minus(c1, c0)), normal) > 0.0
    && Dot(Cross(Minus(c2, c1), Minus(c3, c1)), normal) > 0.0
  }

  /** The corners of each face of a box of positive size, taken 0-2-1 and
      1-2-3, turn counter-clockwise around the face normal. */
  lemma CornersWound(face: nat, width: real, height: real, depth: real)
    requires face < 6 && width > 0.0 && height > 0.0 && depth > 0.0
    ensures QuadWound(Corner(face, 0, width, height, depth), Corner(face, 1, width, height, depth),
                      Corner(face, 2, width, height, depth), Corner(face, 3, width, height, depth), Face(face).normal)
  {
    var u0, u1, u2, u3 := UnitCorner(face, 0), UnitCorner(face, 1), UnitCorner(face, 2), UnitCorner(face, 3);
    UnitFaceWinding(face);
    StretchedWinding(u0, u2, u1, Face(face).normal, width, height, depth);
    StretchedWinding(u1, u2, u3, Face(face).normal, width, height, depth);
  }

  /** Both triangles of a quad face `face`, once its corners, its normal and
      its index entries are known. */
  lemma QuadFaces(positions: seq<real>, normals: seq<real>, indices: seq<u16>, face: nat,
                  c0: Triple, c1: Triple, c2: Triple, c3: Triple, normal: Triple)
    requires 6 * face + 6 <= |indices| && 12 * face + 12 <= |positions| && 12 * face + 12 <= |normals|
    requires indices[6 * face] as nat == 4 * face && indices[6 * face + 1] as nat == 4 * face + 2
    requires indices[6 * face + 2] as nat == 4 * face + 1 && indices[6 * face + 3] as nat == 4 * face + 1
    requires indices[6 * face + 4] as nat == 4 * face + 2 && indices[6 * face + 5] as nat == 4 * face + 3
    requires Vertex(positions, 4 * face) == c0 && Vertex(positions, 4 * face + 1) == c1
    requires Vertex(positions, 4 * face + 2) == c2 && Vertex(positions, 4 * face + 3) == c3
    requires Vertex(normals, 4 * face) == normal && Vertex(normals, 4 * face + 1) == normal
    requires QuadWound(c0, c1, c2, c3, normal)
    ensures FacesNormal(positions, normals, indices, 2 * face)
    ensures FacesNormal(positions, normals, indices, 2 * face + 1)
  {
    var base := 4 * face;
    assert 3 * (2 * face) == 6 * face && 3 * (2 * face + 1) == 6 * face + 3;
    TriangleFaces(positions, normals, indices, 2 * face, base, base + 2, base + 1);
    TriangleFaces(positions, normals, indices, 2 * face + 1, base + 1, base + 2, base + 3);
  }

  /** `FacesNormal` for a triangle whose three vertex numbers are known. */
  lemma TriangleFaces(positions: seq<real>, normals: seq<real>, indices: seq<u16>, t: nat, a: nat, b: nat, c: nat)
    requires 3 * t + 3 <= |indices|
    requires indices[3 * t] as nat == a && indices[3 * t + 1] as nat == b && indices[3 * t + 2] as nat == c
    requires 3 * a + 3 <= |positions| && 3 * b + 3 <= |positions| && 3 * c + 3 <= |positions| && 3 * a + 3 <= |normals|
    requires Dot(Cross(Minus(Vertex(positions, b), Vertex(positions, a)), Minus(Vertex(positions, c), Vertex(positions, a))),
                 Vertex(normals, a)) > 0.0
    ensures FacesNormal(positions, normals, indices, t)
  {
  }

  lemma PositiveProducts(width: real, height: real, depth: real)
    requires width > 0.0 && height > 0.0 && depth > 0.0
    ensures width * height > 0.0 && height * depth > 0.0 && width * depth > 0.0
  {
  }

  /** All twelve triangles of the box turn counter-clockwise around their
      face normals, for a box of any positive size. */
  lemma BoxWinding(width: real, height: real, depth: real)
    requires width > 0.0 && height > 0.0 && depth > 0.0
    ensures WoundOutward(BoxPositions(width, height, depth), BoxNormals(), BoxIndices())
  {
    forall k | 0 <= k < 36
      ensures 3 * (BoxIndices()[k] as nat) + 3 <= 72
    {
      var face := k / 6;
      FaceIndices(face);
      assert 6 * face <= k < 6 * face + 6;
    }
    forall t | 0 <= t < 12
      ensures FacesNormal(BoxPositions(width, height, depth), BoxNormals(), BoxIndices(), t)
    {
      var face := t / 2;
      FaceWinding(face, width, height, depth);
      assert t == 2 * face || t == 2 * face + 1;
    }
  }

  // ---------------------------------------------------------- registration

  /** The closing lines of every builder: the three attribute buffers and
      the index buffer go into their pools, a new geometry refers to them by
      the handles those adds return, and the geometry goes into its pool. */
  method AddGeometry(pools: ResourcePools, positions: seq<real>, normals: seq<real>, uvs: seq<real>, indices: seq<u16>)
    returns (gid: ResourceId<PooledGeometry>)
    requires pools.Valid()
    modifies pools.AttributeStore(), pools.IndexStore(), pools.GeometryStore()
    ensures pools.AttributeStore().resources == old(pools.AttributeStore().resources)
              + [Attributes.NewAttribute(positions, 3), Attributes.NewAttribute(normals, 3), Attributes.NewAttribute(uvs, 2)]
    ensures pools.IndexStore().resources == old(pools.IndexStore().resources) + [GeometryIndices.NewIndex(indices)]
    ensures gid.id == old(|pools.GeometryStore().resources|)
    ensures |pools.GeometryStore().resources| == gid.id + 1
    ensures pools.GeometryStore().resources[..gid.id] == old(pools.GeometryStore().resources)
    ensures fresh(pools.GeometryStore().resources[gid.id])
    ensures pools.GeometryStore().resources[gid.id].index == Some(ResourceId(old(|pools.IndexStore().resources|)))
    ensures pools.GeometryStore().resources[gid.id].attributes
            == map["position" := ResourceId(old(|pools.AttributeStore().resources|)),
                   "normal" := ResourceId(old(|pools.AttributeStore().resources|) + 1),
                   "uv" := ResourceId(old(|pools.AttributeStore().resources|) + 2)]
  {
    gid := Register(pools.AttributeStore(), pools.IndexStore(), pools.GeometryStore(), positions, normals, uvs, indices);
  }

  /** `AddGeometry` on the three pools themselves. */
  method Register(attributeStore: ResourcePool<Attributes.Attribute>, indexStore: ResourcePool<GeometryIndices.Index>,
                  geometryStore: ResourcePool<PooledGeometry>,
                  positions: seq<real>, normals: seq<real>, uvs: seq<real>, indices: seq<u16>)
    returns (gid: ResourceId<PooledGeometry>)
    modifies attributeStore, indexStore, geometryStore
    ensures attributeStore.resources == old(attributeStore.resources)
              + [Attributes.NewAttribute(positions, 3), Attributes.NewAttribute(normals, 3), Attributes.NewAttribute(uvs, 2)]
    ensures indexStore.resources == old(indexStore.resources) + [GeometryIndices.NewIndex(indices)]
    ensures gid.id == old(|geometryStore.resources|)
    ensures |geometryStore.resources| == gid.id + 1 && geometryStore.resources[..gid.id] == old(geometryStore.resources)
    ensures fresh(geometryStore.resources[gid.id])
    ensures geometryStore.resources[gid.id].index == Some(ResourceId(old(|indexStore.resources|)))
    ensures geometryStore.resources[gid.id].attributes
            == map["position" := ResourceId(old(|attributeStore.resources|)),
                   "normal" := ResourceId(old(|attributeStore.resources|) + 1),
                   "uv" := ResourceId(old(|attributeStore.resources|) + 2)]
  {
    var geometry := new Geometries.Geometry<ResourceId<Attributes.Attribute>, ResourceId<GeometryIndices.Index>>();
    AddAttributes(attributeStore, geometry, positions, normals, uvs);
    var index := indexStore.Add(GeometryIndices.NewIndex(indices));
    geometry.SetIndex(index);
    gid := geometryStore.Add(geometry);
  }

  /** The three attribute buffers go into their pool, each handle under its
      name in the new geometry. */
  method AddAttributes(attributeStore: ResourcePool<Attributes.Attribute>,
                       geometry: Geometries.Geometry<ResourceId<Attributes.Attribute>, ResourceId<GeometryIndices.Index>>,
                       positions: seq<real>, normals: seq<real>, uvs: seq<real>)
    modifies attributeStore, geometry
    ensures attributeStore.resources == old(attributeStore.resources)
              + [Attributes.NewAttribute(positions, 3), Attributes.NewAttribute(normals, 3), Attributes.NewAttribute(uvs, 2)]
    ensures geometry.attributes == old(geometry.attributes)["position" := ResourceId(old(|attributeStore.resources|))]
              ["normal" := ResourceId(old(|attributeStore.resources|) + 1)]["uv" := ResourceId(old(|attributeStore.resources|) + 2)]
    ensures geometry.index == old(geometry.index)
  {
    var position := attributeStore.Add(Attributes.NewAttribute(positions, 3));
    geometry.SetAttribute("position", position);
    var normal := attributeStore.Add(Attributes.NewAttribute(normals, 3));
    geometry.SetAttribute("normal", normal);
    var uv := attributeStore.Add(Attributes.NewAttribute(uvs, 2));
    assert attributeStore.resources == old(attributeStore.resources)
              + [Attributes.NewAttribute(positions, 3), Attributes.NewAttribute(normals, 3), Attributes.NewAttribute(uvs, 2)];
    geometry.SetAttribute("uv", uv);
  }

  /** `create_triangle`; `root` stands for `0.75_f32.sqrt()`. */
  method CreateTriangle(pools: ResourcePools, width: real, height: real, root: real)
    returns (gid: ResourceId<PooledGeometry>)
    requires pools.Valid()
    modifies pools.AttributeStore(), pools.IndexStore(), pools.GeometryStore()
    ensures pools.AttributeStore().resources == old(pools.AttributeStore().resources)
              + [Attributes.NewAttribute(TrianglePositions(width, height, root), 3),
                 Attributes.NewAttribute(TriangleNormals, 3), Attributes.NewAttribute(TriangleUvs, 2)]
    ensures pools.IndexStore().resources == old(pools.IndexStore().resources) + [GeometryIndices.NewIndex(TriangleIndices)]
    ensures gid.id == old(|pools.GeometryStore().resources|)
    ensures |pools.GeometryStore().resources| == gid.id + 1
    ensures pools.GeometryStore().resources[..gid.id] == old(pools.GeometryStore().resources)
    ensures var g := pools.GeometryStore().resources[gid.id];
            var a := old(|pools.AttributeStore().resources|);
            fresh(g)
            && g.attributes == map["position" := ResourceId(a), "normal" := ResourceId(a + 1), "uv" := ResourceId(a + 2)]
            && g.index == Some(ResourceId(old(|pools.IndexStore().resources|)))
  {
    gid := AddGeometry(pools, TrianglePositions(width, height, root), TriangleNormals, TriangleUvs, TriangleIndices);
  }

  /** `create_plane`. */
  method CreatePlane(pools: ResourcePools, width: real, height: real)
    returns (gid: ResourceId<PooledGeometry>)
    requires pools.Valid()
    modifies pools.AttributeStore(), pools.IndexStore(), pools.GeometryStore()
    ensures pools.AttributeStore().resources == old(pools.AttributeStore().resources)
              + [Attributes.NewAttribute(PlanePositions(width, height), 3),
                 Attributes.NewAttribute(PlaneNormals, 3), Attributes.NewAttribute(QuadUvs, 2)]
    ensures pools.IndexStore().resources == old(pools.IndexStore().resources) + [GeometryIndices.NewIndex(PlaneIndices())]
    ensures gid.id == old(|pools.GeometryStore().resources|)
    ensures |pools.GeometryStore().resources| == gid.id + 1
    ensures pools.GeometryStore().resources[..gid.id] == old(pools.GeometryStore().resources)
    ensures var g := pools.GeometryStore().resources[gid.id];
            var a := old(|pools.AttributeStore().resources|);
            fresh(g)
            && g.attributes == map["position" := ResourceId(a), "normal" := ResourceId(a + 1), "uv" := ResourceId(a + 2)]
            && g.index == Some(ResourceId(old(|pools.IndexStore().resources|)))
  {
    gid := AddGeometry(pools, PlanePositions(width, height), PlaneNormals, QuadUvs, PlaneIndices());
  }

  /** `create_box`: the buffers its loops fill, registered like the others. */
  method CreateBox(pools: ResourcePools, width: real, height: real, depth: real)
    returns (gid: ResourceId<PooledGeometry>)
    requires pools.Valid()
    modifies pools.AttributeStore(), pools.IndexStore(), pools.GeometryStore()
    ensures pools.AttributeStore().resources == old(pools.AttributeStore().resources)
              + [Attributes.NewAttribute(BoxPositions(width, height, depth), 3),
                 Attributes.NewAttribute(BoxNormals(), 3), Attributes.NewAttribute(BoxUvs(), 2)]
    ensures pools.IndexStore().resources == old(pools.IndexStore().resources) + [GeometryIndices.NewIndex(BoxIndices())]
    ensures gid.id == old(|pools.GeometryStore().resources|)
    ensures |pools.GeometryStore().resources| == gid.id + 1
    ensures pools.GeometryStore().resources[..gid.id] == old(pools.GeometryStore().resources)
    ensures var g := pools.GeometryStore().resources[gid.id];
            var a := old(|pools.AttributeStore().resources|);
            fresh(g)
            && g.attributes == map["position" := ResourceId(a), "normal" := ResourceId(a + 1), "uv" := ResourceId(a + 2)]
            && g.index == Some(ResourceId(old(|pools.IndexStore().resources|)))
  {
    var positions, normals, uvs, indices := BoxBuffers(width, height, depth);
    gid := AddGeometry(pools, positions, normals, uvs, indices);
  }
}
