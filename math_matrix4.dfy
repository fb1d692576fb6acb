/** src/math/matrix4.rs: 4x4 matrices stored column-major in `[f32; 16]`
    arrays (entries 4j..4j+3 are column j, entries 12..14 the translation). */
module Matrix4 {
  import opened Numeric

  const ElementNum: nat := 16

  /** The identity: ones on the diagonal slots 0, 5, 10, 15. */
  function IdentityElements(): (e: seq<real>)
    ensures |e| == ElementNum
    ensures forall i | 0 <= i < ElementNum :: e[i] == if i % 5 == 0 then 1.0 else 0.0
  {
    [1.0, 0.0, 0.0, 0.0,
     0.0, 1.0, 0.0, 0.0,
     0.0, 0.0, 1.0, 0.0,
     0.0, 0.0, 0.0, 1.0]
  }

  /** The unscaled rotation block of a quaternion (x, y, z, w), column by
      column: entry 3j+i is row i of column j. */
  function RotationElements(quaternion: seq<real>): (r: seq<real>)
    requires |quaternion| == 4
    ensures |r| == 9
  {
    var x, y, z, w := quaternion[0], quaternion[1], quaternion[2], quaternion[3];
    var x2, y2, z2 := x + x, y + y, z + z;
    var xx, xy, xz := x * x2, x * y2, x * z2;
    var yy, yz, zz := y * y2, y * z2, z * z2;
    var wx, wy, wz := w * x2, w * y2, w * z2;
    [1.0 - (yy + zz), xy + wz, xz - wy,
     xy - wz, 1.0 - (xx + zz), yz + wx,
     xz + wy, yz - wx, 1.0 - (xx + yy)]
  }

  /** The local matrix of a translation, a rotation quaternion and a scale:
      the last row is (0, 0, 0, 1) and the last column holds the position. */
  function ComposeElements(position: seq<real>, quaternion: seq<real>, scale: seq<real>): (m: seq<real>)
    requires |position| == 3 && |quaternion| == 4 && |scale| == 3
    ensures |m| == ElementNum
    ensures m[3] == 0.0 && m[7] == 0.0 && m[11] == 0.0 && m[15] == 1.0
    ensures m[12..15] == position
  {
    Assemble(RotationElements(quaternion), scale, position)
  }

  /** Lays out a 3x3 block, scaling its column j by scale[j], with the
      position in the last column and (0, 0, 0, 1) as the last row. */
  function Assemble(r: seq<real>, scale: seq<real>, position: seq<real>): (m: seq<real>)
    requires |r| == 9 && |scale| == 3 && |position| == 3
    ensures |m| == 16
  {
    var sx, sy, sz := scale[0], scale[1], scale[2];
    [Scaled(r[0], sx), Scaled(r[1], sx), Scaled(r[2], sx), 0.0,
     Scaled(r[3], sy), Scaled(r[4], sy), Scaled(r[5], sy), 0.0,
     Scaled(r[6], sz), Scaled(r[7], sz), Scaled(r[8], sz), 0.0,
     position[0], position[1], position[2], 1.0]
  }

  /** With the identity rotation (0, 0, 0, 1) and unit scale the upper-left
      3x3 block is the identity, so the result is a pure translation. */
  lemma ComposeIdentityRotation(position: seq<real>)
    requires |position| == 3
    ensures var m := ComposeElements(position, [0.0, 0.0, 0.0, 1.0], [1.0, 1.0, 1.0]);
            m[..12] == IdentityElements()[..12]
  {
  }

  /** The rest pose (no translation, the identity quaternion, unit scale)
      composes to the identity matrix, which is what a new node or object
      starts with. */
  lemma ComposeRestPose()
    ensures ComposeElements([0.0, 0.0, 0.0], [0.0, 0.0, 0.0, 1.0], [1.0, 1.0, 1.0]) == IdentityElements()
  {
    var m := ComposeElements([0.0, 0.0, 0.0], [0.0, 0.0, 0.0, 1.0], [1.0, 1.0, 1.0]);
    ComposeIdentityRotation([0.0, 0.0, 0.0]);
    assert m[..12] == IdentityElements()[..12];
    assert m[12..15] == [0.0, 0.0, 0.0];
    assert forall i | 0 <= i < 12 :: m[i] == m[..12][i];
    assert forall i | 12 <= i < 15 :: m[i] == m[12..15][i - 12];
  }

  /** Column j of the upper 3x3 block is the rotation's column j scaled by
      scale[j], and nothing else: the scale acts linearly, column by column. */
  lemma ComposeScalesColumns(position: seq<real>, quaternion: seq<real>, scale: seq<real>, j: nat, i: nat)
    requires |position| == 3 && |quaternion| == 4 && |scale| == 3
    requires j < 3 && i < 3
    ensures ComposeElements(position, quaternion, scale)[4 * j + i]
         == Scaled(RotationElements(quaternion)[3 * j + i], scale[j])
  {
    var r := RotationElements(quaternion);
    var m := Assemble(r, scale, position);
    assert m == ComposeElements(position, quaternion, scale);
    if j == 0 {
      assert 4 * j + i == i && 3 * j + i == i;
    } else if j == 1 {
      assert 4 * j + i == 4 + i && 3 * j + i == 3 + i;
    } else {
      assert 4 * j + i == 8 + i && 3 * j + i == 6 + i;
    }
  }

  method Create() returns (m: array<real>)
    ensures fresh(m)
    ensures m[..] == IdentityElements()
  {
    m := new real[ElementNum](_ => 0.0);
    Identity(m);
  }

  method Identity(m: array<real>)
    requires m.Length == ElementNum
    modifies m
    ensures m[..] == IdentityElements()
  {
    m[0] := 1.0;  m[1] := 0.0;  m[2] := 0.0;  m[3] := 0.0;
    m[4] := 0.0;  m[5] := 1.0;  m[6] := 0.0;  m[7] := 0.0;
    m[8] := 0.0;  m[9] := 0.0;  m[10] := 1.0; m[11] := 0.0;
    m[12] := 0.0; m[13] := 0.0; m[14] := 0.0; m[15] := 1.0;
    SameEntries(m[..], IdentityElements());
  }

  /** Overwrites all sixteen entries, so the old contents of `m` do not
      matter. The rotation block is computed once from the quaternion's
      doubled products and then written scaled, column by column. The three
      inputs are shared borrows, hence distinct from `m`. */
  method Compose(m: array<real>, position: array<real>, quaternion: array<real>, scale: array<real>)
    requires m.Length == ElementNum && position.Length == 3 && quaternion.Length == 4 && scale.Length == 3
    requires m != position && m != quaternion && m != scale
    modifies m
    ensures m[..] == ComposeElements(position[..], quaternion[..], scale[..])
  {
    var r := RotationElements(quaternion[..]);
    WriteScaledBlock(m, r, scale[..], position[..]);
  }

  /** The stores of `compose`: column j of the block `r` scaled by scale[j],
      then the last row and the translation column. */
  method WriteScaledBlock(m: array<real>, r: seq<real>, scale: seq<real>, position: seq<real>)
    requires m.Length == ElementNum && |r| == 9 && |scale| == 3 && |position| == 3
    modifies m
    ensures m[..] == Assemble(r, scale, position)
  {
    var entries := Assemble(r, scale, position);
    forall k | 0 <= k < ElementNum {
      m[k] := entries[k];
    }
  }

  /** Two sixteen-entry sequences that agree entry by entry are equal. */
  lemma SameEntries(s: seq<real>, t: seq<real>)
    requires |s| == ElementNum && |t| == ElementNum
    requires s[0] == t[0] && s[1] == t[1] && s[2] == t[2] && s[3] == t[3]
    requires s[4] == t[4] && s[5] == t[5] && s[6] == t[6] && s[7] == t[7]
    requires s[8] == t[8] && s[9] == t[9] && s[10] == t[10] && s[11] == t[11]
    requires s[12] == t[12] && s[13] == t[13] && s[14] == t[14] && s[15] == t[15]
    ensures s == t
  {
    forall k | 0 <= k < ElementNum
      ensures s[k] == t[k]
    {
      if k < 4 {
        assert k == 0 || k == 1 || k == 2 || k == 3;
      } else if k < 8 {
        assert k == 4 || k == 5 || k == 6 || k == 7;
      } else if k < 12 {
        assert k == 8 || k == 9 || k == 10 || k == 11;
      } else {
        assert k == 12 || k == 13 || k == 14 || k == 15;
      }
    }
  }
}
