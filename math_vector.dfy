/** src/math/vector3.rs: three-component vectors held in `[f32; 3]` arrays and
    updated in place. `f32` is modelled as `real`. */
module Vector3 {

  const ElementNum: nat := 3

  /** The component-wise sum the in-place `add` leaves behind. */
  function Added(v: seq<real>, w: seq<real>): (r: seq<real>)
    requires |v| == ElementNum && |w| == ElementNum
    ensures |r| == ElementNum
    ensures forall i | 0 <= i < ElementNum :: r[i] - w[i] == v[i]
  {
    [v[0] + w[0], v[1] + w[1], v[2] + w[2]]
  }

  /** The component-wise difference the in-place `sub` leaves behind. */
  function Subtracted(v: seq<real>, w: seq<real>): (r: seq<real>)
    requires |v| == ElementNum && |w| == ElementNum
    ensures |r| == ElementNum
    ensures forall i | 0 <= i < ElementNum :: r[i] + w[i] == v[i]
  {
    [v[0] - w[0], v[1] - w[1], v[2] - w[2]]
  }

  /** Over the reals, subtracting what was added restores the vector. */
  lemma SubUndoesAdd(v: seq<real>, w: seq<real>)
    requires |v| == ElementNum && |w| == ElementNum
    ensures Subtracted(Added(v, w), w) == v
  {
  }

  /** Adding the zero vector changes nothing. */
  lemma AddZero(v: seq<real>)
    requires |v| == ElementNum
    ensures Added(v, [0.0, 0.0, 0.0]) == v
  {
  }

  method Create() returns (v: array<real>)
    ensures fresh(v)
    ensures v[..] == [0.0, 0.0, 0.0]
  {
    v := new real[ElementNum](_ => 0.0);
  }

  method Set(v: array<real>, x: real, y: real, z: real)
    requires v.Length == ElementNum
    modifies v
    ensures v[..] == [x, y, z]
  {
    v[0] := x;
    v[1] := y;
    v[2] := z;
  }

  method Add(v: array<real>, v2: array<real>)
    requires v.Length == ElementNum && v2.Length == ElementNum
    requires v != v2
    modifies v
    ensures v[..] == Added(old(v[..]), v2[..])
    ensures v2[..] == old(v2[..])
  {
    for i := 0 to ElementNum
      invariant forall k | 0 <= k < i :: v[k] == old(v[k]) + v2[k]
      invariant forall k | i <= k < ElementNum :: v[k] == old(v[k])
    {
      v[i] := v[i] + v2[i];
    }
  }

  method Sub(v: array<real>, v2: array<real>)
    requires v.Length == ElementNum && v2.Length == ElementNum
    requires v != v2
    modifies v
    ensures v[..] == Subtracted(old(v[..]), v2[..])
    ensures v2[..] == old(v2[..])
  {
    for i := 0 to ElementNum
      invariant forall k | 0 <= k < i :: v[k] == old(v[k]) - v2[k]
      invariant forall k | i <= k < ElementNum :: v[k] == old(v[k])
    {
      v[i] := v[i] - v2[i];
    }
  }
}

/** src/math/color.rs: RGB colours held in `[f32; 3]` arrays. */
module Color {

  const ElementNum: nat := 3

  method Create() returns (c: array<real>)
    ensures fresh(c)
    ensures c[..] == [0.0, 0.0, 0.0]
  {
    c := new real[ElementNum](_ => 0.0);
  }

  method Set(c: array<real>, r: real, g: real, b: real)
    requires c.Length == ElementNum
    modifies c
    ensures c[..] == [r, g, b]
  {
    c[0] := r;
    c[1] := g;
    c[2] := b;
  }

  /** Element-wise copy of `c2` into `c`; the source is left alone. */
  method Copy(c: array<real>, c2: array<real>)
    requires c.Length == ElementNum && c2.Length == ElementNum
    requires c != c2
    modifies c
    ensures c[..] == c2[..]
    ensures c2[..] == old(c2[..])
  {
    for i := 0 to ElementNum
      invariant forall k | 0 <= k < i :: c[k] == c2[k]
    {
      c[i] := c2[i];
    }
  }
}
