/** src/scene/object.rs: an entry of the scene graph. Nothing updates an
    object after `Object::new`, so it is a value; each getter is the field
    selector of the same name. */
module SceneObjects {
  import opened Wrappers
  import Matrix4

  datatype Object = Object(
    childrenIds: seq<nat>,
    id: nat,
    matrix: seq<real>,
    parentId: Option<nat>,
    position: seq<real>,
    quaternion: seq<real>,
    rotation: seq<real>,
    scale: seq<real>)

  /** `Object::new`: the given id, no parent, no children, the rest pose
      and the identity matrix. */
  function NewObject(id: nat): (o: Object)
    ensures o.id == id
    ensures o.parentId == None && o.childrenIds == []
    ensures o.matrix == Matrix4.IdentityElements()
    ensures o.position == [0.0, 0.0, 0.0] && o.rotation == [0.0, 0.0, 0.0]
    ensures o.quaternion == [0.0, 0.0, 0.0, 1.0] && o.scale == [1.0, 1.0, 1.0]
  {
    Object([], id, Matrix4.IdentityElements(), None,
           [0.0, 0.0, 0.0], [0.0, 0.0, 0.0, 1.0], [0.0, 0.0, 0.0], [1.0, 1.0, 1.0])
  }

  /** A new object's matrix agrees with its own position, quaternion and
      scale: it is what `compose` makes of them. */
  lemma NewObjectMatrixIsComposed(id: nat)
    ensures var o := NewObject(id);
            o.matrix == Matrix4.ComposeElements(o.position, o.quaternion, o.scale)
  {
    Matrix4.ComposeRestPose();
  }

  /** Objects are told apart by their id alone. */
  lemma NewObjectInjective(a: nat, b: nat)
    ensures NewObject(a) == NewObject(b) <==> a == b
  {
    if NewObject(a) == NewObject(b) {
      assert NewObject(a).id == NewObject(b).id;
    }
  }
}

/** src/scene/index.rs: scene-side index buffers, each tagged with an id
    handed out by an `IndexManager`. */
module SceneIndices {
  import opened Numeric

  /** Only `IndexManager::create` makes an `Index`; there are no mutators. */
  datatype Index = Index(count: nat, data: seq<u16>, id: nat)

  /** `Index::new`: the count is the data length as a `u32`. */
  function NewIndex(id: nat, data: seq<u16>): (i: Index)
    ensures i.id == id && i.data == data
    ensures i.count < U32_LIMIT
    ensures |data| < U32_LIMIT ==> i.count == |data|
  {
    Index(AsU32(|data|), data, id)
  }

  class IndexManager {
    var count: nat

    constructor ()
      ensures count == 0
    {
      count := 0;
    }

    /** Tags the new index with the current count, then advances it. */
    method Create(data: seq<u16>) returns (index: Index)
      modifies this
      ensures index == NewIndex(old(count), data)
      ensures count == old(count) + 1
    {
      index := NewIndex(count, data);
      count := count + 1;
    }
  }

  /** A fresh manager hands out ids 0, 1 and 2, in that order, each index
      keeping the data it was given. */
  method FreshManagerIds(d0: seq<u16>, d1: seq<u16>, d2: seq<u16>) returns (i0: Index, i1: Index, i2: Index)
    ensures i0.id == 0 && i1.id == 1 && i2.id == 2
    ensures i0.data == d0 && i1.data == d1 && i2.data == d2
  {
    var manager := new IndexManager();
    i0 := manager.Create(d0);
    i1 := manager.Create(d1);
    i2 := manager.Create(d2);
  }
}

/** src/scene/node.rs: a transform node. Its five `f32` arrays are fixed
    fields updated in place, so they are arrays owned by the node. The
    trigonometry behind `Quaternion::set_from_euler`,
    `Euler::set_from_quaternion` and `Matrix4::decompose` is not part of
    this model: those are passed in as functions. */
module SceneNodes {
  import opened Wrappers
  import Matrix4
  import Vector3

  /** A unit quaternion (x, y, z, w) and an Euler rotation (x, y, z). */
  type Quaternion = (real, real, real, real)
  type Euler = (real, real, real)

  /** What `Matrix4::decompose` writes back: position, quaternion, scale. */
  datatype Transform = Transform(position: (real, real, real), quaternion: Quaternion, scale: (real, real, real))

  function QuaternionElements(q: Quaternion): (s: seq<real>)
    ensures |s| == 4
  {
    [q.0, q.1, q.2, q.3]
  }

  function TripleElements(t: (real, real, real)): (s: seq<real>)
    ensures |s| == 3
  {
    [t.0, t.1, t.2]
  }

  function EulerOf(rotation: seq<real>): Euler
    requires |rotation| == 3
  {
    (rotation[0], rotation[1], rotation[2])
  }

  function QuaternionOf(quaternion: seq<real>): Quaternion
    requires |quaternion| == 4
  {
    (quaternion[0], quaternion[1], quaternion[2], quaternion[3])
  }

  /** The matrix `update_matrix` computes from a node's position, rotation
      and scale, given the Euler-to-quaternion conversion. */
  function UpdatedMatrix(position: seq<real>, rotation: seq<real>, scale: seq<real>,
                         fromEuler: Euler -> Quaternion): (m: seq<real>)
    requires |position| == 3 && |rotation| == 3 && |scale| == 3
    ensures |m| == Matrix4.ElementNum
    ensures m[12..15] == position
    ensures m[3] == 0.0 && m[7] == 0.0 && m[11] == 0.0 && m[15] == 1.0
  {
    Matrix4.ComposeElements(position, QuaternionElements(fromEuler(EulerOf(rotation))), scale)
  }

  /** `Quaternion::create`: the identity rotation. */
  method CreateQuaternion() returns (q: array<real>)
    ensures fresh(q)
    ensures q[..] == [0.0, 0.0, 0.0, 1.0]
  {
    q := new real[4];
    q[0], q[1], q[2], q[3] := 0.0, 0.0, 0.0, 1.0;
  }

  /** `Euler::create`: no rotation about any axis. */
  method CreateEuler() returns (e: array<real>)
    ensures fresh(e)
    ensures e[..] == [0.0, 0.0, 0.0]
  {
    e := new real[3];
    e[0], e[1], e[2] := 0.0, 0.0, 0.0;
  }

  class Node {
    var childrenIds: seq<nat>
    const matrix: array<real>
    var parentId: Option<nat>
    const position: array<real>
    const quaternion: array<real>
    const rotation: array<real>
    const scale: array<real>

    /** The five arrays have their fixed sizes and are separate fields. */
    ghost predicate Valid()
      reads this
    {
      && matrix.Length == Matrix4.ElementNum
      && position.Length == 3 && quaternion.Length == 4
      && rotation.Length == 3 && scale.Length == 3
      && matrix != position && matrix != quaternion && matrix != rotation && matrix != scale
      && position != quaternion && position != rotation && position != scale
      && quaternion != rotation && quaternion != scale
      && rotation != scale
    }

    /** `Node::new`: identity matrix, no parent or children, zero position
        and rotation, the identity quaternion and unit scale. */
    constructor ()
      ensures Valid()
      ensures fresh(matrix) && fresh(position) && fresh(quaternion) && fresh(rotation) && fresh(scale)
      ensures childrenIds == [] && parentId == None
      ensures matrix[..] == Matrix4.IdentityElements()
      ensures position[..] == [0.0, 0.0, 0.0] && rotation[..] == [0.0, 0.0, 0.0]
      ensures quaternion[..] == [0.0, 0.0, 0.0, 1.0] && scale[..] == [1.0, 1.0, 1.0]
    {
      childrenIds := [];
      var m := Matrix4.Create();
      matrix := m;
      parentId := None;
      var p := Vector3.Create();
      position := p;
      var q := CreateQuaternion();
      quaternion := q;
      var r := CreateEuler();
      rotation := r;
      var s := Vector3.Create();
      Vector3.Set(s, 1.0, 1.0, 1.0);
      scale := s;
    }

    /** The matrix agrees with position, quaternion and scale. */
    ghost predicate Composed()
      requires Valid()
      reads this, matrix, position, quaternion, scale
    {
      matrix[..] == Matrix4.ComposeElements(position[..], quaternion[..], scale[..])
    }

    /** `borrow_position_mut` (and the same for rotation and scale): the
        array handed out is that field and no other, so a write through it
        cannot reach the other fields. */
    function BorrowPositionMut(): (a: array<real>)
      requires Valid()
      reads this
      ensures a == position && a.Length == 3
      ensures a != matrix && a != quaternion && a != rotation && a != scale
    {
      position
    }

    function BorrowRotationMut(): (a: array<real>)
      requires Valid()
      reads this
      ensures a == rotation && a.Length == 3
      ensures a != matrix && a != quaternion && a != position && a != scale
    {
      rotation
    }

    function BorrowScaleMut(): (a: array<real>)
      requires Valid()
      reads this
      ensures a == scale && a.Length == 3
      ensures a != matrix && a != quaternion && a != position && a != rotation
    {
      scale
    }

    /** Recomputes the quaternion from the rotation, then the matrix from
        position, quaternion and scale. Only those two arrays change. */
    method UpdateMatrix(fromEuler: Euler -> Quaternion)
      requires Valid()
      modifies quaternion, matrix
      ensures quaternion[..] == QuaternionElements(fromEuler(EulerOf(rotation[..])))
      ensures matrix[..] == UpdatedMatrix(position[..], rotation[..], scale[..], fromEuler)
      ensures Composed()
      ensures position[..] == old(position[..]) && rotation[..] == old(rotation[..])
      ensures scale[..] == old(scale[..])
      ensures childrenIds == old(childrenIds) && parentId == old(parentId)
    {
      var q := fromEuler(EulerOf(rotation[..]));
      quaternion[0], quaternion[1], quaternion[2], quaternion[3] := q.0, q.1, q.2, q.3;
      assert quaternion[..] == QuaternionElements(q);
      Matrix4.Compose(matrix, position, quaternion, scale);
    }

    /** Copies `m` into the matrix, then rederives position, quaternion and
        scale from it and the rotation from the quaternion. The argument is
        a shared borrow, so it is none of the node's own arrays. */
    method SetMatrix(m: array<real>, decompose: seq<real> -> Transform, toEuler: Quaternion -> Euler)
      requires Valid()
      requires m.Length == Matrix4.ElementNum
      requires m != matrix && m != position && m != quaternion && m != rotation && m != scale
      modifies matrix, position, quaternion, rotation, scale
      ensures matrix[..] == old(m[..])
      ensures var t := decompose(old(m[..]));
              && position[..] == TripleElements(t.position)
              && quaternion[..] == QuaternionElements(t.quaternion)
              && scale[..] == TripleElements(t.scale)
              && rotation[..] == TripleElements(toEuler(t.quaternion))
      ensures m[..] == old(m[..])
      ensures childrenIds == old(childrenIds) && parentId == old(parentId)
    {
      CopyMatrix(m);
      var t := decompose(matrix[..]);
      WriteTransform(t);
      var e := toEuler(QuaternionOf(quaternion[..]));
      WriteRotation(e);
    }

    /** The copy step of `SetMatrix`: the matrix takes the entries of `m`. */
    method CopyMatrix(m: array<real>)
      requires Valid()
      requires m.Length == Matrix4.ElementNum && m != matrix
      modifies matrix
      ensures matrix[..] == old(m[..]) && m[..] == old(m[..])
    {
      forall i | 0 <= i < Matrix4.ElementNum {
        matrix[i] := m[i];
      }
    }

    /** The decompose step of `SetMatrix`: position, quaternion and scale
        take the components of `t`. */
    method WriteTransform(t: Transform)
      requires Valid()
      modifies position, quaternion, scale
      ensures position[..] == TripleElements(t.position)
      ensures quaternion[..] == QuaternionElements(t.quaternion)
      ensures scale[..] == TripleElements(t.scale)
    {
      position[0], position[1], position[2] := t.position.0, t.position.1, t.position.2;
      quaternion[0], quaternion[1], quaternion[2], quaternion[3] := t.quaternion.0, t.quaternion.1, t.quaternion.2, t.quaternion.3;
      scale[0], scale[1], scale[2] := t.scale.0, t.scale.1, t.scale.2;
      assert position[..] == TripleElements(t.position);
      assert quaternion[..] == QuaternionElements(t.quaternion);
    }

    /** The `set_from_quaternion` step of `SetMatrix`: the rotation takes the
        angles of `e`. */
    method WriteRotation(e: Euler)
      requires Valid()
      modifies rotation
      ensures rotation[..] == TripleElements(e)
    {
      rotation[0], rotation[1], rotation[2] := e.0, e.1, e.2;
    }
  }

  /** A new node already satisfies `Composed`: its identity matrix is the
      composition of its rest pose. */
  method NewNodeIsComposed() returns (node: Node)
    ensures node.Valid() && node.Composed()
  {
    node := new Node();
    Matrix4.ComposeRestPose();
  }

  /** `update_matrix` is idempotent: a second call leaves the same matrix,
      because it reads only fields it does not write. */
  method UpdateMatrixTwice(node: Node, fromEuler: Euler -> Quaternion) returns (first: seq<real>, second: seq<real>)
    requires node.Valid()
    modifies node.quaternion, node.matrix
    ensures first == second
  {
    node.UpdateMatrix(fromEuler);
    first := node.matrix[..];
    node.UpdateMatrix(fromEuler);
    second := node.matrix[..];
  }

  /** A write through `borrow_position_mut` leaves every other field of the
      node as it was. */
  method MovePosition(node: Node, x: real, y: real, z: real)
    requires node.Valid()
    modifies node.position
    ensures node.position[..] == [x, y, z]
    ensures node.matrix[..] == old(node.matrix[..]) && node.quaternion[..] == old(node.quaternion[..])
    ensures node.rotation[..] == old(node.rotation[..]) && node.scale[..] == old(node.scale[..])
  {
    Vector3.Set(node.BorrowPositionMut(), x, y, z);
  }
}

/** src/scene/scene.rs: the objects of a scene, plus meshes attached to
    object ids. `mesh_object_id_map` sends an object id to its slot in
    `meshes`, and `mesh_object_ids` lists the ids slot by slot. */
module Scenes {
  import opened Wrappers
  import opened SceneObjects
  import Meshes

  class Scene {
    var meshObjectIdMap: map<nat, nat>
    var meshObjectIds: seq<nat>
    var meshes: seq<Meshes.Mesh>
    var objects: seq<Object>

    /** Object i is the object created with id i; the id list runs parallel
        to `meshes`; and the map and the list are inverse to each other. */
    ghost predicate Valid()
      reads this
    {
      && (forall i | 0 <= i < |objects| :: objects[i] == NewObject(i))
      && |meshObjectIds| == |meshes|
      && MeshTable(meshObjectIdMap, meshObjectIds)
    }

    constructor ()
      ensures Valid()
      ensures meshObjectIdMap == map[] && meshObjectIds == [] && meshes == [] && objects == []
    {
      meshObjectIdMap := map[];
      meshObjectIds := [];
      meshes := [];
      objects := [];
    }

    /** Appends a new object whose id is its position and returns it. */
    method CreateObject() returns (id: nat)
      requires Valid()
      modifies this
      ensures Valid()
      ensures id == old(|objects|) && objects == old(objects) + [NewObject(id)]
      ensures GetObjectsNum() == old(GetObjectsNum()) + 1
      ensures meshObjectIdMap == old(meshObjectIdMap) && meshObjectIds == old(meshObjectIds)
      ensures meshes == old(meshes)
    {
      var created := NewObject(|objects|);
      objects := objects + [created];
      id := |objects| - 1;
    }

    function GetObjectsNum(): (n: nat)
      reads this
      ensures n == |objects|
    {
      |objects|
    }

    /** `None` exactly when the id is past the end; otherwise the object
        with that id. `borrow_object_mut` has the same bound check, and no
        method of `Object` can write through it. */
    function BorrowObject(id: nat): (r: Option<Object>)
      requires Valid()
      reads this
      ensures r.None? <==> id >= |objects|
      ensures r.Some? ==> r.value == objects[id] && r.value.id == id
    {
      if id >= |objects| then None else Some(objects[id])
    }

    /** Attaches `mesh` to object id `id` unless the id already has one:
        the first attachment wins. The id need not name an object. */
    method AddMesh(id: nat, mesh: Meshes.Mesh)
      requires Valid()
      modifies this
      ensures Valid()
      ensures old(id in meshObjectIdMap) ==>
                meshObjectIdMap == old(meshObjectIdMap) && meshObjectIds == old(meshObjectIds)
                && meshes == old(meshes)
      ensures old(id !in meshObjectIdMap) ==>
                && meshObjectIdMap == old(meshObjectIdMap)[id := old(|meshes|)]
                && meshes == old(meshes) + [mesh]
                && meshObjectIds == old(meshObjectIds) + [id]
      ensures objects == old(objects)
      ensures BorrowMesh(id) == if old(id in meshObjectIdMap) then old(BorrowMesh(id)) else Some(mesh)
      ensures forall k | k != id :: BorrowMesh(k) == old(BorrowMesh(k))
    {
      if id in meshObjectIdMap {
        return;
      }
      meshObjectIdMap := meshObjectIdMap[id := |meshes|];
      meshes := meshes + [mesh];
      meshObjectIds := meshObjectIds + [id];
    }

    /** `None` for an id never attached; otherwise the mesh attached to it. */
    function BorrowMesh(id: nat): (r: Option<Meshes.Mesh>)
      requires Valid()
      reads this
      ensures r.Some? <==> id in meshObjectIdMap
      ensures r.Some? ==> exists i | 0 <= i < |meshes| :: meshObjectIds[i] == id && r.value == meshes[i]
    {
      if id !in meshObjectIdMap then None else Some(meshes[meshObjectIdMap[id]])
    }

    /** The mesh table holds exactly one key per mesh. */
    lemma MeshTableSize()
      requires Valid()
      ensures |meshObjectIdMap| == |meshes|
    {
      MeshTableCardinality(meshObjectIdMap, meshObjectIds);
    }
  }

  /** The map sends each listed id to its position, and every key of the map
      is listed at the position it is sent to. */
  ghost predicate MeshTable(slots: map<nat, nat>, ids: seq<nat>)
  {
    && (forall i | 0 <= i < |ids| :: ids[i] in slots && slots[ids[i]] == i)
    && (forall k | k in slots :: slots[k] < |ids| && ids[slots[k]] == k)
  }

  /** Such a map has as many keys as the list has entries. */
  lemma {:induction false} MeshTableCardinality(slots: map<nat, nat>, ids: seq<nat>)
    requires MeshTable(slots, ids)
    ensures |slots| == |ids|
  {
    if |ids| == 0 {
      assert slots.Keys == {};
    } else {
      var n := |ids| - 1;
      var last := ids[n];
      var rest := slots - {last};
      var prefix := ids[..n];
      forall i | 0 <= i < |prefix|
        ensures prefix[i] in rest && rest[prefix[i]] == i
      {
        assert slots[ids[i]] == i;
      }
      forall k | k in rest
        ensures rest[k] < |prefix| && prefix[rest[k]] == k
      {
        assert slots[k] != n;
      }
      MeshTableCardinality(rest, prefix);
      assert rest.Keys == slots.Keys - {last};
    }
  }
}
