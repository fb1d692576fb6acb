/** `ResourcePools` of src/resource/resource.rs: one `ResourcePool` per
    resource type, found by the type's identity. Rust looks the pool up by
    `TypeId` and casts it back to the requested type; here the type is a
    `Kind` and the pool comes back wrapped in the matching `AnyPool`
    variant, so the cast is the variant check `KindOf`. */
module ResourceRegistry {
  import opened Wrappers
  import opened Resource
  import Attributes
  import GeometryIndices
  import Geometries
  import Materials
  import ShaderNodes
  import Meshes
  import SceneNodes
  import Cameras
  import Scenes
  import Samplers
  import Textures

  /** The eleven types `new` registers, and any other type a caller could
      name. */
  datatype Kind =
    | AttributeKind
    | GeometryKind
    | IndexKind
    | MaterialKind
    | MaterialNodeKind
    | MeshKind
    | NodeKind
    | PerspectiveCameraKind
    | SceneKind
    | SamplerKind
    | TextureKind
    | OtherKind(name: string)

  const Registered: set<Kind> := {
    AttributeKind, GeometryKind, IndexKind, MaterialKind, MaterialNodeKind, MeshKind,
    NodeKind, PerspectiveCameraKind, SceneKind, SamplerKind, TextureKind }

  const UnknownType: string := "Unknown Type"

  /** The geometry helpers store attribute and index handles in a geometry. */
  type PooledGeometry = Geometries.Geometry<ResourceId<Attributes.Attribute>, ResourceId<GeometryIndices.Index>>

  datatype AnyPool =
    | AttributePool(attributes: ResourcePool<Attributes.Attribute>)
    | GeometryPool(geometries: ResourcePool<PooledGeometry>)
    | IndexPool(indices: ResourcePool<GeometryIndices.Index>)
    | MaterialPool(materials: ResourcePool<Materials.Material>)
    | MaterialNodePool(materialNodes: ResourcePool<ShaderNodes.MaterialNode>)
    | MeshPool(meshes: ResourcePool<Meshes.Mesh>)
    | NodePool(nodes: ResourcePool<SceneNodes.Node>)
    | PerspectiveCameraPool(cameras: ResourcePool<Cameras.PerspectiveCamera>)
    | ScenePool(scenes: ResourcePool<Scenes.Scene>)
    | SamplerPool(samplers: ResourcePool<Samplers.Sampler>)
    | TexturePool(textures: ResourcePool<Textures.Texture>)
  {
    /** The type of resource the pool holds. */
    function KindOf(): Kind
    {
      match this
      case AttributePool(_) => AttributeKind
      case GeometryPool(_) => GeometryKind
      case IndexPool(_) => IndexKind
      case MaterialPool(_) => MaterialKind
      case MaterialNodePool(_) => MaterialNodeKind
      case MeshPool(_) => MeshKind
      case NodePool(_) => NodeKind
      case PerspectiveCameraPool(_) => PerspectiveCameraKind
      case ScenePool(_) => SceneKind
      case SamplerPool(_) => SamplerKind
      case TexturePool(_) => TextureKind
    }

    /** The pool object itself, whatever it holds. */
    function Pool(): object
    {
      match this
      case AttributePool(p) => p as object
      case GeometryPool(p) => p as object
      case IndexPool(p) => p as object
      case MaterialPool(p) => p as object
      case MaterialNodePool(p) => p as object
      case MeshPool(p) => p as object
      case NodePool(p) => p as object
      case PerspectiveCameraPool(p) => p as object
      case ScenePool(p) => p as object
      case SamplerPool(p) => p as object
      case TexturePool(p) => p as object
    }

    function Length(): nat
      reads Pool()
    {
      match this
      case AttributePool(p) => |p.resources|
      case GeometryPool(p) => |p.resources|
      case IndexPool(p) => |p.resources|
      case MaterialPool(p) => |p.resources|
      case MaterialNodePool(p) => |p.resources|
      case MeshPool(p) => |p.resources|
      case NodePool(p) => |p.resources|
      case PerspectiveCameraPool(p) => |p.resources|
      case ScenePool(p) => |p.resources|
      case SamplerPool(p) => |p.resources|
      case TexturePool(p) => |p.resources|
    }
  }

  /** Every registered type has exactly one pool. */
  lemma RegisteredCount()
    ensures |Registered| == 11
    ensures forall k :: k in Registered <==> !k.OtherKind?
  {
  }

  /** The table `new` fills: each pool under the kind of what it holds. */
  function Assemble(
    attributes: ResourcePool<Attributes.Attribute>,
    geometries: ResourcePool<PooledGeometry>,
    indices: ResourcePool<GeometryIndices.Index>,
    materials: ResourcePool<Materials.Material>,
    materialNodes: ResourcePool<ShaderNodes.MaterialNode>,
    meshes: ResourcePool<Meshes.Mesh>,
    nodes: ResourcePool<SceneNodes.Node>,
    cameras: ResourcePool<Cameras.PerspectiveCamera>,
    scenes: ResourcePool<Scenes.Scene>,
    samplers: ResourcePool<Samplers.Sampler>,
    textures: ResourcePool<Textures.Texture>): (m: map<Kind, AnyPool>)
    ensures forall k :: k in m <==> !k.OtherKind?
    ensures forall k | k in m :: m[k].KindOf() == k
  {
    map[
      AttributeKind := AttributePool(attributes),
      GeometryKind := GeometryPool(geometries),
      IndexKind := IndexPool(indices),
      MaterialKind := MaterialPool(materials),
      MaterialNodeKind := MaterialNodePool(materialNodes),
      MeshKind := MeshPool(meshes),
      NodeKind := NodePool(nodes),
      PerspectiveCameraKind := PerspectiveCameraPool(cameras),
      SceneKind := ScenePool(scenes),
      SamplerKind := SamplerPool(samplers),
      TextureKind := TexturePool(textures)]
  }

  /** Pools that start empty give a table of empty pools. */
  lemma AssembledEmpty(
    attributes: ResourcePool<Attributes.Attribute>,
    geometries: ResourcePool<PooledGeometry>,
    indices: ResourcePool<GeometryIndices.Index>,
    materials: ResourcePool<Materials.Material>,
    materialNodes: ResourcePool<ShaderNodes.MaterialNode>,
    meshes: ResourcePool<Meshes.Mesh>,
    nodes: ResourcePool<SceneNodes.Node>,
    cameras: ResourcePool<Cameras.PerspectiveCamera>,
    scenes: ResourcePool<Scenes.Scene>,
    samplers: ResourcePool<Samplers.Sampler>,
    textures: ResourcePool<Textures.Texture>)
    requires attributes.resources == [] && geometries.resources == [] && indices.resources == []
    requires materials.resources == [] && materialNodes.resources == [] && meshes.resources == []
    requires nodes.resources == [] && cameras.resources == [] && scenes.resources == []
    requires samplers.resources == [] && textures.resources == []
    ensures var m := Assemble(attributes, geometries, indices, materials, materialNodes, meshes,
                              nodes, cameras, scenes, samplers, textures);
            forall k | k in m :: m[k].Length() == 0
  {
  }

  class ResourcePools {
    /** Filled once by `new`; afterwards only the pools' contents change. */
    const pools: map<Kind, AnyPool>

    /** Each registered type maps to a pool of that type. */
    ghost predicate Valid()
    {
      && (forall k :: k in pools <==> !k.OtherKind?)
      && (forall k | k in pools :: pools[k].KindOf() == k)
    }

    /** Registers the eleven types, each with a new, empty pool. */
    constructor ()
      ensures Valid()
      ensures forall k | k in pools :: pools[k].Length() == 0
    {
      var attributes := new ResourcePool<Attributes.Attribute>();
      var geometries := new ResourcePool<PooledGeometry>();
      var indices := new ResourcePool<GeometryIndices.Index>();
      var materials := new ResourcePool<Materials.Material>();
      var materialNodes := new ResourcePool<ShaderNodes.MaterialNode>();
      var meshes := new ResourcePool<Meshes.Mesh>();
      var nodes := new ResourcePool<SceneNodes.Node>();
      var cameras := new ResourcePool<Cameras.PerspectiveCamera>();
      var scenes := new ResourcePool<Scenes.Scene>();
      var samplers := new ResourcePool<Samplers.Sampler>();
      var textures := new ResourcePool<Textures.Texture>();
      pools := Assemble(attributes, geometries, indices, materials, materialNodes, meshes,
                        nodes, cameras, scenes, samplers, textures);
      new;
      AssembledEmpty(attributes, geometries, indices, materials, materialNodes, meshes,
                     nodes, cameras, scenes, samplers, textures);
    }

    /** `borrow_mut::<Attribute>()`: the attribute pool, which is registered
        and so never the "Unknown Type" panic. */
    function AttributeStore(): (p: ResourcePool<Attributes.Attribute>)
      requires Valid()
      ensures Borrow(AttributeKind) == Ok(AttributePool(p))
    {
      assert pools[AttributeKind].KindOf() == AttributeKind;
      pools[AttributeKind].attributes
    }

    /** `borrow_mut::<Index>()`. */
    function IndexStore(): (p: ResourcePool<GeometryIndices.Index>)
      requires Valid()
      ensures Borrow(IndexKind) == Ok(IndexPool(p))
    {
      assert pools[IndexKind].KindOf() == IndexKind;
      pools[IndexKind].indices
    }

    /** `borrow_mut::<Geometry>()`. */
    function GeometryStore(): (p: ResourcePool<PooledGeometry>)
      requires Valid()
      ensures Borrow(GeometryKind) == Ok(GeometryPool(p))
    {
      assert pools[GeometryKind].KindOf() == GeometryKind;
      pools[GeometryKind].geometries
    }

    /** `borrow_mut::<Texture>()`. */
    function TextureStore(): (p: ResourcePool<Textures.Texture>)
      requires Valid()
      ensures Borrow(TextureKind) == Ok(TexturePool(p))
    {
      assert pools[TextureKind].KindOf() == TextureKind;
      pools[TextureKind].textures
    }

    /** `borrow` and `borrow_mut`: the pool registered for `kind`, or the
        "Unknown Type" panic. Both hand out the same pool object; writes go
        through that object's own methods. */
    function Borrow(kind: Kind): (r: Outcome<AnyPool>)
      requires Valid()
      ensures r.Ok? <==> !kind.OtherKind?
      ensures r.Ok? ==> r.value.KindOf() == kind && r.value == pools[kind]
      ensures r.Panic? ==> r.message == UnknownType
    {
      if kind in pools then Ok(pools[kind]) else Panic(UnknownType)
    }
  }
}
