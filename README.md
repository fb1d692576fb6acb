# wgpu-rust-renderer core, modelled in Dafny

This project models the parts of the wgpu-rust-renderer that run without a GPU:

- **Resource arena.** There is an append-only `ResourcePool<T>` addressed by `ResourceId<T>` handles. `ResourcePools` is a registry with one pool per resource type.
- **Scene bookkeeping.** It covers:
  - scenes, with their objects and the mesh table from object id to mesh;
  - transform nodes, with the matrix they recompute;
  - index managers.
- **Geometry.** It covers:
  - attributes, indices and geometries;
  - the helper that builds triangle, plane and box buffers and registers them in the pools.
- **Fixed-size math kernels.** These are `Matrix4`, `Matrix3`, `Matrix3GPU`, `Vector3` and `Color`. Each writes into an `[f32; N]` array in place.
- **Shader-node generator.** It writes WGSL text and comes in three revisions of the node interface:
  - the owned tree of `src/material/node.rs`;
  - the pool-handle nodes without deduplication (multiply, xyz, brdf and the uniform and constant leaves);
  - the later nodes that carry a `visited` map and their own id (add, srgb_to_linear, tangent_to_object_normal, normal_matrix).
- **Samplers and the texture loader.** This includes:
  - the sampler defaults;
  - the JPEG RGB-to-RGBA expansion;
  - the format default;
  - choosing a loader by file extension.

How the Rust is rendered in Dafny:

- `f32` is `real`. `u8` and `u16` are newtypes. An `as u32` cast is `AsU32`, reduction modulo 2^32.
- A panic is the `Panic(message)` arm of an `Outcome`.
- Arrays updated in place (`&mut [f32; N]`) are Dafny `array<real>`. The methods that write them are proved against functions on `a[..]`.
- Structs whose fields are updated in place are classes: `ResourcePool`, `ResourcePools`, `Scene`, `Node`, `IndexManager` and `Geometry`. Plain records are datatypes.
- Four kinds of foreign code are parameters of the operations that use them:
  - the trigonometry behind `Quaternion::set_from_euler`, `Euler::set_from_quaternion` and `Matrix4::decompose`;
  - the `f32` square root in `create_triangle`;
  - the float formatting of constant shader nodes;
  - the image decoders.

Files, one module each unless noted:

- wrappers.dfy: `Wrappers` (Option, Outcome), `Numeric`, `Text`
- decimal.dfy: `Decimal`: formatting of a `usize`
- resource.dfy: `Resource`
- resource_registry.dfy: `ResourceRegistry`
- geometry.dfy: `Attributes`, `GeometryIndices`, `Geometries`, `SceneGeometries`
- records.dfy: `Samplers`, `Textures`, `Materials`, `Meshes`, `Cameras`
- math_vector.dfy: `Vector3`, `Color`
- math_matrix3.dfy: `Matrix3`, `Matrix3GPU`
- math_matrix4.dfy: `Matrix4`
- scene.dfy: `SceneObjects`, `SceneIndices`, `SceneNodes`, `Scenes`
- geometry_helper.dfy: `GeometryHelper`
- node_tree.dfy: `NodeTree`
- shader_nodes.dfy: `ShaderNodes`
- dedup_shader_nodes.dfy: `DedupShaderNodes`
- texture_loader.dfy: `TextureLoader`

## Model

| member | source | states |
|---|---|---|
| Resource.Equals | src/resource/resource.rs:195-199 | Two handles are equal exactly when their indices are equal; the type parameter plays no part |
| Resource.HashAgreesWithEquals | src/resource/resource.rs:189-193 | Handles that compare equal hash the same, since hashing reads only the index |
| Resource.ResourcePool.constructor | src/resource/resource.rs:78-82 | A new pool holds nothing |
| Resource.ResourcePool.Add | src/resource/resource.rs:84-88 | Returns the old length as the handle and appends the value. The new handle resolves to that value, and every handle that resolved before resolves to the same value as before |
| Resource.ResourcePool.Borrow | src/resource/resource.rs:90-96 | `Some(resources[id])` exactly when the id is below the length, `None` otherwise; lookup never panics |
| Resource.ResourcePool.BorrowMut | src/resource/resource.rs:98-104 | The same bounds check. A write through the found slot changes that slot only and keeps the length. An id out of range changes nothing |
| Resource.FreshPoolHandles | src/resource/resource.rs:78-88 | The first two `add`s on a new pool return handles 0 and 1, which differ |
| Resource.AddTwice | src/resource/resource.rs:84-88 | Two successive `add`s return consecutive, strictly increasing, distinct handles, and each resolves to the value added with it |
| ResourceRegistry.RegisteredCount | src/resource/resource.rs:112-129 | Exactly eleven types are registered: every type the registry knows, and no other |
| ResourceRegistry.Assemble | src/resource/resource.rs:112-129 | The table `new` fills has a key for each of the eleven types and for no other, and each key maps to a pool of that key's type |
| ResourceRegistry.AssembledEmpty | src/resource/resource.rs:112-129 | Built from new pools, every pool in the table is empty |
| ResourceRegistry.ResourcePools.constructor | src/resource/resource.rs:112-133 | `new` gives a registry with one pool per registered type, each of the right type and empty |
| ResourceRegistry.ResourcePools.Borrow | src/resource/resource.rs:135-152 | `borrow`/`borrow_mut` succeed exactly for a registered type and return that type's pool; any other type gives the "Unknown Type" panic |
| ResourceRegistry.ResourcePools.AttributeStore | src/resource/resource.rs:145-152 | `borrow_mut::<Attribute>()` returns the attribute pool and never panics |
| ResourceRegistry.ResourcePools.IndexStore | src/resource/resource.rs:145-152 | `borrow_mut::<Index>()` returns the index pool and never panics |
| ResourceRegistry.ResourcePools.GeometryStore | src/resource/resource.rs:145-152 | `borrow_mut::<Geometry>()` returns the geometry pool and never panics |
| ResourceRegistry.ResourcePools.TextureStore | src/resource/resource.rs:145-152 | `borrow_mut::<Texture>()` returns the texture pool and never panics |
| Attributes.NewAttribute | src/geometry/attribute.rs:8-22 | Stores data and item size. The count is the integer quotient of the u32-cast length by the item size: `count * size <= len < (count + 1) * size`, and for a length below 2^32 this holds for the true length |
| GeometryIndices.NewIndex | src/geometry/index.rs:9-22 | Stores the data. The count is the data length whenever that fits in a u32, and is always below 2^32 |
| Geometries.Geometry.constructor | src/geometry/geometry.rs:15-20 | A new geometry has no attributes and no index |
| Geometries.Geometry.SetAttribute | src/geometry/geometry.rs:22-25 | Inserts or replaces the key. Afterwards `borrow_attribute(key)` is the new value, every other key reads as before, and the index is untouched |
| Geometries.Geometry.BorrowAttribute | src/geometry/geometry.rs:27-29 | `Some` exactly for a key that was set, with its value; `None` for a key never set |
| Geometries.Geometry.SetIndex | src/geometry/geometry.rs:31-34 | `borrow_index` becomes `Some` of the new index; the attribute map is unchanged |
| Geometries.Geometry.RemoveIndex | src/geometry/geometry.rs:36-39 | `borrow_index` becomes `None`; the attribute map is unchanged |
| Geometries.Geometry.BorrowIndex | src/geometry/geometry.rs:41-43 | Returns the stored optional index |
| SceneGeometries.Geometry.constructor | src/scene/geometry.rs:11-15 | A new scene geometry has an empty attribute map |
| SceneGeometries.Geometry.SetAttribute | src/scene/geometry.rs:17-20 | Inserts or replaces the key. The new value is read back, and every other key reads as before |
| SceneGeometries.Geometry.BorrowAttribute | src/scene/geometry.rs:22-24 | `Some` exactly for a key that was set, with its value |
| Samplers.DefaultDescriptor | src/texture/sampler.rs:31-42 | All three filters are `Linear`, and all three wrap modes are `ClampToEdge` |
| Samplers.NewSampler | src/texture/sampler.rs:45-55 | Each of the six fields is copied unchanged from the descriptor |
| Samplers.NewSamplerInjective | src/texture/sampler.rs:45-79 | The getters give the descriptor back, and distinct descriptors build distinct samplers |
| Materials.NewMaterial | src/material/material.rs:8-12 | A new material's colour is `Color::create()`, black |
| Vector3.SubUndoesAdd | src/math/vector3.rs:19-31 | Over the reals, subtracting `w` after adding it restores the vector |
| Vector3.AddZero | src/math/vector3.rs:19-24 | Adding the zero vector leaves a vector unchanged |
| Vector3.Create | src/math/vector3.rs:8-10 | A new array holding (0, 0, 0) |
| Vector3.Set | src/math/vector3.rs:12-17 | The array becomes (x, y, z) |
| Vector3.Add | src/math/vector3.rs:19-24 | Each `v[i]` becomes old `v[i]` + `v2[i]` (stated by `Added`, whose entries minus `v2` give back `v`); `v2` is unchanged |
| Vector3.Sub | src/math/vector3.rs:26-31 | Each `v[i]` becomes old `v[i]` - `v2[i]`; `v2` is unchanged |
| Color.Create | src/math/color.rs:8-10 | A new array holding (0, 0, 0) |
| Color.Set | src/math/color.rs:12-17 | The array becomes (r, g, b) |
| Color.Copy | src/math/color.rs:19-24 | `c` becomes equal to `c2` element by element; `c2` is unchanged |
| Matrix4.IdentityElements | src/math/matrix4.rs:14-32 | 1 at slots 0, 5, 10 and 15, 0 everywhere else |
| Matrix4.ComposeElements | src/math/matrix4.rs:34-86 | The matrix `compose` writes: slots 3, 7 and 11 are 0, slot 15 is 1, and slots 12 to 14 are the position |
| Matrix4.ComposeIdentityRotation | src/math/matrix4.rs:40-77 | With quaternion (0, 0, 0, 1) and unit scale, the upper-left 3x3 block is the identity |
| Matrix4.ComposeRestPose | src/math/matrix4.rs:34-86 | Zero position, the identity quaternion and unit scale compose to the identity matrix |
| Matrix4.ComposeScalesColumns | src/math/matrix4.rs:61-77 | Entry `4j + i` of the upper block is the rotation's entry `(j, i)` times `scale[j]`: the scale acts column by column |
| Matrix4.Create | src/math/matrix4.rs:8-12 | A new array holding the identity |
| Matrix4.Identity | src/math/matrix4.rs:14-32 | All sixteen entries are overwritten with the identity |
| Matrix4.Compose | src/math/matrix4.rs:34-86 | All sixteen entries are overwritten with `ComposeElements` of the inputs, so the result does not depend on the old contents |
| Matrix3.IdentityElements | src/math/matrix3.rs:14-25 | 1 at slots 0, 4 and 8, 0 everywhere else |
| Matrix3.NormalElements | src/math/matrix3.rs:34-87 | `None` exactly when the 4x4 determinant computed at line 68 is 0; otherwise nine entries. For a source whose last row is (0, 0, 0, 1) that determinant is the upper-left block's (`AffineDeterminant`) |
| Matrix3.NormalOfIdentity | src/math/matrix3.rs:34-87 | Over the reals, the normal matrix of the 4x4 identity is the 3x3 identity |
| Matrix3.NormalIsInverseTranspose | src/math/matrix3.rs:55-84 | For a source whose last row is (0, 0, 0, 1), the transpose of the normal matrix times the upper-left block is the identity: the normal matrix is the inverse transpose |
| Matrix3.AffineCofactors | src/math/matrix3.rs:55-66 | For such a source, the nine cofactor expressions are the 2x2 cofactors of the upper-left block |
| Matrix3.AffineDeterminant | src/math/matrix3.rs:68 | For such a source, the determinant expression is the 3x3 determinant of the upper-left block |
| Matrix3.Create | src/math/matrix3.rs:8-12 | A new array holding the identity |
| Matrix3.Identity | src/math/matrix3.rs:14-25 | All nine entries are overwritten with the identity |
| Matrix3.Copy | src/math/matrix3.rs:27-32 | `m` becomes equal to `src` element by element; `src` is unchanged |
| Matrix3.MakeNormalFromMatrix4 | src/math/matrix3.rs:34-87 | A singular source leaves `m` as it was. Otherwise all nine entries become the normal matrix, whatever `m` held. The 4x4 source is never written |
| Matrix3GPU.IdentityElements | src/math/matrix3gpu.rs:14-28 | 1 at slots 0, 5 and 10, 0 at the other nine |
| Matrix3GPU.Padded | src/math/matrix3gpu.rs:37-52 | Entry `(i, j)` moves from slot `3i + j` to slot `4i + j`, and the padding slots 3, 7 and 11 are 0 |
| Matrix3GPU.CompactPadded | src/math/matrix3gpu.rs:37-52 | Reading slots 0-2, 4-6 and 8-10 of the padded matrix gives back the 3x3 matrix |
| Matrix3GPU.PaddedCompact | src/math/matrix3gpu.rs:37-52 | A 12-slot matrix with zero padding is the padding of its own nine entries |
| Matrix3GPU.PaddedIdentity | src/math/matrix3gpu.rs:14-52 | Padding the 3x3 identity gives the 12-slot identity |
| Matrix3GPU.Create | src/math/matrix3gpu.rs:8-12 | A new array holding the identity |
| Matrix3GPU.Identity | src/math/matrix3gpu.rs:14-28 | All twelve entries are overwritten with the identity |
| Matrix3GPU.Copy | src/math/matrix3gpu.rs:30-35 | `m` becomes equal to `src` element by element; `src` is unchanged |
| Matrix3GPU.CopyFromMatrix3 | src/math/matrix3gpu.rs:37-52 | `m` becomes the padding of `src`; `src` is unchanged |
| SceneObjects.NewObject | src/scene/object.rs:13-29 | Stores the id. There is no parent and no children, and the matrix is the identity. Position and rotation are zero, the quaternion is (0, 0, 0, 1) and the scale is (1, 1, 1) |
| SceneObjects.NewObjectMatrixIsComposed | src/scene/object.rs:17-27 | A new object's matrix agrees with its own position, quaternion and scale: it is what `compose` makes of them |
| SceneObjects.NewObjectInjective | src/scene/object.rs:13-33 | Two new objects are equal exactly when their ids are: the id is all that tells objects apart |
| SceneIndices.NewIndex | src/scene/index.rs:10-28 | Stores the id and the data. The count is the data length whenever it fits in a u32, and is always below 2^32 |
| SceneIndices.IndexManager.constructor | src/scene/index.rs:37-41 | The count starts at 0 |
| SceneIndices.IndexManager.Create | src/scene/index.rs:43-47 | Returns the index whose id is the count before the call; the count grows by one |
| SceneIndices.FreshManagerIds | src/scene/index.rs:37-47 | Three `create`s on a new manager give ids 0, 1 and 2, each with its own data |
| SceneNodes.UpdatedMatrix | src/scene/node.rs:74-78 | The matrix `update_matrix` computes has sixteen entries, the position as its translation and (0, 0, 0, 1) as its last row |
| SceneNodes.CreateQuaternion | src/math/quaternion.rs:7-9 | A new array holding the identity quaternion (0, 0, 0, 1) |
| SceneNodes.CreateEuler | src/math/euler.rs:7-9 | A new array holding the zero rotation |
| SceneNodes.Node.constructor | src/scene/node.rs:19-29 | Five fresh, separate arrays. The matrix is the identity, position and rotation are zero, the quaternion is (0, 0, 0, 1) and the scale is (1, 1, 1). There is no parent and no children |
| SceneNodes.Node.BorrowPositionMut | src/scene/node.rs:43-45 | Hands out the position array, which is no other field's array |
| SceneNodes.Node.BorrowRotationMut | src/scene/node.rs:51-53 | Hands out the rotation array, which is no other field's array |
| SceneNodes.Node.BorrowScaleMut | src/scene/node.rs:59-61 | Hands out the scale array, which is no other field's array |
| SceneNodes.Node.UpdateMatrix | src/scene/node.rs:74-78 | The quaternion is set from the rotation, and the matrix is composed from position, quaternion and scale, so the node is `Composed`. Position, rotation, scale, parent and children are unchanged |
| SceneNodes.Node.SetMatrix | src/scene/node.rs:67-72 | The matrix becomes a copy of `m`. Position, quaternion and scale become the decomposition of `m`, and the rotation is derived from that quaternion. `m`, the parent and the children are unchanged |
| SceneNodes.Node.CopyMatrix | src/scene/node.rs:68 | The node's matrix becomes equal to `m` element by element; `m` is unchanged |
| SceneNodes.Node.WriteTransform | src/scene/node.rs:69 | Position, quaternion and scale become the three parts of the decomposition |
| SceneNodes.Node.WriteRotation | src/scene/node.rs:70 | The rotation becomes the Euler angles given |
| SceneNodes.NewNodeIsComposed | src/scene/node.rs:19-29 | A new node's identity matrix is the composition of its rest pose |
| SceneNodes.UpdateMatrixTwice | src/scene/node.rs:74-78 | `update_matrix` is idempotent: a second call yields the same matrix |
| SceneNodes.MovePosition | src/scene/node.rs:43-45 | A write through `borrow_position_mut` changes the position only; matrix, quaternion, rotation and scale are unchanged |
| Scenes.Scene.constructor | src/scene/scene.rs:14-21 | All four tables are empty, and the scene invariant holds |
| Scenes.Scene.CreateObject | src/scene/scene.rs:23-27 | Appends the object whose id is its index and returns that index. The object count grows by one, the mesh tables are unchanged, and the invariant is kept |
| Scenes.Scene.GetObjectsNum | src/scene/scene.rs:29-31 | The number of objects, one per `create_object` since `new` |
| Scenes.Scene.BorrowObject | src/scene/scene.rs:33-45 | `None` exactly when `id >= objects.len()`; otherwise the object at `id`, whose id is `id` |
| Scenes.Scene.AddMesh | src/scene/scene.rs:47-56 | For an id that already has a mesh, nothing changes: the first attachment wins. For a fresh id, the id maps to the old number of meshes, and the mesh and id are pushed together. The id need not name an object. Every other id's mesh is unchanged, and the invariant is kept |
| Scenes.Scene.BorrowMesh | src/scene/scene.rs:58-63 | `None` for an id never attached; otherwise the mesh pushed for that id |
| Scenes.Scene.MeshTableSize | src/scene/scene.rs:7-9 | The map has exactly as many keys as there are meshes |
| Scenes.MeshTableCardinality | src/scene/scene.rs:7-8 | A map and a list that are inverse to each other have the same size |
| GeometryHelper.TriangleEquilateral | src/utils/geometry_helper.rs:23-28 | With unit size and the exact square root of 0.75, the triangle is equilateral with unit sides. Its apex and base are equally far from the x axis |
| GeometryHelper.TriangleWinding | src/utils/geometry_helper.rs:23-44 | For any positive size, the one triangle turns counter-clockwise around its normal (0, 0, 1), and its indices are in range |
| GeometryHelper.PlaneWinding | src/utils/geometry_helper.rs:59-95 | For any positive size, both triangles 0-2-1 and 1-2-3 turn counter-clockwise around (0, 0, 1), and every index is below 4 |
| GeometryHelper.Face | src/utils/geometry_helper.rs:120-169 | Each face gives four offsets per axis, and every number past the last face selects the bottom face, as the match's catch-all arm does |
| GeometryHelper.BoxBuffers | src/utils/geometry_helper.rs:119-204 | The loops fill the box's buffers: 72 positions, 72 normals, 48 uvs and 36 indices, face by face (lengths from the buffer functions' contracts) |
| GeometryHelper.FaceCorners | src/utils/geometry_helper.rs:171-183 | One face's corner loop appends that face's twelve position values and its normal four times |
| GeometryHelper.PushCorner | src/utils/geometry_helper.rs:172-179 | One corner goes through `position_vec` and is appended as its three stretched components |
| GeometryHelper.PushComponents | src/utils/geometry_helper.rs:176-178 | The inner `for j` loop appends the three entries of `position_vec` in order |
| GeometryHelper.UnitCornerOnFace | src/utils/geometry_helper.rs:120-178 | Every unit-cube corner has coordinates ±0.5 and lies on its face's plane, half a unit along the normal. Each face normal is an axis unit vector |
| GeometryHelper.FaceCornersDistinct | src/utils/geometry_helper.rs:120-169 | The four corners of each face are four different points |
| GeometryHelper.BoxVertex | src/utils/geometry_helper.rs:171-183 | Vertex `4 * face + i` of the box is corner `i` of that face, scaled by width, height and depth, and carries the face's normal |
| GeometryHelper.BoxPositionEntries | src/utils/geometry_helper.rs:171-179 | Position entries `12 * face + 3 * i` to `+ 3` are corner `i` of that face |
| GeometryHelper.BoxNormalEntries | src/utils/geometry_helper.rs:180-182 | Normal entries `12 * face + 3 * i` to `+ 3` are the face's normal |
| GeometryHelper.BoxUvEntries | src/utils/geometry_helper.rs:185-195 | Each face's eight uv values are (0,0), (1,0), (0,1), (1,1), the same as the plane's |
| GeometryHelper.FaceIndices | src/utils/geometry_helper.rs:197-203 | Face `f` contributes the indices `4f + [0, 2, 1, 1, 2, 3]` |
| GeometryHelper.FaceWinding | src/utils/geometry_helper.rs:120-203 | For a box of positive size, both triangles of each face turn counter-clockwise around that face's normal |
| GeometryHelper.BoxWinding | src/utils/geometry_helper.rs:119-204 | For a box of positive size, every index is below 24 and every one of the twelve triangles faces outward |
| GeometryHelper.StretchedWinding | src/utils/geometry_helper.rs:172-178 | Scaling the unit cube by positive width, height and depth keeps each face's winding |
| GeometryHelper.AddGeometry | src/utils/geometry_helper.rs:46-51 | Adds position, normal (item size 3) and uv (item size 2) attributes, then one index and one geometry to the pools. The geometry refers to exactly those handles, and its handle is returned. Nothing already in a pool changes |
| GeometryHelper.CreateTriangle | src/utils/geometry_helper.rs:18-52 | Registers the triangle's three buffers and its index [0, 1, 2], and returns the new geometry's handle |
| GeometryHelper.CreatePlane | src/utils/geometry_helper.rs:54-103 | Registers the plane's four vertices at ±width/2 and ±height/2 with z = 0, its normals (0, 0, 1), its uvs and its indices [0, 2, 1, 1, 2, 3] |
| GeometryHelper.CreateBox | src/utils/geometry_helper.rs:105-212 | Registers the buffers the box loops fill, and returns the new geometry's handle |
| TextureLoader.FormatOrDefault | src/utils/texture_loader.rs:43-46 | `Uint8` when no format is given, the given format otherwise |
| TextureLoader.RgbaLayout | src/utils/texture_loader.rs:73-81 | The expansion has `4 * width * height` bytes. For pixel `k`, output `4k + c` is input `3k + c` for `c < 3`, and output `4k + 3` is 255 |
| TextureLoader.RgbOfRgba | src/utils/texture_loader.rs:73-81 | Dropping the alpha bytes gives back the RGB bytes: the expansion loses nothing |
| TextureLoader.RowMajor | src/utils/texture_loader.rs:74-76 | Pixel `y * width + x` is in range, and the loops visit pixels in increasing order, row after row |
| TextureLoader.ExpandRgb | src/utils/texture_loader.rs:73-81 | The nested loop succeeds exactly when the decoder gave three bytes per pixel, and then produces the expansion. Otherwise it is the out-of-bounds panic |
| TextureLoader.TextureOf | src/utils/texture_loader.rs:24-94 | A PNG becomes a texture exactly when it decodes, with the decoder's bytes. A JPEG needs three bytes per pixel, and its texels are the expansion, with length `4 * width * height`. Both keep the size and take the defaulted format |
| TextureLoader.LoadPng | src/utils/texture_loader.rs:24-50 | On success, exactly one texture is appended and its handle returned. On a decoder panic the pool is unchanged |
| TextureLoader.LoadJpg | src/utils/texture_loader.rs:60-94 | The same as `LoadPng`, with the JPEG texture |
| TextureLoader.LowerAscii | src/utils/texture_loader.rs:113 | Lower-cases exactly the ASCII capitals and keeps the length |
| TextureLoader.FileName | src/utils/texture_loader.rs:109-111 | The last path component, after trailing separators are dropped. It is never empty, never `..` and has no separator |
| TextureLoader.Extension | src/utils/texture_loader.rs:109-111 | What follows the last dot of the file name, when the name has a non-empty stem before that dot |
| TextureLoader.Dispatch | src/utils/texture_loader.rs:109-121 | "png" in any case picks the PNG loader, and "jpg" or "jpeg" the JPEG loader. A missing extension panics naming the path; any other extension panics naming it |
| TextureLoader.ExtensionOfDotted | src/utils/texture_loader.rs:109-111 | `dir/stem.ext` has extension `ext`, for any directory |
| TextureLoader.UpperCaseJpg | src/utils/texture_loader.rs:113-115 | `photo.JPG` goes to the JPEG loader |
| TextureLoader.HiddenFileHasNoExtension | src/utils/texture_loader.rs:109-111 | `dir/.ext` has no extension |
| TextureLoader.DotlessHasNoExtension | src/utils/texture_loader.rs:109-111 | A file name without a dot has no extension |
| TextureLoader.HiddenFileExample | src/utils/texture_loader.rs:118-120 | `textures/.png` panics with the "Can not detect" message naming the path |
| TextureLoader.NoDotExample | src/utils/texture_loader.rs:118-120 | `image` panics with the "Can not detect" message naming the path |
| TextureLoader.LoadWithFilepath | src/utils/texture_loader.rs:104-122 | An undispatchable path panics with the dispatch message and adds nothing. Otherwise the chosen loader's outcome: one texture added on success, nothing on a panic |
| NodeTree.NewVector3Node | src/material/node.rs:22-31 | A vector leaf with the label, whose contents are the given vector |
| NodeTree.NewTextureRGBNode | src/material/node.rs:60-69 | A texture leaf with the label, whose contents are the given texture |
| NodeTree.NameInitial | src/material/node.rs:34-36 | A leaf's name starts with `v` for a vector and `t` for a texture |
| NodeTree.LeafNamesDistinct | src/material/node.rs:34-36 | Two leaves share a name only when they are of the same kind and have the same label |
| NodeTree.Contents | src/material/node.rs:42-44 | `Some` exactly for a leaf, with its stored contents; `None` for a product |
| NodeTree.Leaves | src/material/node.rs:112-115 | A tree's leaves from left to right: at least one, all of them leaves, and a leaf is its own list |
| NodeTree.CollectLeafNodes | src/material/node.rs:38-40 | Appends the tree's leaves from left to right to the list, and moves nothing already there |
| NodeTree.DeclarationIsLeafDeclarations | src/material/node.rs:121-127 | A tree's declaration is its leaves' declarations concatenated in collection order |
| NodeTree.Fragment | src/material/node.rs:129-135 | The WGSL expression of a tree is never empty |
| NodeTree.FragmentParenthesised | src/material/node.rs:50-52 | An expression starts with `(` exactly when it is a product |
| NodeTree.FragmentContainsLeaves | src/material/node.rs:129-135 | Every leaf's expression occurs in the whole tree's expression |
| ShaderNodes.Operands | src/material/node/brdf.rs:85-87 | A node has operands exactly when it computes from others (multiply, xyz, brdf), listed in the order its methods visit them |
| ShaderNodes.Contents | src/material/node/texture.rs:21-34 | `Some` exactly for the uniform leaves, with what `new` stored. For a float that is the one-element array, and for a texture node its sampler and texture handles. The constants and operators have `None` |
| ShaderNodes.PrefixInjective | src/material/node/texture.rs:54-61 | Different (texture, sampler) pairs give different prefixes, so two texture nodes never bind the same output variable unless they sample the same pair |
| ShaderNodes.Declaration | src/material/node/vector3.rs:43-45 | Only the vector, float and RGB-texture leaves declare anything |
| ShaderNodes.Functions | src/material/node/brdf.rs:101-103 | Only the BRDF node contributes a function chunk |
| ShaderNodes.Collected | src/material/node/multiply.rs:30-39 | Nodes that do not compute from operands collect nothing |
| ShaderNodes.CollectNodes | src/material/node/multiply.rs:35-38 | Succeeds exactly when every reachable operand is in the pool. Then it appends the operands' lists in order, followed by the operand handles |
| ShaderNodes.CollectedBelow | src/material/node/multiply.rs:30-39 | Everything a node lists lies strictly below it in the pool, so a node never lists itself |
| ShaderNodes.CollectedAllPresent | src/material/node/xyz.rs:31 | A successful collection found every operand in the pool |
| ShaderNodes.MultiplySharedOperand | src/material/node/multiply.rs:35-38 | There is no deduplication: `Multiply(x, x)` lists `x` twice at the end |
| ShaderNodes.Fragment | src/material/node/multiply.rs:57-58 | An operand missing from the pool is the `unwrap` panic; success means all operands resolved |
| ShaderNodes.FragmentDefinesOutput | src/material/node/xyz.rs:51-58 | The code of every node except the constants contains the `let` that defines its output variable |
| ShaderNodes.OwnCodeDefinesOutput | src/material/node/texture.rs:83-95 | A node's own statements define the variable its output names |
| ShaderNodes.MultiplySharedOperandCode | src/material/node/multiply.rs:57-64 | For `Multiply(x, x)`, `x`'s code appears twice, then `let multiply_output = o * o;` |
| ShaderNodes.BrdfEndsWithLightOff | src/material/node/brdf.rs:126 | The BRDF node's code always ends by switching the directional light off |
| DedupShaderNodes.Operands | src/material/node/add.rs:38-43 | Only the normal-matrix node has no operands |
| DedupShaderNodes.OutputInjective | src/material/node/add.rs:85-87 | Two operator output names coincide only for the same kind and the same id, so no two nodes define the same variable |
| DedupShaderNodes.Functions | src/material/node/tangent_to_object_normal.rs:79-82 | Only the tangent-space normal node contributes a chunk, and it is the same whatever the id |
| DedupShaderNodes.Contents | src/material/node/add.rs:50-52 | None of the four nodes owns uniform data: `borrow_contents` is `None` for each (also srgb_to_linear.rs:44-46, tangent_to_object_normal.rs:71-73, normal_matrix.rs:37-39) |
| DedupShaderNodes.Declaration | src/material/node/add.rs:54-56 | None of the four nodes declares anything, whatever its id (also srgb_to_linear.rs:48-50, tangent_to_object_normal.rs:75-77, normal_matrix.rs:41-43) |
| DedupShaderNodes.CollectKeepsTracked | src/material/node/add.rs:31-48 | A collection only appends, marks what it appends and lists nothing twice. The node is marked afterwards. If it was unmarked, it is listed last, after all its operands: post-order |
| DedupShaderNodes.CollectAllKeepsTracked | src/material/node/add.rs:38-43 | Collecting the operands in turn keeps the list duplicate-free, and marks every operand |
| DedupShaderNodes.Fragment | src/material/node/add.rs:62-70 | The normal matrix, or a node already marked, emits nothing and marks nothing |
| DedupShaderNodes.FragmentMarks | src/material/node/add.rs:68-71 | Marks only accumulate, and an operator is marked once it has been emitted |
| DedupShaderNodes.FragmentOnce | src/material/node/add.rs:68-70 | Asking again with the marks a call left behind emits nothing: each node's code is emitted at most once per `visited` map |
| DedupShaderNodes.AddSharedOperandOnce | src/material/node/add.rs:62-83 | For `Add(x, x)`, `x`'s code appears once, then `let add_output_{id} = o + o;` |
| DedupShaderNodes.FragmentDefinesOutput | src/material/node/srgb_to_linear.rs:69-73 | An unmarked operator's code defines the variable its output names |
| DedupShaderNodes.NodeCollector.constructor | src/material/node/add.rs:34-35 | An empty node list and an empty `visited` map |
| DedupShaderNodes.NodeCollector.CollectNodes | src/material/node/add.rs:31-48 | Updates the list and the marks exactly as `Collect` does, and panics exactly when it does |
| DedupShaderNodes.NodeCollector.CollectOperands | src/material/node/add.rs:38-43 | The same, for the operands in turn |
| DedupShaderNodes.FragmentBuilder.constructor | src/material/node/add.rs:65 | An empty `visited` map |
| DedupShaderNodes.FragmentBuilder.BuildFragmentShader | src/material/node/add.rs:62-83 | Returns the code `Fragment` gives and leaves the marks it gives, panicking exactly when it does |
| DedupShaderNodes.FragmentBuilder.BuildOperands | src/material/node/add.rs:76-77 | The same, for the operands in turn |

## Left out

- The trigonometry of `src/math/quaternion.rs`, `src/math/euler.rs` and `src/scene/camera.rs` is not modelled. `Quaternion::set_from_euler`, `Euler::set_from_quaternion` and `Matrix4::decompose` are function parameters of the node operations, so their results are unconstrained. The camera keeps only its four scalars; its projection matrices are left out.
- `Matrix4::copy` and `Matrix4::decompose`, called at src/scene/node.rs:68-69, are not defined in src/math/matrix4.rs. The copy is modelled as `Node.CopyMatrix`, an element-wise copy, and the decomposition is a parameter.
- `ResourcePools::borrow_mut_unsafe` and `cast_pool_mut_unsafe` are left out. They hand out aliased mutable views through `transmute`, which Dafny cannot express soundly.
- ResourceRegistry.ResourcePools.Valid: does not state that the eleven pools are distinct objects, because every pool is allocated once by `new` and never replaced.
- `f32` rounding is not modelled: arithmetic is exact over the reals. Properties such as "subtracting undoes adding" and "the normal matrix of the identity is the identity" hold over the reals only.
- GeometryHelper.TriangleEquilateral: needs the exact square root of 0.75. The `f32` result of `0.75_f32.sqrt()` is a parameter, `root`, of the triangle functions.
- The WGSL bodies of the BRDF and `perturb_normal_to_arb` functions are opaque strings, and so is the tangent-space function chunk. They are passed to `Functions` as a parameter, and the shading math is not verified.
- ShaderNodes.Collected, ShaderNodes.CollectNodes, ShaderNodes.Fragment, DedupShaderNodes.Collect, DedupShaderNodes.Fragment, DedupShaderNodes.NodeCollector and DedupShaderNodes.FragmentBuilder: require the node pool to be `Ordered`, meaning every operand handle points below its node or past the end of the pool. Every graph built with `add` alone meets this. Graphs rewritten through `ResourcePool::borrow_mut` so that a node points forward are excluded, although the Rust handles them when they stay acyclic. On a cyclic graph the Rust recursion never terminates, which the model does not represent.
- Float-to-text formatting of the constant nodes is a `show` parameter, so the exact digits are not modelled.
- The PNG and JPEG decoders, `FileLoader::open`, and the `async` of the path loaders are left out. A decoder's result is a parameter: a size with bytes, or the panic it raised.
- TextureLoader.TextureOf: the JPEG decoder's panic message is modelled as "failed to decode image: " + the decoder's message. The exact `Debug` formatting used by `expect` is not reproduced.
- TextureLoader.ExpandRgb: the out-of-bounds panic carries the fixed message "index out of bounds", without the index and length that Rust prints.
- TextureLoader.LowerAscii: lower-cases ASCII letters only. Rust's `to_lowercase` also folds other scripts, but only ASCII extensions are matched.
- TextureLoader.FileName: does not normalise `.` components or a Windows prefix. The `to_str` failure branch is unreachable on Dafny strings and is not modelled.
- TextureLoader.Dispatch: the "Unknown texture image format" message quotes the extension in plain double quotes, standing in for its `OsStr` `Debug` form.
- `TextureLoader::create_default_sampler` is left out. It passes `None` to fields of `SamplerDescriptor` that `sampler.rs` declares as plain enums, so it does not fit the sampler model.
- `src/utils/material_helper.rs`, `src/utils/gltf_loader.rs`, `src/utils/file_loader.rs`, `src/utils/log.rs`, the renderer and web modules, the examples and `src/lib.rs` are not part of this model. They are GPU, window, file or network code, or a module list.
- The scene `Attribute` type used by `src/scene/geometry.rs` is a type parameter of `SceneGeometries.Geometry`, because its definition is not part of this model.
- Object getters (`src/scene/object.rs:31-57`), index getters and sampler getters are the datatypes' field selectors, and `Texture::new` and its getters are the `Texture` datatype. Because none of these mutate anything, they need no contracts of their own.
