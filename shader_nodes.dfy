/** src/material/node/node.rs and the nodes written against it (multiply,
    xyz, brdf, vector3, float, texture, texture_rgb, const_float,
    const_vector3): shader nodes live in a `ResourcePool` and refer to their
    operands by handle. `collect_nodes` lists operand handles without
    deduplication, and fragment code is generated by plain recursion.

    Recursion through handles terminates because of `Ordered`: a handle
    stored in a node either points to an earlier slot of the pool or past
    its end. A node added after its operands satisfies it, as every graph
    built by `add` alone does; `borrow_mut` can overwrite a slot with a node
    that points forward or into a cycle, and such pools are outside this
    model. A handle past the end makes the `unwrap` on `borrow` panic. */
module ShaderNodes {
  import opened Wrappers
  import opened Resource
  import opened Text
  import Decimal
  import Samplers
  import Textures

  const UnwrapNone: string := "called `Option::unwrap()` on a `None` value"

  /** `UniformContents` of node.rs, with the `Texture` variant that
      texture.rs constructs (a texture and a sampler handle) added beside
      the one that texture_rgb.rs constructs (a texture handle). */
  datatype UniformContents =
    | FloatContents(floats: seq<real>)
    | Matrix4Contents(matrix: seq<real>)
    | Vector3Contents(vector: seq<real>)
    | TextureContents(texture: ResourceId<Textures.Texture>)
    | SampledTextureContents(sampler: ResourceId<Samplers.Sampler>, sampledTexture: ResourceId<Textures.Texture>)

  type Handle = ResourceId<MaterialNode>

  datatype BRDFNodeDescriptor = BRDFNodeDescriptor(labelText: string, baseColor: Handle, metallic: Handle, roughness: Handle)

  /** One variant per node type. The private `contents` field of the
      uniform leaves is derived from their stored value by `Contents`. */
  datatype MaterialNode =
    | MultiplyNode(value1: Handle, value2: Handle)
    | XYZNode(node: Handle)
    | BRDFNode(desc: BRDFNodeDescriptor)
    | Vector3Node(vector3: seq<real>, labelText: string)
    | FloatNode(float: real, labelText: string)
    | TextureNode(textureId: ResourceId<Textures.Texture>, samplerId: ResourceId<Samplers.Sampler>, labelText: string)
    | TextureRGBNode(rgbTexture: ResourceId<Textures.Texture>, labelText: string)
    | ConstFloatNode(constFloat: real)
    | ConstVector3Node(constVector3: (real, real, real))
  {
    /** The nodes that compute from operands in the pool. */
    predicate IsOperator()
    {
      MultiplyNode? || XYZNode? || BRDFNode?
    }

    /** The nodes that feed a value in from a uniform or a texture. */
    predicate IsUniform()
    {
      Vector3Node? || FloatNode? || TextureNode? || TextureRGBNode?
    }
  }

  /** The operand handles, in the order every method visits them. */
  function Operands(n: MaterialNode): (r: seq<Handle>)
    ensures r == [] <==> !n.IsOperator()
  {
    match n
    case MultiplyNode(v1, v2) => [v1, v2]
    case XYZNode(v) => [v]
    case BRDFNode(d) => [d.baseColor, d.metallic, d.roughness]
    case _ => []
  }

  /** Every operand points below its own node or out of the pool. */
  ghost predicate Ordered(pool: seq<MaterialNode>)
  {
    forall i, k | 0 <= i < |pool| && 0 <= k < |Operands(pool[i])| ::
      Operands(pool[i])[k].id < i || Operands(pool[i])[k].id >= |pool|
  }

  /** `borrow_contents`: the uniform leaves hand out what `new` stored in
      them; every other node has none. */
  function Contents(n: MaterialNode): (r: Option<UniformContents>)
    ensures r.Some? <==> n.IsUniform()
    ensures n.Vector3Node? ==> r == Some(Vector3Contents(n.vector3))
    ensures n.FloatNode? ==> r == Some(FloatContents([n.float]))
    ensures n.TextureNode? ==> r == Some(SampledTextureContents(n.samplerId, n.textureId))
    ensures n.TextureRGBNode? ==> r == Some(TextureContents(n.rgbTexture))
  {
    match n
    case Vector3Node(v, _) => Some(Vector3Contents(v))
    case FloatNode(x, _) => Some(FloatContents([x]))
    case TextureNode(t, s, _) => Some(SampledTextureContents(s, t))
    case TextureRGBNode(t, _) => Some(TextureContents(t))
    case _ => None
  }

  /** `get_name` of the labelled leaves. */
  function Name(n: MaterialNode): string
    requires n.Vector3Node? || n.FloatNode? || n.TextureRGBNode?
  {
    match n
    case Vector3Node(_, l) => "vec3_" + l
    case FloatNode(_, l) => "f32_" + l
    case TextureRGBNode(_, l) => "texture_" + l
  }

  function TextureName(t: ResourceId<Textures.Texture>): string
  {
    "texture_" + Decimal.NatToString(t.id)
  }

  function SamplerName(s: ResourceId<Samplers.Sampler>): string
  {
    "sampler_" + Decimal.NatToString(s.id)
  }

  /** `get_prefix` of texture.rs: both handle ids, texture first. */
  function Prefix(t: ResourceId<Textures.Texture>, s: ResourceId<Samplers.Sampler>): string
  {
    "texture_" + Decimal.NatToString(t.id) + "_" + Decimal.NatToString(s.id)
  }

  /** Different (texture, sampler) pairs give different prefixes, so two
      texture nodes never name the same output variable unless they sample
      the same texture with the same sampler. */
  lemma PrefixInjective(t1: ResourceId<Textures.Texture>, s1: ResourceId<Samplers.Sampler>,
                        t2: ResourceId<Textures.Texture>, s2: ResourceId<Samplers.Sampler>)
    requires Prefix(t1, s1) == Prefix(t2, s2)
    ensures t1 == t2 && s1 == s2
  {
    var a, b := Decimal.NatToString(t1.id), Decimal.NatToString(s1.id);
    var c, d := Decimal.NatToString(t2.id), Decimal.NatToString(s2.id);
    assert a + "_" + b == Prefix(t1, s1)[8..];
    assert c + "_" + d == Prefix(t2, s2)[8..];
    SplitAtSeparator(a, b, c, d);
    Decimal.NatToStringInjective(t1.id, t2.id);
    Decimal.NatToStringInjective(s1.id, s2.id);
  }

  ghost predicate AllDigits(s: string)
  {
    forall i | 0 <= i < |s| :: '0' <= s[i] <= '9'
  }

  /** An underscore between two digit strings can only be read one way. */
  lemma SplitAtSeparator(a: string, b: string, c: string, d: string)
    requires AllDigits(a) && AllDigits(c)
    requires a + "_" + b == c + "_" + d
    ensures a == c && b == d
  {
    var w := a + "_" + b;
    if |a| == |c| {
      assert a == w[..|a|] == c;
      assert b == w[|a| + 1..] == d;
    } else {
      SeparatorAfterDigits(a, b);
      SeparatorAfterDigits(c, d);
      assert false;
    }
  }

  /** In `a + "_" + b` with `a` all digits, the first underscore is at |a|. */
  lemma SeparatorAfterDigits(a: string, b: string)
    requires AllDigits(a)
    ensures (a + "_" + b)[|a|] == '_'
    ensures forall i | 0 <= i < |a| :: (a + "_" + b)[i] == a[i]
  {
  }

  /** `build_declaration`: the uniform-block member or texture binding of a
      labelled leaf; nothing for any other node. */
  function Declaration(n: MaterialNode): (s: string)
    ensures !(n.Vector3Node? || n.FloatNode? || n.TextureRGBNode?) ==> s == ""
  {
    match n
    case Vector3Node(_, _) => Name(n) + ": vec3<f32>;\n"
    case FloatNode(_, _) => Name(n) + ": f32;\n"
    case TextureRGBNode(_, _) => "var " + Name(n) + ": texture_2d<f32>;"
    case _ => ""
  }

  /** `build_functions`: only the BRDF node contributes, and always the same
      chunk of WGSL (its text is not part of this model). */
  function Functions(n: MaterialNode, brdfChunk: string): (s: string)
    ensures s == if n.BRDFNode? then brdfChunk else ""
  {
    if n.BRDFNode? then brdfChunk else ""
  }

  /** `get_fragment_output`: the variable (or, for a constant, the literal)
      through which the node's value is used. The operator nodes use a fixed
      name whatever node they are; `show` renders an `f32` as `format!`
      does. */
  function Output(n: MaterialNode, show: real -> string): string
  {
    match n
    case MultiplyNode(_, _) => "multiply_output"
    case XYZNode(_) => "xyz_output"
    case BRDFNode(_) => "brdf_output"
    case Vector3Node(_, _) => Name(n) + "_output"
    case FloatNode(_, _) => Name(n) + "_output"
    case TextureNode(t, s, _) => Prefix(t, s) + "_output"
    case TextureRGBNode(_, _) => Name(n) + "_output"
    case ConstFloatNode(x) => show(x)
    case ConstVector3Node(v) => "vec3<f32>(" + show(v.0) + ", " + show(v.1) + ", " + show(v.2) + ")"
  }

  /** What the node at `h` appends to `nodes`: each operand's own list, in
      operand order, then the operand handles themselves. */
  function Collected(pool: seq<MaterialNode>, h: Handle): (r: Outcome<seq<Handle>>)
    requires Ordered(pool) && h.id < |pool|
    ensures !pool[h.id].IsOperator() ==> r == Ok([])
    decreases h.id, 1, 0
  {
    var ops := Operands(pool[h.id]);
    if ops == [] then Ok([])
    else
      match CollectedAll(pool, h, ops)
      case Ok(s) => Ok(s + ops)
      case Panic(m) => Panic(m)
  }

  /** The lists of `ops`, each operand unwrapped from the pool in turn. */
  function CollectedAll(pool: seq<MaterialNode>, bound: Handle, ops: seq<Handle>): (r: Outcome<seq<Handle>>)
    requires Ordered(pool)
    requires forall k | 0 <= k < |ops| :: ops[k].id < bound.id || ops[k].id >= |pool|
    decreases bound.id, 0, |ops|
  {
    if ops == [] then Ok([])
    else if ops[0].id >= |pool| then Panic(UnwrapNone)
    else
      match Collected(pool, ops[0])
      case Panic(m) => Panic(m)
      case Ok(first) =>
        match CollectedAll(pool, bound, ops[1..])
        case Panic(m) => Panic(m)
        case Ok(rest) => Ok(first + rest)
  }

  /** `collect_nodes` of the node stored under `h`, appending to `nodes`. */
  method CollectNodes(pool: ResourcePool<MaterialNode>, h: Handle, nodes: seq<Handle>) returns (r: Outcome<seq<Handle>>)
    requires Ordered(pool.resources) && h.id < |pool.resources|
    ensures r.Ok? <==> Collected(pool.resources, h).Ok?
    ensures r.Ok? ==> r.value == nodes + Collected(pool.resources, h).value
    decreases h.id, 1, 0
  {
    var ops := Operands(pool.resources[h.id]);
    assert forall k | 0 <= k < |ops| :: ops[k].id < h.id || ops[k].id >= |pool.resources|;
    r := CollectOperands(pool, h, ops, nodes);
    if r.Ok? {
      r := Ok(r.value + ops);
    }
  }

  method CollectOperands(pool: ResourcePool<MaterialNode>, bound: Handle, ops: seq<Handle>, nodes: seq<Handle>)
    returns (r: Outcome<seq<Handle>>)
    requires Ordered(pool.resources)
    requires forall k | 0 <= k < |ops| :: ops[k].id < bound.id || ops[k].id >= |pool.resources|
    ensures r.Ok? <==> CollectedAll(pool.resources, bound, ops).Ok?
    ensures r.Ok? ==> r.value == nodes + CollectedAll(pool.resources, bound, ops).value
    decreases bound.id, 0, |ops|
  {
    if ops == [] {
      return Ok(nodes);
    }
    var operand := pool.Borrow(ops[0]);
    if operand.None? {
      return Panic(UnwrapNone);
    }
    r := CollectNodes(pool, ops[0], nodes);
    if r.Panic? {
      return;
    }
    CollectedAllStep(pool.resources, bound, ops);
    ghost var first := Collected(pool.resources, ops[0]).value;
    ghost var rest := CollectedAll(pool.resources, bound, ops[1..]);
    r := CollectOperands(pool, bound, ops[1..], r.value);
    if r.Ok? {
      AppendAssociative(nodes, first, rest.value);
    }
  }

  /** One step of `CollectedAll`: the first operand's list, then the rest. */
  lemma CollectedAllStep(pool: seq<MaterialNode>, bound: Handle, ops: seq<Handle>)
    requires Ordered(pool)
    requires forall k | 0 <= k < |ops| :: ops[k].id < bound.id || ops[k].id >= |pool|
    requires ops != [] && ops[0].id < |pool|
    ensures CollectedAll(pool, bound, ops).Ok?
            <==> Collected(pool, ops[0]).Ok? && CollectedAll(pool, bound, ops[1..]).Ok?
    ensures CollectedAll(pool, bound, ops).Ok?
            ==> CollectedAll(pool, bound, ops).value == Collected(pool, ops[0]).value + CollectedAll(pool, bound, ops[1..]).value
  {
  }

  /** Everything collected is a handle of a node strictly below `h`: a node
      never lists itself, and only lists handles that resolve. */
  lemma {:induction false} CollectedBelow(pool: seq<MaterialNode>, h: Handle)
    requires Ordered(pool) && h.id < |pool|
    requires Collected(pool, h).Ok?
    ensures forall x | x in Collected(pool, h).value :: x.id < h.id
    decreases h.id, 1, 0
  {
    var ops := Operands(pool[h.id]);
    CollectedAllBelow(pool, h, ops);
    forall k | 0 <= k < |ops|
      ensures ops[k].id < h.id
    {
      if ops[k].id >= |pool| {
        CollectedAllPresent(pool, h, ops, k);
      }
    }
  }

  lemma {:induction false} CollectedAllBelow(pool: seq<MaterialNode>, bound: Handle, ops: seq<Handle>)
    requires Ordered(pool)
    requires forall k | 0 <= k < |ops| :: ops[k].id < bound.id || ops[k].id >= |pool|
    requires CollectedAll(pool, bound, ops).Ok?
    ensures forall x | x in CollectedAll(pool, bound, ops).value :: x.id < bound.id
    decreases bound.id, 0, |ops|
  {
    if ops != [] {
      CollectedBelow(pool, ops[0]);
      CollectedAllBelow(pool, bound, ops[1..]);
    }
  }

  /** A successful collection found every operand in the pool. */
  lemma {:induction false} CollectedAllPresent(pool: seq<MaterialNode>, bound: Handle, ops: seq<Handle>, k: nat)
    requires Ordered(pool)
    requires forall j | 0 <= j < |ops| :: ops[j].id < bound.id || ops[j].id >= |pool|
    requires CollectedAll(pool, bound, ops).Ok?
    requires k < |ops|
    ensures ops[k].id < |pool|
    decreases |ops|
  {
    if k > 0 {
      CollectedAllPresent(pool, bound, ops[1..], k - 1);
    }
  }

  /** No deduplication: a product of a node with itself lists that operand
      twice, at the end, and once more per reference inside it. */
  lemma MultiplySharedOperand(pool: seq<MaterialNode>, h: Handle, x: Handle)
    requires Ordered(pool) && h.id < |pool| && pool[h.id] == MultiplyNode(x, x)
    requires Collected(pool, h).Ok?
    ensures var s := Collected(pool, h).value;
            |s| >= 2 && s[|s| - 2..] == [x, x]
            && multiset(s)[x] >= 2
  {
    var s := Collected(pool, h).value;
    assert Operands(pool[h.id]) == [x, x];
    assert s[|s| - 2..] == [x, x];
    assert s == s[..|s| - 2] + [x, x];
    assert multiset(s) == multiset(s[..|s| - 2]) + multiset{x, x};
  }

  /** `build_fragment_shader`: the code of the operands, in operand order,
      then the node's own statements. Nothing is shared, so an operand used
      twice has its code emitted twice. */
  function Fragment(pool: seq<MaterialNode>, h: Handle, show: real -> string): (r: Outcome<string>)
    requires Ordered(pool) && h.id < |pool|
    ensures r.Ok? ==> Present(pool, Operands(pool[h.id]))
    ensures !Present(pool, Operands(pool[h.id])) ==> r == Panic(UnwrapNone)
    decreases h.id, 1, 0
  {
    var ops := Operands(pool[h.id]);
    if !Present(pool, ops) then Panic(UnwrapNone)
    else
      match OperandCode(pool, h, ops, show)
      case Ok(code) => Ok(code + OwnCode(pool, pool[h.id], show))
      case Panic(m) => Panic(m)
  }

  /** Every handle resolves in the pool. */
  predicate Present(pool: seq<MaterialNode>, ops: seq<Handle>)
  {
    forall k | 0 <= k < |ops| :: ops[k].id < |pool|
  }

  /** The code of each operand in turn. */
  function OperandCode(pool: seq<MaterialNode>, bound: Handle, ops: seq<Handle>, show: real -> string): (r: Outcome<string>)
    requires Ordered(pool) && Present(pool, ops)
    requires forall k | 0 <= k < |ops| :: ops[k].id < bound.id
    decreases bound.id, 0, |ops|
  {
    if ops == [] then Ok("")
    else
      match Fragment(pool, ops[0], show)
      case Panic(m) => Panic(m)
      case Ok(first) =>
        match OperandCode(pool, bound, ops[1..], show)
        case Panic(m) => Panic(m)
        case Ok(rest) => Ok(first + rest)
  }

  /** The statements a node adds after its operands' code: nothing for a
      constant, otherwise one `let` binding its output, which the BRDF node
      surrounds with its vector set-up and the light switch. */
  function OwnCode(pool: seq<MaterialNode>, n: MaterialNode, show: real -> string): string
    requires Present(pool, Operands(n))
  {
    if n.ConstFloatNode? || n.ConstVector3Node? then ""
    else if n.BRDFNode? then BrdfPrelude + Let(Output(n, show), Value(pool, n, show)) + LightOff
    else Let(Output(n, show), Value(pool, n, show))
  }

  /** The start of the statement that defines `name`. */
  function LetHead(name: string): string
  {
    "let " + name + " = "
  }

  function Let(name: string, value: string): string
  {
    LetHead(name) + value + ";\n"
  }

  /** The expression a node binds to its output variable. */
  function Value(pool: seq<MaterialNode>, n: MaterialNode, show: real -> string): string
    requires Present(pool, Operands(n))
  {
    match n
    case MultiplyNode(v1, v2) =>
      assert Operands(n)[0] == v1 && Operands(n)[1] == v2;
      Output(pool[v1.id], show) + " * " + Output(pool[v2.id], show)
    case XYZNode(v) =>
      assert Operands(n)[0] == v;
      Output(pool[v.id], show) + ".xyz"
    case BRDFNode(d) =>
      assert Operands(n)[0] == d.baseColor && Operands(n)[1] == d.metallic && Operands(n)[2] == d.roughness;
      "brdf(brdf_v, brdf_n, brdf_h, brdf_l, " + Output(pool[d.baseColor.id], show) + ", "
        + Output(pool[d.metallic.id], show) + ", " + Output(pool[d.roughness.id], show) + ")"
    case Vector3Node(_, _) => "unif." + Name(n)
    case FloatNode(_, _) => "unif." + Name(n)
    case TextureNode(t, s, _) => "textureSample(" + TextureName(t) + ", " + SamplerName(s) + ", in.uv)"
    case TextureRGBNode(_, _) => "textureLoad(" + Name(n) + ", vec2<i32>(in.uv * 256.0), 0).rgb"
    case ConstFloatNode(_) => ""
    case ConstVector3Node(_) => ""
  }

  /** The view, light, normal and half vectors the BRDF call reads. */
  const BrdfPrelude: string :=
    "let brdf_v = normalize(in.view_dir);\n"
    + "let brdf_l = normalize(light_dir);\n"
    + "let brdf_n = normalize(in.normal);\n"
    + "let brdf_h = normalize(brdf_l + brdf_v);\n"

  const LightOff: string := "use_directional_light = false;\n"

  /** A successful fragment is its operands' code followed by the node's
      own statements. */
  lemma FragmentSplit(pool: seq<MaterialNode>, h: Handle, show: real -> string)
    requires Ordered(pool) && h.id < |pool|
    requires Fragment(pool, h, show).Ok?
    ensures Present(pool, Operands(pool[h.id]))
    ensures OperandCode(pool, h, Operands(pool[h.id]), show).Ok?
    ensures Fragment(pool, h, show).value
            == OperandCode(pool, h, Operands(pool[h.id]), show).value + OwnCode(pool, pool[h.id], show)
  {
  }

  /** The code of a node that reads a uniform, samples a texture or
      computes from operands always defines the variable its output names. */
  lemma FragmentDefinesOutput(pool: seq<MaterialNode>, h: Handle, show: real -> string)
    requires Ordered(pool) && h.id < |pool|
    requires !pool[h.id].ConstFloatNode? && !pool[h.id].ConstVector3Node?
    requires Fragment(pool, h, show).Ok?
    ensures Occurs(LetHead(Output(pool[h.id], show)), Fragment(pool, h, show).value)
  {
    var n := pool[h.id];
    FragmentSplit(pool, h, show);
    var code := OperandCode(pool, h, Operands(n), show).value;
    OwnCodeDefinesOutput(pool, n, show);
    OccursInMiddle(LetHead(Output(n, show)), code, OwnCode(pool, n, show), "");
    assert code + OwnCode(pool, n, show) + "" == Fragment(pool, h, show).value;
  }

  lemma OwnCodeDefinesOutput(pool: seq<MaterialNode>, n: MaterialNode, show: real -> string)
    requires Present(pool, Operands(n))
    requires !n.ConstFloatNode? && !n.ConstVector3Node?
    ensures Occurs(LetHead(Output(n, show)), OwnCode(pool, n, show))
  {
    var name, value := Output(n, show), Value(pool, n, show);
    LetDefines(name, value);
    if n.BRDFNode? {
      OccursInMiddle(LetHead(name), BrdfPrelude, Let(name, value), LightOff);
    }
  }

  /** A `let` statement defines the name it binds. */
  lemma LetDefines(name: string, value: string)
    ensures Occurs(LetHead(name), Let(name, value))
  {
    OccursSpliced(LetHead(name), "", value + ";\n", Let(name, value));
  }

  /** A product of a node with itself emits that node's code twice before
      its own statement. */
  lemma MultiplySharedOperandCode(pool: seq<MaterialNode>, h: Handle, x: Handle, show: real -> string)
    requires Ordered(pool) && h.id < |pool| && pool[h.id] == MultiplyNode(x, x)
    requires Fragment(pool, h, show).Ok?
    ensures x.id < |pool| && Fragment(pool, x, show).Ok?
    ensures Fragment(pool, h, show).value
      == Fragment(pool, x, show).value + Fragment(pool, x, show).value + OwnCode(pool, pool[h.id], show)
  {
    var ops := Operands(pool[h.id]);
    FragmentSplit(pool, h, show);
    assert ops == [x, x] && ops[1..] == [x] && ops[1..][1..] == [];
    var fx := Fragment(pool, x, show);
    assert OperandCode(pool, h, ops[1..][1..], show) == Ok("");
    assert fx.Ok?;
    assert OperandCode(pool, h, ops[1..], show) == Ok(fx.value + "");
    assert OperandCode(pool, h, ops, show) == Ok(fx.value + (fx.value + ""));
    assert fx.value + (fx.value + "") == fx.value + fx.value;
  }

  /** The BRDF node's code always ends by switching the directional light
      off. */
  lemma BrdfEndsWithLightOff(pool: seq<MaterialNode>, h: Handle, show: real -> string)
    requires Ordered(pool) && h.id < |pool| && pool[h.id].BRDFNode?
    requires Fragment(pool, h, show).Ok?
    ensures var f := Fragment(pool, h, show).value;
            |f| >= |LightOff| && f[|f| - |LightOff|..] == LightOff
  {
    var n := pool[h.id];
    FragmentSplit(pool, h, show);
    var head := OperandCode(pool, h, Operands(n), show).value + BrdfStatements(pool, n, show);
    BrdfOwnCode(pool, n, show);
    AppendAssociative(OperandCode(pool, h, Operands(n), show).value, BrdfStatements(pool, n, show), LightOff);
    EndsWith(head, LightOff);
  }

  /** The BRDF node's own code: the vector set-up and its `let`, then the
      light switch. */
  lemma BrdfOwnCode(pool: seq<MaterialNode>, n: MaterialNode, show: real -> string)
    requires Present(pool, Operands(n)) && n.BRDFNode?
    ensures OwnCode(pool, n, show) == BrdfStatements(pool, n, show) + LightOff
  {
  }

  function BrdfStatements(pool: seq<MaterialNode>, n: MaterialNode, show: real -> string): string
    requires Present(pool, Operands(n))
  {
    BrdfPrelude + Let(Output(n, show), Value(pool, n, show))
  }

}
