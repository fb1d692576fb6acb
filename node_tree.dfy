/** src/material/node.rs: the first shader-node interface, an owned tree.
    Leaves carry uniform contents; a `MultiplyNode` owns its two operands. */
module NodeTree {
  import opened Wrappers
  import Textures
  import opened Text

  datatype UniformContents =
    | Matrix4Contents(matrix: seq<real>)
    | Vector3Contents(vector: seq<real>)
    | TextureContents(texture: Textures.Texture)

  datatype Node =
    | Vector3Node(contents: UniformContents, labelText: string)
    | TextureRGBNode(contents: UniformContents, labelText: string)
    | MultiplyNode(value1: Node, value2: Node)
  {
    predicate IsLeaf()
    {
      !MultiplyNode?
    }
  }

  function NewVector3Node(labelText: string, value: seq<real>): (n: Node)
    requires |value| == 3
    ensures n.Vector3Node? && n.labelText == labelText
    ensures Contents(n) == Some(Vector3Contents(value))
  {
    Vector3Node(Vector3Contents(value), labelText)
  }

  function NewTextureRGBNode(labelText: string, texture: Textures.Texture): (n: Node)
    ensures n.TextureRGBNode? && n.labelText == labelText
    ensures Contents(n) == Some(TextureContents(texture))
  {
    TextureRGBNode(TextureContents(texture), labelText)
  }

  /** `get_name`: leaves are named after their label with a prefix telling
      the two kinds apart; a product has the empty name. */
  function Name(n: Node): (s: string)
  {
    match n
    case Vector3Node(_, labelText) => "vec3_" + labelText
    case TextureRGBNode(_, labelText) => "texture_" + labelText
    case MultiplyNode(_, _) => ""
  }

  lemma NameInitial(n: Node)
    requires n.IsLeaf()
    ensures |Name(n)| > 0 && Name(n)[0] == if n.Vector3Node? then 'v' else 't'
  {
  }

  /** Two leaves get the same name only when they are of the same kind and
      carry the same label. */
  lemma LeafNamesDistinct(a: Node, b: Node)
    requires a.IsLeaf() && b.IsLeaf()
    requires Name(a) == Name(b)
    ensures a.Vector3Node? <==> b.Vector3Node?
    ensures a.labelText == b.labelText
  {
    if a.Vector3Node? && b.Vector3Node? {
      assert a.labelText == Name(a)[5..] == Name(b)[5..] == b.labelText;
    } else if a.TextureRGBNode? && b.TextureRGBNode? {
      assert a.labelText == Name(a)[8..] == Name(b)[8..] == b.labelText;
    } else {
      NameInitial(a);
      NameInitial(b);
      assert false;
    }
  }

  /** `borrow_contents`: only leaves hold uniform data. */
  function Contents(n: Node): (r: Option<UniformContents>)
    ensures r.Some? <==> n.IsLeaf()
    ensures r.Some? ==> r.value == n.contents
  {
    if n.MultiplyNode? then None else Some(n.contents)
  }

  /** The leaves of a tree, left to right: what `collect_leaf_nodes` appends. */
  function Leaves(n: Node): (r: seq<Node>)
    ensures 1 <= |r|
    ensures forall i | 0 <= i < |r| :: r[i].IsLeaf()
    ensures n.IsLeaf() ==> r == [n]
  {
    match n
    case MultiplyNode(v1, v2) => Leaves(v1) + Leaves(v2)
    case _ => [n]
  }

  /** Appends the leaves of `n` to `nodes`; nothing already there moves. */
  method CollectLeafNodes(n: Node, nodes: seq<Node>) returns (out: seq<Node>)
    ensures out == nodes + Leaves(n)
  {
    match n
    case MultiplyNode(v1, v2) =>
      out := CollectLeafNodes(v1, nodes);
      out := CollectLeafNodes(v2, out);
    case _ =>
      out := nodes + [n];
  }

  /** `build_declaration`: a leaf declares its uniform or texture binding; a
      product declares what its operands declare, with no separator. */
  function Declaration(n: Node): string
  {
    match n
    case Vector3Node(_, _) => Name(n) + ": vec3<f32>"
    case TextureRGBNode(_, _) => "var " + Name(n) + ": texture_2d<f32>"
    case MultiplyNode(v1, v2) => Declaration(v1) + Declaration(v2)
  }

  function ConcatDeclarations(nodes: seq<Node>): string
  {
    if nodes == [] then "" else Declaration(nodes[0]) + ConcatDeclarations(nodes[1..])
  }

  lemma {:induction false} ConcatDeclarationsAppend(a: seq<Node>, b: seq<Node>)
    ensures ConcatDeclarations(a + b) == ConcatDeclarations(a) + ConcatDeclarations(b)
  {
    if a != [] {
      assert (a + b)[1..] == a[1..] + b;
      ConcatDeclarationsAppend(a[1..], b);
    } else {
      assert a + b == b;
    }
  }

  /** The declaration of a tree is the declarations of the leaves it
      collects, in the order it collects them. */
  lemma {:induction false} DeclarationIsLeafDeclarations(n: Node)
    ensures Declaration(n) == ConcatDeclarations(Leaves(n))
  {
    match n
    case MultiplyNode(v1, v2) =>
      DeclarationIsLeafDeclarations(v1);
      DeclarationIsLeafDeclarations(v2);
      ConcatDeclarationsAppend(Leaves(v1), Leaves(v2));
    case _ =>
      assert Leaves(n)[1..] == [];
  }

  /** `build_fragment_shader`: an expression, not a statement. A leaf reads
      its uniform or samples its texture; a product is parenthesised. */
  function Fragment(n: Node): (s: string)
    ensures 1 <= |s|

  {
    match n
    case Vector3Node(_, _) => "unif." + Name(n)
    case TextureRGBNode(_, _) => "textureLoad(" + Name(n) + ", vec2<i32>(in.uv * 256.0), 0).rgb"
    case MultiplyNode(v1, v2) => "(" + Fragment(v1) + " * " + Fragment(v2) + ")"
  }

  /** Only a product's expression starts with a parenthesis: a leaf's starts
      with `unif.` or `textureLoad(`. */
  lemma FragmentParenthesised(n: Node)
    ensures Fragment(n)[0] == '(' <==> n.MultiplyNode?
  {
  }

  /** Every leaf's expression appears in the expression of the whole tree. */
  lemma {:induction false} FragmentContainsLeaves(n: Node, i: nat)
    requires i < |Leaves(n)|
    ensures Occurs(Fragment(Leaves(n)[i]), Fragment(n))
  {
    match n
    case MultiplyNode(v1, v2) =>
      var leaf := Leaves(n)[i];
      if i < |Leaves(v1)| {
        assert leaf == Leaves(v1)[i];
        FragmentContainsLeaves(v1, i);
        ProductContains(v1, v2, Fragment(leaf), true);
      } else {
        assert leaf == Leaves(v2)[i - |Leaves(v1)|];
        FragmentContainsLeaves(v2, i - |Leaves(v1)|);
        ProductContains(v1, v2, Fragment(leaf), false);
      }
    case _ =>
      OccursSelf(Fragment(n));
  }

  /** Text found in either operand's expression is found in the product's. */
  lemma ProductContains(v1: Node, v2: Node, sub: string, left: bool)
    requires if left then Occurs(sub, Fragment(v1)) else Occurs(sub, Fragment(v2))
    ensures Occurs(sub, Fragment(MultiplyNode(v1, v2)))
  {
    var f1, f2 := Fragment(v1), Fragment(v2);
    assert Fragment(MultiplyNode(v1, v2)) == "(" + f1 + " * " + f2 + ")";
    if left {
      AppendAssociative("(" + f1 + " * ", f2, ")");
      AppendAssociative("(" + f1, " * ", f2 + ")");
      OccursInMiddle(sub, "(", f1, " * " + (f2 + ")"));
    } else {
      OccursInMiddle(sub, "(" + f1 + " * ", f2, ")");
    }
  }
}
