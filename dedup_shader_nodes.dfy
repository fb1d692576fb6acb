/** The later shader-node interface used by src/material/node/add.rs,
    srgb_to_linear.rs, tangent_to_object_normal.rs and normal_matrix.rs:
    nodes still live in a `ResourcePool` and name their operands by handle,
    but every traversal threads a `visited` map, and output variables carry
    the node's id. A node shared by several others is listed and emitted
    once.

    As in the earlier revision, recursion through handles terminates
    because of `Ordered`: every operand handle points below its node or
    past the end of the pool, where `unwrap` panics. Pools rewritten through
    `borrow_mut` so that a node points forward or into a cycle are outside
    this model. */
module DedupShaderNodes {
  import opened Wrappers
  import opened Resource
  import opened Text
  import Decimal
  import ShaderNodes

  type Handle = ResourceId<DedupNode>

  datatype DedupNode =
    | AddNode(value1: Handle, value2: Handle)
    | SRGBToLinearNode(node: Handle)
    | TangentToObjectNormalNode(node: Handle)
    | NormalMatrixNode

  /** The operand handles, in the order both traversals visit them. */
  function Operands(n: DedupNode): (r: seq<Handle>)
    ensures r == [] <==> n.NormalMatrixNode?
  {
    match n
    case AddNode(v1, v2) => [v1, v2]
    case SRGBToLinearNode(v) => [v]
    case TangentToObjectNormalNode(v) => [v]
    case NormalMatrixNode => []
  }

  ghost predicate Ordered(pool: seq<DedupNode>)
  {
    forall i, k | 0 <= i < |pool| && 0 <= k < |Operands(pool[i])| ::
      Operands(pool[i])[k].id < i || Operands(pool[i])[k].id >= |pool|
  }

  predicate Present(pool: seq<DedupNode>, ops: seq<Handle>)
  {
    forall k | 0 <= k < |ops| :: ops[k].id < |pool|
  }

  /** `get_fragment_output`: the operators name their output after their
      kind and the id they are called with; the normal matrix is read from
      the object uniform whatever the id. */
  function Output(n: DedupNode, selfId: nat): string
  {
    match n
    case AddNode(_, _) => "add_output_" + Decimal.NatToString(selfId)
    case SRGBToLinearNode(_) => "srgb_to_linear_output_" + Decimal.NatToString(selfId)
    case TangentToObjectNormalNode(_) => "tangent_to_object_normal_output_" + Decimal.NatToString(selfId)
    case NormalMatrixNode => "object.normal_matrix"
  }

  /** Two operator outputs coincide only for the same kind and the same id,
      so no two nodes of a material define the same variable. */
  lemma OutputInjective(n1: DedupNode, id1: nat, n2: DedupNode, id2: nat)
    requires !n1.NormalMatrixNode? && !n2.NormalMatrixNode?
    requires Output(n1, id1) == Output(n2, id2)
    ensures id1 == id2
    ensures n1.AddNode? <==> n2.AddNode?
    ensures n1.SRGBToLinearNode? <==> n2.SRGBToLinearNode?
  {
    var o1, o2 := Output(n1, id1), Output(n2, id2);
    if n1.AddNode? && n2.AddNode? {
      assert Decimal.NatToString(id1) == o1[11..] == o2[11..] == Decimal.NatToString(id2);
    } else if n1.SRGBToLinearNode? && n2.SRGBToLinearNode? {
      assert Decimal.NatToString(id1) == o1[22..] == o2[22..] == Decimal.NatToString(id2);
    } else if n1.TangentToObjectNormalNode? && n2.TangentToObjectNormalNode? {
      assert Decimal.NatToString(id1) == o1[32..] == o2[32..] == Decimal.NatToString(id2);
    } else {
      OutputInitial(n1, id1);
      OutputInitial(n2, id2);
      assert false;
    }
    Decimal.NatToStringInjective(id1, id2);
  }

  /** The three operator kinds start their output names with different
      letters. */
  lemma OutputInitial(n: DedupNode, selfId: nat)
    requires !n.NormalMatrixNode?
    ensures |Output(n, selfId)| > 0
    ensures Output(n, selfId)[0] == if n.AddNode? then 'a' else if n.SRGBToLinearNode? then 's' else 't'
  {
  }

  /** `borrow_contents`: none of the four nodes owns uniform data, so a
      material built from them adds nothing to the uniform buffer. */
  function Contents(n: DedupNode): (r: Option<ShaderNodes.UniformContents>)
    ensures r.None?
  {
    None
  }

  /** `build_declaration`: none of the four nodes declares a binding or a
      uniform member, whatever id it is called with. */
  function Declaration(n: DedupNode, selfId: nat): (s: string)
    ensures s == ""
  {
    ""
  }

  /** `build_functions`: only the tangent-space normal node contributes, and
      always the same chunk, whatever id it is called with (its WGSL text is
      not part of this model). */
  function Functions(n: DedupNode, selfId: nat, chunk: string): (s: string)
    ensures s == if n.TangentToObjectNormalNode? then chunk else ""
  {
    if n.TangentToObjectNormalNode? then chunk else ""
  }

  /** The state `collect_nodes` threads through a traversal: the list it
      appends to and the handles it has marked. */
  datatype Walk = Walk(nodes: seq<Handle>, visited: set<Handle>)

  predicate NoDup(s: seq<Handle>)
  {
    forall i, j | 0 <= i < j < |s| :: s[i] != s[j]
  }

  /** The marks are exactly the listed handles, each listed once. */
  ghost predicate Tracked(w: Walk)
  {
    NoDup(w.nodes) && forall x :: x in w.visited <==> x in w.nodes
  }

  /** `collect_nodes` of the node under `h`: its operands first, in order,
      then `h` itself unless it is already marked. */
  function Collect(pool: seq<DedupNode>, h: Handle, w: Walk): Outcome<Walk>
    requires Ordered(pool) && h.id < |pool|
    decreases h.id, 1, 0
  {
    match CollectAll(pool, h, Operands(pool[h.id]), w)
    case Panic(m) => Panic(m)
    case Ok(w1) =>
      if h in w1.visited then Ok(w1) else Ok(Walk(w1.nodes + [h], w1.visited + {h}))
  }

  function CollectAll(pool: seq<DedupNode>, bound: Handle, ops: seq<Handle>, w: Walk): Outcome<Walk>
    requires Ordered(pool)
    requires forall k | 0 <= k < |ops| :: ops[k].id < bound.id || ops[k].id >= |pool|
    decreases bound.id, 0, |ops|
  {
    if ops == [] then Ok(w)
    else if ops[0].id >= |pool| then Panic(ShaderNodes.UnwrapNone)
    else
      match Collect(pool, ops[0], w)
      case Panic(m) => Panic(m)
      case Ok(w1) => CollectAll(pool, bound, ops[1..], w1)
  }

  /** A traversal only appends, marks what it appends and lists nothing
      twice; `h` is marked afterwards, and everything newly marked lies at
      or below `h`. When `h` was not marked before, it is listed last, after
      all of its operands: the list is in post-order. */
  lemma {:induction false} CollectKeepsTracked(pool: seq<DedupNode>, h: Handle, w: Walk)
    requires Ordered(pool) && h.id < |pool|
    requires Tracked(w)
    requires Collect(pool, h, w).Ok?
    ensures var w' := Collect(pool, h, w).value;
            Tracked(w') && w.nodes <= w'.nodes && w.visited <= w'.visited && h in w'.visited
            && (forall x | x in w'.visited && x !in w.visited :: x.id <= h.id)
            && (h !in w.visited ==>
                  w'.nodes[|w'.nodes| - 1] == h
                  && forall k | 0 <= k < |Operands(pool[h.id])| :: Operands(pool[h.id])[k] in w'.nodes[..|w'.nodes| - 1])
    decreases h.id, 1, 0
  {
    var ops := Operands(pool[h.id]);
    CollectAllKeepsTracked(pool, h, ops, w);
    var w1 := CollectAll(pool, h, ops, w).value;
    var w' := Collect(pool, h, w).value;
    if h in w1.visited {
      assert w' == w1;
      assert h in w.visited;
    } else {
      assert w' == Walk(w1.nodes + [h], w1.visited + {h});
      AppendUnmarked(w1, h);
      assert forall k | 0 <= k < |ops| :: ops[k] in w1.nodes;
    }
  }

  /** Listing and marking a handle not yet marked keeps the walk tracked. */
  lemma AppendUnmarked(w: Walk, h: Handle)
    requires Tracked(w) && h !in w.visited
    ensures var w' := Walk(w.nodes + [h], w.visited + {h});
            Tracked(w') && w'.nodes[..|w'.nodes| - 1] == w.nodes
  {
    var w' := Walk(w.nodes + [h], w.visited + {h});
    assert w'.nodes[..|w'.nodes| - 1] == w.nodes;
    forall i, j | 0 <= i < j < |w'.nodes|
      ensures w'.nodes[i] != w'.nodes[j]
    {
      if j == |w.nodes| {
        assert w'.nodes[i] == w.nodes[i];
      }
    }
  }

  lemma {:induction false} CollectAllKeepsTracked(pool: seq<DedupNode>, bound: Handle, ops: seq<Handle>, w: Walk)
    requires Ordered(pool)
    requires forall k | 0 <= k < |ops| :: ops[k].id < bound.id || ops[k].id >= |pool|
    requires Tracked(w)
    requires CollectAll(pool, bound, ops, w).Ok?
    ensures var w' := CollectAll(pool, bound, ops, w).value;
            Tracked(w') && w.nodes <= w'.nodes && w.visited <= w'.visited
            && (forall x | x in w'.visited && x !in w.visited :: x.id < bound.id)
            && (forall k | 0 <= k < |ops| :: ops[k] in w'.visited)
    decreases bound.id, 0, |ops|
  {
    if ops != [] {
      CollectKeepsTracked(pool, ops[0], w);
      var w1 := Collect(pool, ops[0], w).value;
      CollectAllKeepsTracked(pool, bound, ops[1..], w1);
      var w' := CollectAll(pool, bound, ops, w).value;
      forall k | 0 <= k < |ops|
        ensures ops[k] in w'.visited
      {
        if k > 0 {
          assert ops[k] == ops[1..][k - 1];
        }
      }
    }
  }

  /** The fragment code a call returns together with the ids it has marked. */
  datatype Emission = Emission(code: string, visited: set<nat>)

  /** `build_fragment_shader` called on the node under `h` with `h.id` as
      its own id. The normal matrix emits nothing and marks nothing; a node
      already marked emits nothing; any other node marks itself first, then
      emits its operands' code in order and its own `let`. */
  function Fragment(pool: seq<DedupNode>, h: Handle, visited: set<nat>): (r: Outcome<Emission>)
    requires Ordered(pool) && h.id < |pool|
    ensures r.Ok? && (pool[h.id].NormalMatrixNode? || h.id in visited) ==> r.value == Emission("", visited)
    decreases h.id, 1, 0
  {
    var n := pool[h.id];
    if n.NormalMatrixNode? || h.id in visited then Ok(Emission("", visited))
    else if !Present(pool, Operands(n)) then Panic(ShaderNodes.UnwrapNone)
    else
      match FragmentAll(pool, h, Operands(n), visited + {h.id})
      case Panic(m) => Panic(m)
      case Ok(e) => Ok(Emission(e.code + ShaderNodes.Let(Output(n, h.id), Value(pool, n)), e.visited))
  }

  function FragmentAll(pool: seq<DedupNode>, bound: Handle, ops: seq<Handle>, visited: set<nat>): Outcome<Emission>
    requires Ordered(pool) && Present(pool, ops)
    requires forall k | 0 <= k < |ops| :: ops[k].id < bound.id
    decreases bound.id, 0, |ops|
  {
    if ops == [] then Ok(Emission("", visited))
    else
      match Fragment(pool, ops[0], visited)
      case Panic(m) => Panic(m)
      case Ok(e1) =>
        match FragmentAll(pool, bound, ops[1..], e1.visited)
        case Panic(m) => Panic(m)
        case Ok(e2) => Ok(Emission(e1.code + e2.code, e2.visited))
  }

  /** The expression an operator binds to its output; operands are named by
      their own ids. */
  function Value(pool: seq<DedupNode>, n: DedupNode): string
    requires Present(pool, Operands(n))
  {
    match n
    case AddNode(v1, v2) =>
      assert Operands(n)[0] == v1 && Operands(n)[1] == v2;
      Output(pool[v1.id], v1.id) + " + " + Output(pool[v2.id], v2.id)
    case SRGBToLinearNode(v) =>
      assert Operands(n)[0] == v;
      "srgb_to_linear(" + Output(pool[v.id], v.id) + ")"
    case TangentToObjectNormalNode(v) =>
      assert Operands(n)[0] == v;
      "perturb_normal_to_arb(-in.view_position, in.normal, " + Output(pool[v.id], v.id) + ", in.uv)"
    case NormalMatrixNode => ""
  }

  /** Marks only accumulate, and an operator is marked once it has been
      emitted. */
  lemma {:induction false} FragmentMarks(pool: seq<DedupNode>, h: Handle, visited: set<nat>)
    requires Ordered(pool) && h.id < |pool|
    requires Fragment(pool, h, visited).Ok?
    ensures visited <= Fragment(pool, h, visited).value.visited
    ensures !pool[h.id].NormalMatrixNode? ==> h.id in Fragment(pool, h, visited).value.visited
    decreases h.id, 1, 0
  {
    var n := pool[h.id];
    if !n.NormalMatrixNode? && h.id !in visited {
      FragmentAllMarks(pool, h, Operands(n), visited + {h.id});
    }
  }

  lemma {:induction false} FragmentAllMarks(pool: seq<DedupNode>, bound: Handle, ops: seq<Handle>, visited: set<nat>)
    requires Ordered(pool) && Present(pool, ops)
    requires forall k | 0 <= k < |ops| :: ops[k].id < bound.id
    requires FragmentAll(pool, bound, ops, visited).Ok?
    ensures visited <= FragmentAll(pool, bound, ops, visited).value.visited
    decreases bound.id, 0, |ops|
  {
    if ops != [] {
      FragmentMarks(pool, ops[0], visited);
      FragmentAllMarks(pool, bound, ops[1..], Fragment(pool, ops[0], visited).value.visited);
    }
  }

  /** Asking again with the marks a call left behind emits nothing and
      marks nothing more: each node's code is emitted at most once per
      `visited` map. */
  lemma FragmentOnce(pool: seq<DedupNode>, h: Handle, visited: set<nat>)
    requires Ordered(pool) && h.id < |pool|
    requires Fragment(pool, h, visited).Ok?
    ensures var after := Fragment(pool, h, visited).value.visited;
            Fragment(pool, h, after) == Ok(Emission("", after))
  {
    FragmentMarks(pool, h, visited);
  }

  /** A sum of a node with itself emits that node's code once, unlike the
      product of the earlier revision. */
  lemma AddSharedOperandOnce(pool: seq<DedupNode>, h: Handle, x: Handle, visited: set<nat>)
    requires Ordered(pool) && h.id < |pool| && pool[h.id] == AddNode(x, x)
    requires h.id !in visited
    requires Fragment(pool, h, visited).Ok?
    ensures x.id < |pool| && Fragment(pool, x, visited + {h.id}).Ok?
    ensures Fragment(pool, h, visited).value.code
      == Fragment(pool, x, visited + {h.id}).value.code
         + ShaderNodes.Let(Output(pool[h.id], h.id), Output(pool[x.id], x.id) + " + " + Output(pool[x.id], x.id))
  {
    var ops := Operands(pool[h.id]);
    FragmentUnfold(pool, h, visited);
    assert ops == [x, x];
    PairOfRepeat(pool, h, x, ops, visited + {h.id});
  }

  /** The code of an operator not yet marked: its operands' code, then its
      own `let`. */
  lemma FragmentUnfold(pool: seq<DedupNode>, h: Handle, visited: set<nat>)
    requires Ordered(pool) && h.id < |pool|
    requires !pool[h.id].NormalMatrixNode? && h.id !in visited
    requires Fragment(pool, h, visited).Ok?
    ensures Present(pool, Operands(pool[h.id]))
    ensures forall k | 0 <= k < |Operands(pool[h.id])| :: Operands(pool[h.id])[k].id < h.id
    ensures FragmentAll(pool, h, Operands(pool[h.id]), visited + {h.id}).Ok?
    ensures Fragment(pool, h, visited).value.code
      == FragmentAll(pool, h, Operands(pool[h.id]), visited + {h.id}).value.code
         + ShaderNodes.Let(Output(pool[h.id], h.id), Value(pool, pool[h.id]))
  {
  }

  /** Two visits of the same operand, the second finding it marked. */
  lemma PairOfRepeat(pool: seq<DedupNode>, bound: Handle, x: Handle, ops: seq<Handle>, visited: set<nat>)
    requires Ordered(pool) && ops == [x, x] && Present(pool, ops)
    requires forall k | 0 <= k < |ops| :: ops[k].id < bound.id
    requires FragmentAll(pool, bound, ops, visited).Ok?
    ensures x.id < |pool| && Fragment(pool, x, visited).Ok?
    ensures FragmentAll(pool, bound, ops, visited).value.code == Fragment(pool, x, visited).value.code
  {
    assert ops[1..] == [x] && ops[1..][1..] == [];
    var e1 := Fragment(pool, x, visited).value;
    FragmentOnce(pool, x, visited);
    assert FragmentAll(pool, bound, ops[1..], e1.visited).value.code == "";
  }

  /** The code of a node not yet marked defines the variable its output
      names. */
  lemma FragmentDefinesOutput(pool: seq<DedupNode>, h: Handle, visited: set<nat>)
    requires Ordered(pool) && h.id < |pool|
    requires !pool[h.id].NormalMatrixNode? && h.id !in visited
    requires Fragment(pool, h, visited).Ok?
    ensures Occurs(ShaderNodes.LetHead(Output(pool[h.id], h.id)), Fragment(pool, h, visited).value.code)
  {
    var n := pool[h.id];
    FragmentUnfold(pool, h, visited);
    var operands := FragmentAll(pool, h, Operands(n), visited + {h.id}).value.code;
    var stmt := ShaderNodes.Let(Output(n, h.id), Value(pool, n));
    ShaderNodes.LetDefines(Output(n, h.id), Value(pool, n));
    OccursInMiddle(ShaderNodes.LetHead(Output(n, h.id)), operands, stmt, "");
    assert operands + stmt + "" == Fragment(pool, h, visited).value.code;
  }

  /** `collect_nodes` with its two `&mut` arguments: the list of handles and
      the map of marked handles (a set, since every value stored is `true`). */
  class NodeCollector {
    var nodes: seq<Handle>
    var visited: set<Handle>

    constructor ()
      ensures nodes == [] && visited == {}
    {
      nodes := [];
      visited := {};
    }

    method CollectNodes(pool: ResourcePool<DedupNode>, h: Handle) returns (r: Outcome<()>)
      requires Ordered(pool.resources) && h.id < |pool.resources|
      modifies this
      ensures r.Ok? <==> Collect(pool.resources, h, old(Walk(nodes, visited))).Ok?
      ensures r.Ok? ==> Walk(nodes, visited) == Collect(pool.resources, h, old(Walk(nodes, visited))).value
      decreases h.id, 1, 0
    {
      var ops := Operands(pool.resources[h.id]);
      r := CollectOperands(pool, h, ops);
      if r.Ok? && h !in visited {
        visited := visited + {h};
        nodes := nodes + [h];
      }
    }

    method CollectOperands(pool: ResourcePool<DedupNode>, bound: Handle, ops: seq<Handle>) returns (r: Outcome<()>)
      requires Ordered(pool.resources)
      requires forall k | 0 <= k < |ops| :: ops[k].id < bound.id || ops[k].id >= |pool.resources|
      modifies this
      ensures r.Ok? <==> CollectAll(pool.resources, bound, ops, old(Walk(nodes, visited))).Ok?
      ensures r.Ok? ==> Walk(nodes, visited) == CollectAll(pool.resources, bound, ops, old(Walk(nodes, visited))).value
      decreases bound.id, 0, |ops|
    {
      if ops == [] {
        return Ok(());
      }
      var operand := pool.Borrow(ops[0]);
      if operand.None? {
        return Panic(ShaderNodes.UnwrapNone);
      }
      r := CollectNodes(pool, ops[0]);
      if r.Ok? {
        r := CollectOperands(pool, bound, ops[1..]);
      }
    }
  }

  /** `build_fragment_shader` with its `&mut` map of marked ids. */
  class FragmentBuilder {
    var visited: set<nat>

    constructor ()
      ensures visited == {}
    {
      visited := {};
    }

    method BuildFragmentShader(pool: ResourcePool<DedupNode>, h: Handle) returns (r: Outcome<string>)
      requires Ordered(pool.resources) && h.id < |pool.resources|
      modifies this
      ensures r.Ok? <==> Fragment(pool.resources, h, old(visited)).Ok?
      ensures r.Ok? ==> r.value == Fragment(pool.resources, h, old(visited)).value.code
                        && visited == Fragment(pool.resources, h, old(visited)).value.visited
      decreases h.id, 1, 0
    {
      var n := pool.resources[h.id];
      if n.NormalMatrixNode? || h.id in visited {
        return Ok("");
      }
      visited := visited + {h.id};
      var ops := Operands(n);
      if !Present(pool.resources, ops) {
        return Panic(ShaderNodes.UnwrapNone);
      }
      r := BuildOperands(pool, h, ops);
      if r.Ok? {
        r := Ok(r.value + ShaderNodes.Let(Output(n, h.id), Value(pool.resources, n)));
      }
    }

    method BuildOperands(pool: ResourcePool<DedupNode>, bound: Handle, ops: seq<Handle>) returns (r: Outcome<string>)
      requires Ordered(pool.resources) && Present(pool.resources, ops)
      requires forall k | 0 <= k < |ops| :: ops[k].id < bound.id
      modifies this
      ensures r.Ok? <==> FragmentAll(pool.resources, bound, ops, old(visited)).Ok?
      ensures r.Ok? ==> r.value == FragmentAll(pool.resources, bound, ops, old(visited)).value.code
                        && visited == FragmentAll(pool.resources, bound, ops, old(visited)).value.visited
      decreases bound.id, 0, |ops|
    {
      if ops == [] {
        return Ok("");
      }
      var first := BuildFragmentShader(pool, ops[0]);
      if first.Panic? {
        return first;
      }
      var rest := BuildOperands(pool, bound, ops[1..]);
      if rest.Panic? {
        return rest;
      }
      r := Ok(first.value + rest.value);
    }
  }
}
