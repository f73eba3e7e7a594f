/** What the Gemm pass leaves behind, told from the old and the new lists alone. */
module GemmComplete {
  import opened Wrappers
  import opened Tensors
  import opened Numerals
  import opened OnnxGraph
  import opened GemmLowering
  import A = AffineTensors

  /** A plain product with a constant matrix and perhaps a summand: nothing transposed on the left, nothing scaled. */
  predicate Linear(arrays: Env, n: Node) {
    && n.op.Gemm? && |n.inputs| >= 2 && n.inputs[1] in arrays
    && n.op.transA == 0 && n.op.alpha == 1.0 && (|n.inputs| >= 3 ==> n.op.beta == 1.0)
    && (n.op.transB == 1 ==> |arrays[n.inputs[1]].shape| == 2)
  }

  /** The right side of the product: the weight, or a new constant that holds it transposed. */
  ghost predicate RightSide(arrays: Env, inits: seq<Initializer>, n: Node, rhs: string)
    requires Linear(arrays, n)
  {
    if n.op.transB == 1 then Initializer(rhs, A.Flip(arrays[n.inputs[1]])) in inits && rhs !in arrays else rhs == n.inputs[1]
  }

  /** The product stands in the list, and, if the node has a summand, its addition; they produce what the node produced. */
  ghost predicate Stands(nodes: seq<Node>, n: Node, rhs: string)
    requires |n.inputs| >= 2
  {
    if |n.inputs| >= 3 && n.inputs[2] != "" then
      exists p, q :: p in nodes && q in nodes && p.op.MatMul? && p.inputs == [n.inputs[0], rhs] && |p.outputs| == 1
                     && q.op == Binary(Add) && q.inputs == [p.outputs[0], n.inputs[2]] && q.outputs == n.outputs
    else exists p :: p in nodes && p.op.MatMul? && p.inputs == [n.inputs[0], rhs] && p.outputs == n.outputs
  }

  ghost predicate IsStanding(arrays: Env, nodes: seq<Node>, inits: seq<Initializer>, n: Node) {
    Linear(arrays, n) && exists rhs :: RightSide(arrays, inits, n, rhs) && Stands(nodes, n, rhs)
  }

  /** Every linear Gemm is gone and its product stands; every other node is still there. */
  ghost predicate Lifted(arrays: Env, source: seq<Node>, nodes: seq<Node>, inits: seq<Initializer>) {
    && (forall n | n in nodes && n.op.Gemm? :: n in source && !Linear(arrays, n))
    && (forall n | n in source && Linear(arrays, n) :: IsStanding(arrays, nodes, inits, n))
    && (forall n | n in source && !Linear(arrays, n) :: n in nodes)
  }

  function Linears(arrays: Env, nodes: seq<Node>): nat {
    if nodes == [] then 0 else Linears(arrays, nodes[..|nodes| - 1]) + if Linear(arrays, nodes[|nodes| - 1]) then 1 else 0
  }

  lemma ProductStands(arrays: Env, n: Node, index: nat, rhs: string)
    requires Linear(arrays, n) && |n.outputs| == 1
    ensures Stands(Product(n, index, rhs), n, rhs) && forall p | p in Product(n, index, rhs) :: !p.op.Gemm?
  {
    var nodes := Product(n, index, rhs);
    if HasBias(n) {
      assert nodes[0] in nodes && nodes[1] in nodes;
    } else {
      assert nodes[0] in nodes;
    }
  }

  lemma StandsOn(nodes: seq<Node>, more: seq<Node>, n: Node, rhs: string)
    requires |n.inputs| >= 2 && Stands(nodes, n, rhs)
    ensures Stands(nodes + more, n, rhs) && Stands(more + nodes, n, rhs)
  {}

  lemma IsStandingOn(arrays: Env, nodes: seq<Node>, more: seq<Node>, inits: seq<Initializer>, extra: seq<Initializer>, n: Node)
    requires IsStanding(arrays, nodes, inits, n)
    ensures IsStanding(arrays, nodes + more, inits + extra, n)
  {
    hide Stands, Linear;
    LinearInputs(arrays, n);
    var rhs :| RightSide(arrays, inits, n, rhs) && Stands(nodes, n, rhs);
    StandsOn(nodes, more, n, rhs);
    assert RightSide(arrays, inits + extra, n, rhs);
  }

  lemma LinearInputs(arrays: Env, n: Node)
    requires Linear(arrays, n)
    ensures |n.inputs| >= 2 && n.op.Gemm?
  {}

  lemma SupportedIsLinear(arrays: Env, n: Node)
    ensures Supported(arrays, n) <==> Linear(arrays, n)
  {}

  lemma {:induction false} ProgressLifts(nodes: seq<Node>, k: nat, arrays: Env)
    requires k <= |nodes| && GemmsHaveOutput(nodes)
    ensures var p := LowerGemms(nodes, k, arrays);
      Lifted(arrays, nodes[..k], p.nodes, p.inits) && p.lowered == Linears(arrays, nodes[..k]) && arrays.Keys <= p.used
  {
    hide Linear, Supported, Product, FreshFrom, Lifted, Linears;
    if k == 0 {
      assert nodes[..0] == [];
      NothingLifted(arrays);
    } else {
      ProgressLifts(nodes, k - 1, arrays);
      var n := nodes[k - 1];
      if Linear(arrays, n) {
        LinearLifts(nodes, k, arrays);
      } else {
        SupportedIsLinear(arrays, n);
        assert nodes[..k] == nodes[..k - 1] + [n];
        OneMoreLinear(arrays, nodes[..k - 1], n);
        KeepOneMore(arrays, nodes[..k - 1], n, LowerGemms(nodes, k - 1, arrays).nodes, LowerGemms(nodes, k - 1, arrays).inits);
      }
    }
  }

  lemma NothingLifted(arrays: Env)
    ensures Lifted(arrays, [], [], []) && Linears(arrays, []) == 0
  {}

  /** One more node of another kind. */
  lemma KeepOneMore(arrays: Env, source: seq<Node>, n: Node, nodes: seq<Node>, inits: seq<Initializer>)
    requires Lifted(arrays, source, nodes, inits) && !Linear(arrays, n)
    ensures Lifted(arrays, source + [n], nodes + [n], inits)
  {
    hide Linear, IsStanding;
    forall m | m in source && Linear(arrays, m) ensures IsStanding(arrays, nodes + [n], inits, m) {
      IsStandingOn(arrays, nodes, [n], inits, [], m);
      assert inits + [] == inits;
    }
  }

  /** One more linear Gemm whose product stands. */
  lemma LiftOneMore(
    arrays: Env, source: seq<Node>, n: Node, nodes: seq<Node>, inits: seq<Initializer>, product: seq<Node>, more: seq<Initializer>, rhs: string)
    requires Lifted(arrays, source, nodes, inits) && Linear(arrays, n) && |n.inputs| >= 2
    requires RightSide(arrays, inits + more, n, rhs) && Stands(product, n, rhs) && forall p | p in product :: !p.op.Gemm?
    ensures Lifted(arrays, source + [n], nodes + product, inits + more)
  {
    hide Linear, IsStanding, Stands, RightSide;
    StandsOn(product, nodes, n, rhs);
    Standing(arrays, nodes + product, inits + more, n, rhs);
    forall m | m in source && Linear(arrays, m) ensures IsStanding(arrays, nodes + product, inits + more, m) {
      IsStandingOn(arrays, nodes, product, inits, more, m);
    }
  }

  lemma LinearLifts(nodes: seq<Node>, k: nat, arrays: Env)
    requires 1 <= k <= |nodes| && GemmsHaveOutput(nodes) && Linear(arrays, nodes[k - 1])
    requires var p := LowerGemms(nodes, k - 1, arrays);
      Lifted(arrays, nodes[..k - 1], p.nodes, p.inits) && p.lowered == Linears(arrays, nodes[..k - 1]) && arrays.Keys <= p.used
    ensures var p := LowerGemms(nodes, k, arrays);
      Lifted(arrays, nodes[..k], p.nodes, p.inits) && p.lowered == Linears(arrays, nodes[..k]) && arrays.Keys <= p.used
  {
    hide Linear, Supported, IsStanding, Product, FreshFrom, Linears, Stands, Lifted;
    var n, before := nodes[k - 1], LowerGemms(nodes, k - 1, arrays);
    LinearInputs(arrays, n);
    SupportedIsLinear(arrays, n);
    SupportedMeans(arrays, n);
    var rhs := if n.op.transB == 1 then RhsName(n, before.used) else n.inputs[1];
    var more := if n.op.transB == 1 then [Initializer(rhs, A.Flip(arrays[n.inputs[1]]))] else [];
    var product, p := Product(n, k - 1, rhs), LowerGemms(nodes, k, arrays);
    assert p.nodes == before.nodes + product && p.inits == before.inits + more;
    ProductStands(arrays, n, k - 1, rhs);
    assert RightSide(arrays, before.inits + more, n, rhs);
    LiftOneMore(arrays, nodes[..k - 1], n, before.nodes, before.inits, product, more, rhs);
    assert nodes[..k] == nodes[..k - 1] + [n];
    OneMoreLinear(arrays, nodes[..k - 1], n);
  }

  lemma Standing(arrays: Env, nodes: seq<Node>, inits: seq<Initializer>, n: Node, rhs: string)
    requires Linear(arrays, n) && RightSide(arrays, inits, n, rhs) && Stands(nodes, n, rhs)
    ensures IsStanding(arrays, nodes, inits, n)
  {}

  lemma OneMoreLinear(arrays: Env, nodes: seq<Node>, n: Node)
    ensures Linears(arrays, nodes + [n]) == Linears(arrays, nodes) + if Linear(arrays, n) then 1 else 0
  {
    assert (nodes + [n])[..|nodes|] == nodes;
  }

  /** Every other Gemm is reported, by its name or by its place in the list, and nothing else is. */
  lemma {:induction false} ProgressReports(nodes: seq<Node>, k: nat, arrays: Env)
    requires k <= |nodes| && GemmsHaveOutput(nodes)
    ensures var skipped := LowerGemms(nodes, k, arrays).skipped;
      && (forall j | 0 <= j < k && nodes[j].op.Gemm? && !Linear(arrays, nodes[j]) :: Report(nodes[j], j) in skipped)
      && (forall name | name in skipped :: exists j :: 0 <= j < k && nodes[j].op.Gemm? && !Linear(arrays, nodes[j]) && name == Report(nodes[j], j))
  {
    hide Linear, Supported, Product, FreshFrom, Decimal;
    if k > 0 {
      ProgressReports(nodes, k - 1, arrays);
      SupportedIsLinear(arrays, nodes[k - 1]);
    }
  }

  function Report(n: Node, index: nat): string { if n.name == "" then "Gemm[" + Decimal(index) + "]" else n.name }

  /** The old constants stay in front of the new ones. */
  lemma LiftedBehind(arrays: Env, source: seq<Node>, nodes: seq<Node>, consts: seq<Initializer>, inits: seq<Initializer>)
    requires Lifted(arrays, source, nodes, inits)
    ensures Lifted(arrays, source, nodes, consts + inits)
  {
    hide Linear, Stands;
    forall n | n in source && Linear(arrays, n) ensures IsStanding(arrays, nodes, consts + inits, n) {
      LinearInputs(arrays, n);
      var rhs :| RightSide(arrays, inits, n, rhs) && Stands(nodes, n, rhs);
      assert RightSide(arrays, consts + inits, n, rhs);
    }
  }
}
