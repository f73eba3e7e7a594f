/** The layout search told without its loops: which regions do not care about the layout, and that every pair whose region is one
    is found, loses its transpose and reads the tensor behind it. */
module AffineSearch {
  import opened Wrappers
  import opened Tensors
  import opened OnnxGraph
  import opened AffineBlocks
  import opened AffineLowering
  import opened Lookups
  import opened AffineRegions
  import opened AffineTheorem
  import opened AffineComplete
  import opened GraphAgreement
  import A = AffineTensors

  // ---------------------------------------------------------------- the region of a pair

  predicate ReadsAny(n: Node, names: set<string>) { exists i | 0 <= i < |n.inputs| :: n.inputs[i] in names }

  /** The set holds the first convolution's output and, with a tensor, whatever is made of it, except by the pair itself. */
  ghost predicate Closed(nodes: seq<Node>, first: Node, second: Node, names: set<string>)
    requires |first.outputs| == 1
  {
    && first.outputs[0] in names
    && forall n | n in nodes && n.name != first.name && n.name != second.name && ReadsAny(n, names) :: Names(n.outputs) <= names
  }

  ghost predicate LeastClosed(nodes: seq<Node>, first: Node, second: Node, names: set<string>)
    requires |first.outputs| == 1
  {
    Closed(nodes, first, second, names) && forall other: set<string> | Closed(nodes, first, second, other) :: names <= other
  }

  /** A constant of one element. */
  ghost predicate IsScalar(nodes: seq<Node>, arrays: Env, x: string) {
    || (x in arrays && Single(arrays[x]))
    || exists n :: n in nodes && n.op.Constant? && n.outputs == [x] && n.op.value.Some? && Single(n.op.value.value)
  }

  /** The region is element-wise all through, with nothing but scalars besides, feeds the second convolution and holds no output. */
  ghost predicate AnyLayout(nodes: seq<Node>, arrays: Env, outputs: seq<string>, first: Node, second: Node, region: set<string>)
    requires |first.outputs| == 1 && |second.inputs| >= 1
  {
    && LeastClosed(nodes, first, second, region)
    && (forall n | n in nodes && n.name != first.name && n.name != second.name && ReadsAny(n, region) ::
          || (n.op.Unary? && |n.inputs| == 1)
          || (n.op.Binary? && forall i | 0 <= i < |n.inputs| :: n.inputs[i] in region || IsScalar(nodes, arrays, n.inputs[i])))
    && second.inputs[0] in region && (forall o | o in outputs :: o !in region)
  }

  // ---------------------------------------------------------------- scalars

  lemma {:induction false} ConstantScalarsAre(nodes: seq<Node>, x: string)
    ensures x in ConstantScalars(nodes)
        <==> exists n :: n in nodes && n.op.Constant? && n.outputs == [x] && n.op.value.Some? && Single(n.op.value.value)
  {
    if nodes != [] {
      var m := |nodes| - 1;
      ConstantScalarsAre(nodes[..m], x);
      assert nodes == nodes[..m] + [nodes[m]];
      if nodes[m].op.Constant? && |nodes[m].outputs| == 1 { assert nodes[m].outputs == [nodes[m].outputs[0]]; }
    }
  }

  lemma ScalarsAre(nodes: seq<Node>, arrays: Env, x: string)
    ensures x in ScalarNames(nodes, arrays) <==> IsScalar(nodes, arrays, x)
  {
    ConstantScalarsAre(nodes, x);
  }

  // ---------------------------------------------------------------- the scan

  /** All the scan would collect if nothing ruled the region out. */
  function Reach(nodes: seq<Node>, k: nat, first: Node, second: Node): set<string>
    requires k <= |nodes| && |first.outputs| == 1
  {
    if k == 0 then {first.outputs[0]}
    else
      var before, n := Reach(nodes, k - 1, first, second), nodes[k - 1];
      if n.name == first.name || n.name == second.name || !ReadsAny(n, before) then before else before + Names(n.outputs)
  }

  lemma {:induction false} ReachGrows(nodes: seq<Node>, j: nat, k: nat, first: Node, second: Node)
    requires j <= k <= |nodes| && |first.outputs| == 1
    ensures Reach(nodes, j, first, second) <= Reach(nodes, k, first, second)
    decreases k
  {
    if j < k { ReachGrows(nodes, j, k - 1, first, second); }
  }

  /** What it collects from node `j` on is produced there. */
  lemma {:induction false} ReachAdds(nodes: seq<Node>, j: nat, k: nat, first: Node, second: Node, x: string)
    requires j <= k <= |nodes| && |first.outputs| == 1 && x in Reach(nodes, k, first, second) && x !in Reach(nodes, j, first, second)
    ensures exists i :: j <= i < k && Produces(nodes[i], x)
    decreases k
  {
    if x in Reach(nodes, k - 1, first, second) {
      ReachAdds(nodes, j, k - 1, first, second, x);
    } else {
      assert Produces(nodes[k - 1], x);
    }
  }

  /** What a node reads of the region was collected before it. */
  lemma ReadBefore(nodes: seq<Node>, given: set<string>, k: nat, first: Node, second: Node, x: string)
    requires SingleAssignment(nodes, given) && Ordered(nodes, given) && |first.outputs| == 1 && first.outputs[0] != ""
    requires k < |nodes| && Reads(nodes[k], x) && x in Reach(nodes, |nodes|, first, second)
    ensures x in Reach(nodes, k, first, second)
  {
    if x !in Reach(nodes, k, first, second) {
      ReachAdds(nodes, k, |nodes|, first, second, x);
      var i :| k <= i < |nodes| && Produces(nodes[i], x);
      assert OrderedAt(nodes, given, k);
      if x !in given { var j := OutsFrom(nodes, k, x); }
    }
  }

  lemma ReachIsClosed(nodes: seq<Node>, given: set<string>, first: Node, second: Node)
    requires SingleAssignment(nodes, given) && Ordered(nodes, given) && |first.outputs| == 1 && first.outputs[0] != ""
    ensures Closed(nodes, first, second, Reach(nodes, |nodes|, first, second))
  {
    hide SingleAssignment, Ordered;
    var all := Reach(nodes, |nodes|, first, second);
    ReachGrows(nodes, 0, |nodes|, first, second);
    forall n | n in nodes && n.name != first.name && n.name != second.name && ReadsAny(n, all) ensures Names(n.outputs) <= all {
      var k :| 0 <= k < |nodes| && nodes[k] == n;
      var i :| 0 <= i < |n.inputs| && n.inputs[i] in all;
      ReadBefore(nodes, given, k, first, second, n.inputs[i]);
      ReachGrows(nodes, k + 1, |nodes|, first, second);
    }
  }

  lemma {:induction false} ReachIsLeast(nodes: seq<Node>, k: nat, first: Node, second: Node, names: set<string>)
    requires k <= |nodes| && |first.outputs| == 1 && Closed(nodes, first, second, names)
    ensures Reach(nodes, k, first, second) <= names
  {
    if k > 0 {
      ReachIsLeast(nodes, k - 1, first, second, names);
      assert nodes[k - 1] in nodes;
    }
  }

  /** The scan collects just that, as long as it goes on. */
  lemma {:induction false} ScanIsReach(nodes: seq<Node>, k: nat, first: Node, second: Node, scalars: set<string>)
    requires k <= |nodes| && |first.outputs| == 1
    ensures var scan := Scan(nodes, k, first, second, scalars);
      && (scan.Some? ==> scan.value == Reach(nodes, k, first, second))
      && (scan.Some? <==> forall j | 0 <= j < k :: Goes(nodes, j, first, second, scalars))
  {
    if k > 0 {
      ScanIsReach(nodes, k - 1, first, second, scalars);
      assert (forall j | 0 <= j < k :: Goes(nodes, j, first, second, scalars))
        <==> (forall j | 0 <= j < k - 1 :: Goes(nodes, j, first, second, scalars)) && Goes(nodes, k - 1, first, second, scalars);
    }
  }

  /** Node `j` does not rule the region out. */
  predicate Goes(nodes: seq<Node>, j: nat, first: Node, second: Node, scalars: set<string>)
    requires j < |nodes| && |first.outputs| == 1
  {
    var n, before := nodes[j], Reach(nodes, j, first, second);
    n.name == first.name || n.name == second.name || !ReadsAny(n, before) || Passes(n, before, scalars)
  }

  /** The loop decides whether the pair has such a region. */
  lemma PathExactly(nodes: seq<Node>, given: set<string>, arrays: Env, outputs: seq<string>, first: Node, second: Node)
    requires SingleAssignment(nodes, given) && Ordered(nodes, given)
    requires |first.outputs| == 1 && first.outputs[0] != "" && |second.inputs| >= 1
    ensures HasLayoutInvariantPath(nodes, outputs, first, second, ScalarNames(nodes, arrays))
        <==> exists region :: AnyLayout(nodes, arrays, outputs, first, second, region)
  {
    hide SingleAssignment, Ordered, IsScalar, ScalarNames, Scan;
    var all, scalars := Reach(nodes, |nodes|, first, second), ScalarNames(nodes, arrays);
    ScanIsReach(nodes, |nodes|, first, second, scalars);
    ReachIsClosed(nodes, given, first, second);
    forall x ensures x in scalars <==> IsScalar(nodes, arrays, x) { ScalarsAre(nodes, arrays, x); }
    forall other: set<string> | Closed(nodes, first, second, other) ensures all <= other {
      ReachIsLeast(nodes, |nodes|, first, second, other);
    }
    forall region | LeastClosed(nodes, first, second, region) ensures region == all {}
    GoesEverywhere(nodes, given, first, second, scalars);
    if HasLayoutInvariantPath(nodes, outputs, first, second, scalars) {
      assert AnyLayout(nodes, arrays, outputs, first, second, all);
    }
  }

  /** The node has no part in the region, or takes part element by element. */
  predicate TakesPart(n: Node, first: Node, second: Node, region: set<string>, scalars: set<string>) {
    n.name != first.name && n.name != second.name && ReadsAny(n, region) ==>
      || (n.op.Unary? && |n.inputs| == 1)
      || (n.op.Binary? && forall i | 0 <= i < |n.inputs| :: n.inputs[i] in region || n.inputs[i] in scalars)
  }

  /** Judged by what was collected before, or by the whole region, a node passes or not. */
  lemma GoesOrTakesPart(nodes: seq<Node>, given: set<string>, j: nat, first: Node, second: Node, scalars: set<string>)
    requires SingleAssignment(nodes, given) && Ordered(nodes, given) && |first.outputs| == 1 && first.outputs[0] != "" && j < |nodes|
    ensures Goes(nodes, j, first, second, scalars) <==> TakesPart(nodes[j], first, second, Reach(nodes, |nodes|, first, second), scalars)
  {
    hide SingleAssignment, Ordered, Reach;
    var all, n, before := Reach(nodes, |nodes|, first, second), nodes[j], Reach(nodes, j, first, second);
    ReachGrows(nodes, j, |nodes|, first, second);
    forall i | 0 <= i < |n.inputs| ensures n.inputs[i] in before <==> n.inputs[i] in all {
      if n.inputs[i] in all { ReadBefore(nodes, given, j, first, second, n.inputs[i]); }
    }
  }

  lemma GoesEverywhere(nodes: seq<Node>, given: set<string>, first: Node, second: Node, scalars: set<string>)
    requires SingleAssignment(nodes, given) && Ordered(nodes, given) && |first.outputs| == 1 && first.outputs[0] != ""
    ensures (forall j | 0 <= j < |nodes| :: Goes(nodes, j, first, second, scalars))
        <==> forall n | n in nodes :: TakesPart(n, first, second, Reach(nodes, |nodes|, first, second), scalars)
  {
    hide SingleAssignment, Ordered, Reach, Goes, TakesPart;
    forall j | 0 <= j < |nodes|
      ensures Goes(nodes, j, first, second, scalars) <==> TakesPart(nodes[j], first, second, Reach(nodes, |nodes|, first, second), scalars)
    {
      GoesOrTakesPart(nodes, given, j, first, second, scalars);
    }
    var all := Reach(nodes, |nodes|, first, second);
    if forall j | 0 <= j < |nodes| :: Goes(nodes, j, first, second, scalars) {
      forall n | n in nodes ensures TakesPart(n, first, second, all, scalars) {
        var j :| 0 <= j < |nodes| && nodes[j] == n;
        assert Goes(nodes, j, first, second, scalars);
      }
    }
    if forall n | n in nodes :: TakesPart(n, first, second, all, scalars) {
      forall j | 0 <= j < |nodes| ensures Goes(nodes, j, first, second, scalars) { assert nodes[j] in nodes; }
    }
  }

  // ---------------------------------------------------------------- a pair

  /** A constant kernel of one tap. */
  predicate OneTap(arrays: Env, n: Node) {
    Weighted(arrays, n) && |arrays[n.inputs[1]].shape| == 3 && arrays[n.inputs[1]].shape[2] == 1
  }

  predicate NamedAsPair(first: string, second: string) {
    && "/vector_estimator/" <= first && |first| >= 13 && first[|first| - 13..] == "/pwconv1/Conv"
    && second == first[..|first| - 13] + "/pwconv2/Conv"
  }

  /** Two one-tap convolutions, neither excluded, the first the one reader of a transpose, and an element-wise region between. */
  ghost predicate IsPair(nodes: seq<Node>, arrays: Env, outputs: seq<string>, excluded: set<string>, p: Pair) {
    && p.first in nodes && p.second in nodes && p.transpose in nodes && p.first.op.Conv? && p.second.op.Conv?
    && |p.first.outputs| == 1
    && NamedAsPair(p.first.name, p.second.name) && p.first.name !in excluded && p.second.name !in excluded
    && OneTap(arrays, p.first) && OneTap(arrays, p.second)
    && p.transpose.op == Transpose(Some([0, 2, 1])) && |p.transpose.inputs| >= 1 && p.transpose.outputs == [p.first.inputs[0]]
    && (forall j | 1 <= j < |p.first.inputs| :: p.first.inputs[j] != p.first.inputs[0])
    && (forall n | n in nodes && Reads(n, p.first.inputs[0]) :: n == p.first)
    && exists region :: AnyLayout(nodes, arrays, outputs, p.first, p.second, region)
  }

  /** Graphs as the search meets them: in order, every tensor with one producer, every node with a name of its own. */
  ghost predicate InOrder(nodes: seq<Node>, given: set<string>) {
    Standard(nodes) && SingleAssignment(nodes, given) && Ordered(nodes, given) && UniqueNames(nodes)
  }

  lemma NamesAgree(first: string, second: string)
    ensures NamedAsPair(first, second)
        <==> MODEL_PREFIX <= first && EndsWith(first, FIRST_SUFFIX) && second == SecondName(first)
  {}

  /** A pair like this is found. */
  lemma PairIsFound(nodes: seq<Node>, given: set<string>, arrays: Env, outputs: seq<string>, excluded: set<string>, p: Pair)
    requires InOrder(nodes, given) && IsPair(nodes, arrays, outputs, excluded, p)
    ensures OneOutput(p.first) && PairOf(nodes, arrays, outputs, excluded, p.first) == Some(p)
  {
    hide SingleAssignment, Ordered, AnyLayout, HasLayoutInvariantPath, ScalarNames, Producer, Consumers, ByName, NamedAsPair, SecondName, EndsWith;
    NamesAgree(p.first.name, p.second.name);
    var i :| 0 <= i < |nodes| && nodes[i] == p.first;
    var j :| 0 <= j < |nodes| && nodes[j] == p.second;
    var k :| 0 <= k < |nodes| && nodes[k] == p.transpose;
    assert OneOutput(nodes[i]) && OneOutput(nodes[k]);
    SecondHasName(p.first.name, p.second.name);
    NameIs(nodes, p.second);
    ProducerIs(nodes, given, p.transpose, p.first.inputs[0]);
    SoleReader(nodes, given, p.first.inputs[0], p.first, 0);
    PathExactly(nodes, given, arrays, outputs, p.first, p.second);
  }

  lemma SecondHasName(first: string, second: string)
    requires NamedAsPair(first, second)
    ensures second != ""
  {}

  /** And nothing else is. */
  lemma FoundIsPair(nodes: seq<Node>, given: set<string>, arrays: Env, outputs: seq<string>, excluded: set<string>, first: Node, p: Pair)
    requires InOrder(nodes, given) && first in nodes && OneOutput(first) && PairOf(nodes, arrays, outputs, excluded, first) == Some(p)
    ensures p.first == first && IsPair(nodes, arrays, outputs, excluded, p)
  {
    hide SingleAssignment, Ordered, AnyLayout, HasLayoutInvariantPath, ScalarNames, Producer, Consumers, ByName, NamedAsPair, SecondName, EndsWith;
    ByNameFinds(nodes, SecondName(first.name));
    ProducerFinds(nodes, first.inputs[0]);
    NamesAgree(first.name, p.second.name);
    var i :| NodeIs(nodes, i, p.second);
    var k :| NodeIs(nodes, k, p.transpose);
    assert OneOutput(nodes[k]);
    ReadOnceBy(nodes, first, first.inputs[0]);
    PathExactly(nodes, given, arrays, outputs, p.first, p.second);
  }

  lemma ReadOnceBy(nodes: seq<Node>, first: Node, x: string)
    requires Consumers(nodes, x) == [first] && first in nodes && first.inputs != [] && first.inputs[0] == x
    ensures forall n | n in nodes && Reads(n, x) :: n == first
    ensures forall j | 1 <= j < |first.inputs| :: first.inputs[j] != x
  {
    forall n | n in nodes && Reads(n, x) ensures n == first {
      var k :| 0 <= k < |nodes| && nodes[k] == n;
      ReaderIsConsumer(nodes, k, x);
    }
    forall j | 1 <= j < |first.inputs| ensures first.inputs[j] != x {
      if first.inputs[j] == x { ReadTwice(nodes, first, j, x); }
    }
  }

  lemma {:induction false} UsedAgain(inputs: seq<string>, j: nat, x: string)
    requires 1 <= j < |inputs| && inputs[0] == x && inputs[j] == x
    ensures Uses(inputs, x) >= 2
  {
    UsesPositive(inputs[1..], x);
  }

  lemma {:induction false} ReadTwice(nodes: seq<Node>, n: Node, j: nat, x: string)
    requires n in nodes && 1 <= j < |n.inputs| && n.inputs[0] == x && n.inputs[j] == x
    ensures |Consumers(nodes, x)| >= 2
  {
    var m := |nodes| - 1;
    if nodes[m] == n {
      UsedAgain(n.inputs, j, x);
    } else {
      assert n in nodes[..m];
      ReadTwice(nodes[..m], n, j, x);
    }
  }

  lemma {:induction false} PairIsListed(nodes: seq<Node>, arrays: Env, outputs: seq<string>, excluded: set<string>, k: nat, q: nat, p: Pair)
    requires Standard(nodes) && q < k <= |nodes| && OneOutput(nodes[q]) && PairOf(nodes, arrays, outputs, excluded, nodes[q]) == Some(p)
    ensures p in Pairs(nodes, arrays, outputs, excluded, k)
  {
    hide PairOf;
    if q < k - 1 { PairIsListed(nodes, arrays, outputs, excluded, k - 1, q, p); }
  }

  /** The search returns these pairs and no others. */
  lemma PairsExactly(nodes: seq<Node>, given: set<string>, arrays: Env, outputs: seq<string>, excluded: set<string>, p: Pair)
    requires InOrder(nodes, given)
    ensures p in Pairs(nodes, arrays, outputs, excluded, |nodes|) <==> IsPair(nodes, arrays, outputs, excluded, p)
  {
    hide PairOf, SingleAssignment, Ordered, AnyLayout;
    if p in Pairs(nodes, arrays, outputs, excluded, |nodes|) {
      PairsAreReal(nodes, arrays, outputs, excluded, |nodes|);
      var q :| 0 <= q < |nodes| && PairOf(nodes, arrays, outputs, excluded, nodes[q]) == Some(p) && p.first == nodes[q];
      assert OneOutput(nodes[q]);
      FoundIsPair(nodes, given, arrays, outputs, excluded, nodes[q], p);
    }
    if IsPair(nodes, arrays, outputs, excluded, p) {
      var q :| 0 <= q < |nodes| && nodes[q] == p.first;
      assert OneOutput(nodes[q]);
      PairIsFound(nodes, given, arrays, outputs, excluded, p);
      PairIsListed(nodes, arrays, outputs, excluded, |nodes|, q, p);
    }
  }

  // ---------------------------------------------------------------- names of what is put in

  ghost predicate NamedAfter(node: Node, nodes: seq<Node>) { forall n | n in nodes :: Prefix(node) <= n.name }

  lemma LinearNamed(node: Node, kind: string, rows: string, matrix: string, bias: Option<string>, out: string)
    ensures NamedAfter(node, LinearNodes(node, kind, rows, matrix, bias, out))
  {
    hide Prefix;
  }

  lemma {:induction false} TapsNamed(node: Node, activation: string, taps: nat)
    ensures NamedAfter(node, TapNodes(node, activation, taps))
  {
    hide Prefix;
    if taps > 0 { TapsNamed(node, activation, taps - 1); }
  }

  lemma PointwiseNamed(node: Node, weight: Tensor, bias: Option<Tensor>, input: string, back: bool)
    requires |node.inputs| >= 2 && |node.outputs| == 1 && Rank(weight, 3)
    ensures NamedAfter(node, PointwiseNodes(node, weight, bias).nodes)
    ensures NamedAfter(node, PointwiseNtcNodes(node, weight, bias, input, back).nodes)
  {
    hide Prefix, LinearNodes;
    var matrix := node.inputs[1] + "__pointwise_matmul";
    LinearNamed(node, "/", Derived(node, "/TransposeIn_output"), matrix, BiasName(node, bias, "__pointwise_bias"), LinearOut(node, "/", bias));
    LinearNamed(node, "/", input, matrix, BiasName(node, bias, "__pointwise_bias"), if back then LinearOut(node, "/", bias) else node.outputs[0]);
  }

  lemma TdnnNamed(node: Node, weight: Tensor, bias: Option<Tensor>, win: A.Window)
    requires |node.inputs| >= 2 && |node.outputs| == 1 && Rank(weight, 3)
    ensures NamedAfter(node, TdnnPiece(node, weight, bias, win).nodes)
  {
    hide Prefix, LinearNodes, TapNodes, TapOutputs, AllTapInits, A.Reach;
    LinearNamed(node, "/TDNN", Derived(node, "/TDNNTransposeIn_output"), node.inputs[1] + "__tdnn_matmul",
                BiasName(node, bias, "__tdnn_bias"), LinearOut(node, "/TDNN", bias));
    TapsNamed(node, TdnnActivation(node, win), weight.shape[2]);
  }

  /** What stands for a node is the node itself, or named after it if it is a layer. */
  lemma NodeNamed(node: Node, ctx: Context)
    requires OneOutput(node) && LowerNode(node, ctx).Ok?
    ensures var piece := LowerNode(node, ctx).value;
      || piece.nodes == []
      || (piece.nodes == [node] && node.name !in ctx.removed)
      || ((node.op.Conv? || node.op.Gemm?) && NamedAfter(node, piece.nodes))
  {
    hide PointwiseNodes, PointwiseNtcNodes, TdnnPiece, NamedAfter, LinearNodes, GemmInits, Prefix;
    var weight, bias := ConstantInput(ctx.arrays, node, 1), ConstantInput(ctx.arrays, node, 2);
    if node.name !in ctx.removed && node.name !in ctx.excluded && weight.Some? {
      if node.op.Gemm? {
        LinearNamed(node, "/", node.inputs[0], node.inputs[1] + "__gemm_matmul", BiasName(node, bias, "__gemm_bias"), node.outputs[0]);
      } else if node.op.Conv? && !Depthwise(node.op, weight.value) {
        if Pointwise(node.op, weight.value) {
          var ntc := node.name in ctx.ntc;
          PointwiseNamed(node, weight.value, bias, if ntc then ctx.ntc[node.name].input else "", ntc && ctx.ntc[node.name].BackToNct?);
        } else {
          TdnnNamed(node, weight.value, bias, WindowOf(node.op.dilations, node.op.strides, node.op.pads).value);
        }
      }
    }
  }

  /** No layer is named by the beginning of the name. */
  ghost predicate NotMadeUp(nodes: seq<Node>, name: string) { forall n | n in nodes && (n.op.Conv? || n.op.Gemm?) :: !(Prefix(n) <= name) }

  lemma {:induction false} RemovedNameIsGone(nodes: seq<Node>, k: nat, ctx: Context, name: string)
    requires Standard(nodes) && k <= |nodes| && LowerPrefix(nodes, k, ctx).Ok? && name in ctx.removed && NotMadeUp(nodes, name)
    ensures forall n | n in LowerPrefix(nodes, k, ctx).value.nodes :: n.name != name
  {
    hide LowerNode, Prefix;
    if k > 0 {
      RemovedNameIsGone(nodes, k - 1, ctx, name);
      assert OneOutput(nodes[k - 1]) && nodes[k - 1] in nodes;
      NodeNamed(nodes[k - 1], ctx);
    }
  }

  lemma {:induction false} PieceIsIn(nodes: seq<Node>, k: nat, m: nat, ctx: Context)
    requires Standard(nodes) && k < m <= |nodes| && LowerPrefix(nodes, m, ctx).Ok?
    ensures OneOutput(nodes[k]) && LowerNode(nodes[k], ctx).Ok?
    ensures forall n | n in LowerNode(nodes[k], ctx).value.nodes :: n in LowerPrefix(nodes, m, ctx).value.nodes
    decreases m
  {
    hide LowerNode;
    assert OneOutput(nodes[m - 1]);
    if k < m - 1 { PieceIsIn(nodes, k, m - 1, ctx); }
  }

  // ---------------------------------------------------------------- what a pair becomes

  ghost predicate Multiplies(nodes: seq<Node>, rows: string, matrix: string) { exists n :: n in nodes && n.op.MatMul? && n.inputs == [rows, matrix] }

  /** The pair has lost its transpose; its first product reads the tensor behind it, its second one that of the region. */
  ghost predicate Optimized(source: seq<Node>, p: Pair, nodes: seq<Node>)
    requires PairShaped(p)
  {
    && (NotMadeUp(source, p.transpose.name) ==> forall n | n in nodes :: n.name != p.transpose.name)
    && (p.first.op.group == 1 ==> Multiplies(nodes, p.transpose.inputs[0], p.first.inputs[1] + "__pointwise_matmul"))
    && (p.second.op.group == 1 ==> Multiplies(nodes, p.second.inputs[0], p.second.inputs[1] + "__pointwise_matmul"))
  }

  /** In a checked graph all constants are given. */
  ghost predicate Checked(nodes: seq<Node>, arrays: Env) { exists given :: arrays.Keys <= given && InOrder(nodes, given) }

  lemma KeptInNtc(nodes: seq<Node>, ctx: Context, k: nat)
    requires Standard(nodes) && k < |nodes| && LowerPrefix(nodes, |nodes|, ctx).Ok? && nodes[k].op.Conv? && nodes[k].op.group == 1
    requires OneTap(ctx.arrays, nodes[k]) && nodes[k].name !in ctx.removed && nodes[k].name !in ctx.excluded && nodes[k].name in ctx.ntc
    ensures Multiplies(LowerPrefix(nodes, |nodes|, ctx).value.nodes, ctx.ntc[nodes[k].name].input, nodes[k].inputs[1] + "__pointwise_matmul")
  {
    hide PointwiseNtcNodes, LowerPrefix;
    PieceIsIn(nodes, k, |nodes|, ctx);
    var n, mode := nodes[k], ctx.ntc[nodes[k].name];
    NtcTidy(n, ctx.arrays[n.inputs[1]], ConstantInput(ctx.arrays, n, 2), mode.input, mode.BackToNct?);
    assert OneOutput(n);
  }

  function Found(nodes: seq<Node>, arrays: Env, outputs: seq<string>, excluded: set<string>): seq<Pair>
    requires Standard(nodes)
  {
    Pairs(nodes, arrays, outputs, excluded, |nodes|)
  }

  /** The search's own notion of a checked graph holds of such graphs. */
  lemma SourceIsChecked(nodes: seq<Node>, given: set<string>, arrays: Env, outputs: seq<string>, excluded: set<string>) returns (s: Source)
    requires InOrder(nodes, given) && arrays.Keys <= given
    ensures s == Source(nodes, arrays, outputs, given, Found(nodes, arrays, outputs, excluded)) && WellFormed(s)
  {
    hide PairChecked, SingleAssignment, Ordered, UniqueNames, Pairs;
    s := Source(nodes, arrays, outputs, given, Found(nodes, arrays, outputs, excluded));
    PairsAreChecked(nodes, arrays, outputs, given, excluded);
    assert s == Source(nodes, arrays, outputs, given, Pairs(nodes, arrays, outputs, excluded, |nodes|));
    assert forall i {:trigger PairChecked(s, s.pairs[i])} | 0 <= i < |s.pairs| :: PairChecked(s, s.pairs[i]);
  }

  /** A convolution or Gemm is none of the transposes that are dropped. */
  lemma LayerStays(nodes: seq<Node>, given: set<string>, arrays: Env, outputs: seq<string>, excluded: set<string>, k: nat)
    requires InOrder(nodes, given) && k < |nodes| && !nodes[k].op.Transpose?
    ensures nodes[k].name !in RemovedTransposes(Found(nodes, arrays, outputs, excluded))
  {
    hide SingleAssignment, Ordered, AnyLayout, Pairs;
    forall p | p in Found(nodes, arrays, outputs, excluded) ensures p.transpose.name != nodes[k].name {
      PairsExactly(nodes, given, arrays, outputs, excluded, p);
      var i :| 0 <= i < |nodes| && nodes[i] == p.transpose;
    }
  }

  lemma PairIsOptimized(nodes: seq<Node>, given: set<string>, arrays: Env, outputs: seq<string>, excluded: set<string>, p: Pair)
    requires InOrder(nodes, given) && arrays.Keys <= given && IsPair(nodes, arrays, outputs, excluded, p)
    requires LowerPrefix(nodes, |nodes|, ContextOf(nodes, arrays, outputs, excluded, true)).Ok?
    ensures Optimized(nodes, p, LowerPrefix(nodes, |nodes|, ContextOf(nodes, arrays, outputs, excluded, true)).value.nodes)
  {
    hide SingleAssignment, Ordered, AnyLayout, Pairs, LowerPrefix, NotMadeUp, PairChecked, NtcModes, UniqueNames;
    var ctx := ContextOf(nodes, arrays, outputs, excluded, true);
    var s := SourceIsChecked(nodes, given, arrays, outputs, excluded);
    PairsHaveInputs(nodes, arrays, outputs, excluded, |nodes|);
    PairsExactly(nodes, given, arrays, outputs, excluded, p);
    var i :| 0 <= i < |s.pairs| && s.pairs[i] == p;
    FirstMode(s, i);
    SecondMode(s, i);
    var f :| 0 <= f < |nodes| && nodes[f] == p.first;
    var g :| 0 <= g < |nodes| && nodes[g] == p.second;
    LayerStays(nodes, given, arrays, outputs, excluded, f);
    LayerStays(nodes, given, arrays, outputs, excluded, g);
    if p.first.op.group == 1 { KeptInNtc(nodes, ctx, f); }
    if p.second.op.group == 1 { KeptInNtc(nodes, ctx, g); }
    assert p.transpose.name in ctx.removed;
    if NotMadeUp(nodes, p.transpose.name) { RemovedNameIsGone(nodes, |nodes|, ctx, p.transpose.name); }
  }

  // ---------------------------------------------------------------- the whole conversion

  /** The transpose of a pair, which is dropped before anything else is asked of it. */
  ghost predicate IsDropped(source: seq<Node>, arrays: Env, outputs: seq<string>, excluded: set<string>, optimize: bool, n: Node) {
    optimize && exists p :: IsPair(source, arrays, outputs, excluded, p) && n == p.transpose
  }

  /** What a conversion that succeeds promises of the new lists, in terms of the old: no layer is left, products read constants
      that are there and others are dropped, every layer has its product and every other node is as it was, and, if the layout is
      optimized, every pair is. */
  ghost predicate Converts(
    source: seq<Node>, consts: seq<Initializer>, outputs: seq<string>, excluded: set<string>, optimize: bool,
    nodes: seq<Node>, inits: seq<Initializer>)
  {
    var arrays := Arrays(consts);
    && NoneLeft(arrays, excluded, nodes) && ProductsFed(source, nodes, inits)
    && NeededOnly(consts, outputs, nodes, inits)
    && ((optimize ==> Checked(source, arrays)) ==>
          && EachReplaced(arrays, excluded, source, nodes)
          && forall n | n in source && !Affine(arrays, excluded, n) && !IsDropped(source, arrays, outputs, excluded, optimize, n) :: n in nodes)
    && (optimize && Checked(source, arrays) ==> forall p | IsPair(source, arrays, outputs, excluded, p) :: Optimized(source, p, nodes))
  }

  /** It succeeds unless it refuses some node that it does not drop. */
  ghost predicate Accepts(source: seq<Node>, arrays: Env, outputs: seq<string>, excluded: set<string>, optimize: bool) {
    forall n | n in source && !IsDropped(source, arrays, outputs, excluded, optimize, n) :: !Refused(arrays, excluded, n)
  }

  lemma DroppedByName(nodes: seq<Node>, given: set<string>, arrays: Env, outputs: seq<string>, excluded: set<string>, k: nat)
    requires InOrder(nodes, given) && k < |nodes|
    ensures nodes[k].name in RemovedTransposes(Found(nodes, arrays, outputs, excluded)) <==> IsDropped(nodes, arrays, outputs, excluded, true, nodes[k])
  {
    hide SingleAssignment, Ordered, AnyLayout, Pairs;
    forall p ensures p in Found(nodes, arrays, outputs, excluded) <==> IsPair(nodes, arrays, outputs, excluded, p) {
      PairsExactly(nodes, given, arrays, outputs, excluded, p);
    }
    if p :| p in Found(nodes, arrays, outputs, excluded) && p.transpose.name == nodes[k].name {
      var i :| 0 <= i < |nodes| && nodes[i] == p.transpose;
    }
  }

  lemma AcceptsExactly(source: seq<Node>, arrays: Env, outputs: seq<string>, excluded: set<string>, optimize: bool)
    requires Standard(source) && (optimize ==> Checked(source, arrays))
    ensures LowerPrefix(source, |source|, ContextOf(source, arrays, outputs, excluded, optimize)).Ok?
        <==> Accepts(source, arrays, outputs, excluded, optimize)
  {
    hide LowerPrefix, Refused, InOrder, IsPair, Pairs;
    var ctx := ContextOf(source, arrays, outputs, excluded, optimize);
    PrefixFails(source, |source|, ctx);
    forall k | 0 <= k < |source| ensures source[k].name in ctx.removed <==> IsDropped(source, arrays, outputs, excluded, optimize, source[k]) {
      if optimize {
        var given :| arrays.Keys <= given && InOrder(source, given);
        DroppedByName(source, given, arrays, outputs, excluded, k);
      }
    }
  }

  lemma ConversionConverts(source: seq<Node>, consts: seq<Initializer>, outputs: seq<string>, excluded: set<string>, optimize: bool)
    requires Standard(source) && LowerPrefix(source, |source|, ContextOf(source, Arrays(consts), outputs, excluded, optimize)).Ok?
    ensures var piece := LowerPrefix(source, |source|, ContextOf(source, Arrays(consts), outputs, excluded, optimize)).value;
      Converts(source, consts, outputs, excluded, optimize, piece.nodes, Kept(consts + piece.inits, Used(piece.nodes, outputs)))
  {
    hide LowerPrefix, Pairs, NoneLeft, ProductsFed, NeededOnly, IsDropped, HasProduct, MatrixName, Optimized, IsPair, Arrays, Kept, Used, InOrder;
    var arrays := Arrays(consts);
    var ctx := ContextOf(source, arrays, outputs, excluded, optimize);
    var piece := LowerPrefix(source, |source|, ctx).value;
    PrefixTidy(source, |source|, ctx);
    FedStays(source, consts, piece, outputs);
    OnlyNeeded(consts, outputs, piece);
    if optimize && Checked(source, arrays) {
      var given :| arrays.Keys <= given && InOrder(source, given);
      forall p | IsPair(source, arrays, outputs, excluded, p) ensures PairShaped(p) && Optimized(source, p, piece.nodes) {
        PairHasShape(source, arrays, outputs, excluded, p);
        PairIsOptimized(source, given, arrays, outputs, excluded, p);
      }
    }
    if optimize ==> Checked(source, arrays) {
      forall n | n in source && Affine(arrays, excluded, n) ensures HasProduct(piece.nodes, MatrixName(arrays, n)) {
        var k :| 0 <= k < |source| && source[k] == n;
        LayersStay(source, arrays, outputs, excluded, optimize, k);
      }
      forall n | n in source && !Affine(arrays, excluded, n) && !IsDropped(source, arrays, outputs, excluded, optimize, n) ensures n in piece.nodes {
        OthersStay(source, arrays, outputs, excluded, optimize, n);
      }
    }
  }

  lemma OthersStay(source: seq<Node>, arrays: Env, outputs: seq<string>, excluded: set<string>, optimize: bool, n: Node)
    requires Standard(source) && (optimize ==> Checked(source, arrays)) && n in source
    requires !Affine(arrays, excluded, n) && !IsDropped(source, arrays, outputs, excluded, optimize, n)
    requires LowerPrefix(source, |source|, ContextOf(source, arrays, outputs, excluded, optimize)).Ok?
    ensures n in LowerPrefix(source, |source|, ContextOf(source, arrays, outputs, excluded, optimize)).value.nodes
  {
    hide InOrder, Pairs, LowerPrefix, IsPair, LowerNode, Affine, NoneLeft;
    var ctx := ContextOf(source, arrays, outputs, excluded, optimize);
    var k :| 0 <= k < |source| && source[k] == n;
    if optimize {
      var given :| arrays.Keys <= given && InOrder(source, given);
      DroppedByName(source, given, arrays, outputs, excluded, k);
    }
    PieceIsIn(source, k, |source|, ctx);
    NodeTidy(n, ctx);
    assert n in [n];
  }

  predicate PairShaped(p: Pair) {
    |p.transpose.inputs| >= 1 && |p.first.inputs| >= 2 && |p.second.inputs| >= 2 && p.first.op.Conv? && p.second.op.Conv?
  }

  lemma PairHasShape(nodes: seq<Node>, arrays: Env, outputs: seq<string>, excluded: set<string>, p: Pair)
    requires IsPair(nodes, arrays, outputs, excluded, p)
    ensures PairShaped(p)
  {
    hide AnyLayout;
  }

  lemma LayersStay(source: seq<Node>, arrays: Env, outputs: seq<string>, excluded: set<string>, optimize: bool, k: nat)
    requires Standard(source) && (optimize ==> Checked(source, arrays)) && k < |source| && Affine(arrays, excluded, source[k])
    ensures source[k].name !in ContextOf(source, arrays, outputs, excluded, optimize).removed
  {
    hide InOrder, Pairs;
    if optimize {
      var given :| arrays.Keys <= given && InOrder(source, given);
      LayerStays(source, given, arrays, outputs, excluded, k);
    }
  }
}
