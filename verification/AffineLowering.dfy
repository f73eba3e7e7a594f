/** `lower_affine_nodes` of scripts/supertonic3_onnx/quantize_supertonic3_onnx.py: which nodes are lowered,
    and which ConvNeXt regions are kept in NTC. Graphs are checked ONNX models, so that the operators
    dealt with here have exactly one output. */
module AffineLowering {
  import opened Wrappers
  import opened Tensors
  import opened OnnxGraph
  import opened AffineBlocks
  import A = AffineTensors

  // ---------------------------------------------------------------- one node

  /** How a pointwise convolution of a region kept in NTC is lowered, and the tensor it then reads. */
  datatype NtcMode = StayNtc(input: string) | BackToNct(input: string)

  datatype Context = Context(arrays: Env, excluded: set<string>, ntc: map<string, NtcMode>, removed: set<string>)

  function ConstantInput(arrays: Env, node: Node, i: nat): Option<Tensor> {
    if i < |node.inputs| && node.inputs[i] in arrays then Some(arrays[node.inputs[i]]) else None
  }

  predicate OneOutput(node: Node) {
    node.op.Conv? || node.op.Gemm? || node.op.Transpose? || node.op.Unary? || node.op.Binary? || node.op.Constant?
    ==> |node.outputs| == 1 && node.outputs[0] != ""
  }

  predicate Depthwise(op: Op, weight: Tensor)
    requires op.Conv?
  {
    op.group > 1 && Rank(weight, 3) && weight.shape[1] == 1
  }

  predicate Pointwise(op: Op, weight: Tensor)
    requires op.Conv?
  {
    Rank(weight, 3) && weight.shape[2] == 1 && op.group == 1
  }

  function LowerConv(node: Node, ctx: Context): Result<Piece, LoweringError>
    requires node.op.Conv? && OneOutput(node)
  {
    var weight := ConstantInput(ctx.arrays, node, 1);
    var bias := ConstantInput(ctx.arrays, node, 2);
    if weight.None? then Err(WeightNotConstant)
    else if Depthwise(node.op, weight.value) then Ok(Piece([node], []))
    else if Pointwise(node.op, weight.value) then
      if node.name in ctx.ntc then
        var mode := ctx.ntc[node.name];
        Ok(PointwiseNtcNodes(node, weight.value, bias, mode.input, mode.BackToNct?))
      else Ok(PointwiseNodes(node, weight.value, bias))
    else TdnnNodes(node, weight.value, bias)
  }

  function LowerGemm(node: Node, ctx: Context): Result<Piece, LoweringError>
    requires node.op.Gemm? && OneOutput(node)
  {
    var weight := ConstantInput(ctx.arrays, node, 1);
    if weight.None? then Ok(Piece([node], [])) else GemmNodes(node, weight.value, ConstantInput(ctx.arrays, node, 2))
  }

  function LowerNode(node: Node, ctx: Context): Result<Piece, LoweringError>
    requires OneOutput(node)
  {
    if node.name in ctx.removed then Ok(Piece([], []))
    else if node.name in ctx.excluded then
      if node.op.Conv? || node.op.Gemm? || node.op.MatMul? then Ok(Piece([node], [])) else Err(ExcludedLayerNotAffine)
    else if node.op.Conv? then LowerConv(node, ctx)
    else if node.op.Gemm? then LowerGemm(node, ctx)
    else Ok(Piece([node], []))
  }

  predicate Standard(nodes: seq<Node>) { forall k | 0 <= k < |nodes| :: OneOutput(nodes[k]) }

  /** The rewritten list and the added constants after the first `k` nodes; the first error stops it. */
  function LowerPrefix(nodes: seq<Node>, k: nat, ctx: Context): Result<Piece, LoweringError>
    requires k <= |nodes| && Standard(nodes)
  {
    if k == 0 then Ok(Piece([], []))
    else match LowerPrefix(nodes, k - 1, ctx)
      case Err(error) => Err(error)
      case Ok(before) =>
        match LowerNode(nodes[k - 1], ctx)
        case Err(error) => Err(error)
        case Ok(piece) => Ok(Piece(before.nodes + piece.nodes, before.inits + piece.inits))
  }

  // ---------------------------------------------------------------- looking nodes up

  /** The last node with a name, as a dictionary filled in graph order returns it. */
  function ByName(nodes: seq<Node>, name: string): Option<Node> {
    if nodes == [] || name == "" then None
    else if nodes[|nodes| - 1].name == name then Some(nodes[|nodes| - 1])
    else ByName(nodes[..|nodes| - 1], name)
  }

  function Producer(nodes: seq<Node>, x: string): Option<Node> {
    if nodes == [] then None
    else if Produces(nodes[|nodes| - 1], x) then Some(nodes[|nodes| - 1])
    else Producer(nodes[..|nodes| - 1], x)
  }

  function Uses(inputs: seq<string>, x: string): nat {
    if inputs == [] then 0 else (if inputs[0] == x then 1 else 0) + Uses(inputs[1..], x)
  }

  /** One entry per input that reads `x`, in graph order. */
  function Consumers(nodes: seq<Node>, x: string): seq<Node> {
    if nodes == [] then []
    else Consumers(nodes[..|nodes| - 1], x) + seq(Uses(nodes[|nodes| - 1].inputs, x), _ => nodes[|nodes| - 1])
  }

  // ---------------------------------------------------------------- regions that do not care about layout

  function ConstantScalars(nodes: seq<Node>): set<string> {
    if nodes == [] then {}
    else
      var n := nodes[|nodes| - 1];
      ConstantScalars(nodes[..|nodes| - 1])
        + (if n.op.Constant? && |n.outputs| == 1 && n.op.value.Some? && Single(n.op.value.value) then {n.outputs[0]} else {})
  }

  function ScalarNames(nodes: seq<Node>, arrays: Env): set<string> {
    (set x | x in arrays && Single(arrays[x])) + ConstantScalars(nodes)
  }

  predicate Touches(node: Node, layout: set<string>) { exists i | 0 <= i < |node.inputs| :: node.inputs[i] in layout }

  /** The element-wise operators a transposed tensor may go through. */
  predicate Passes(node: Node, layout: set<string>, scalars: set<string>) {
    || (node.op.Unary? && |node.inputs| == 1)
    || (node.op.Binary? && forall i | 0 <= i < |node.inputs| :: node.inputs[i] in layout || node.inputs[i] in scalars)
  }

  /** The tensors that hold the other layout after the first `k` nodes, unless some node rules the region out. */
  function Scan(nodes: seq<Node>, k: nat, first: Node, second: Node, scalars: set<string>): Option<set<string>>
    requires k <= |nodes| && |first.outputs| == 1
  {
    if k == 0 then Some({first.outputs[0]})
    else match Scan(nodes, k - 1, first, second, scalars)
      case None => None
      case Some(layout) =>
        var n := nodes[k - 1];
        if n.name == first.name || n.name == second.name || !Touches(n, layout) then Some(layout)
        else if Passes(n, layout, scalars) then Some(layout + Names(n.outputs))
        else None
  }

  predicate HasLayoutInvariantPath(nodes: seq<Node>, outputs: seq<string>, first: Node, second: Node, scalars: set<string>)
    requires |first.outputs| == 1 && |second.inputs| >= 1
  {
    match Scan(nodes, |nodes|, first, second, scalars)
    case None => false
    case Some(layout) => second.inputs[0] in layout && forall i | 0 <= i < |outputs| :: outputs[i] !in layout
  }

  // ---------------------------------------------------------------- ConvNeXt pairs

  const MODEL_PREFIX := "/vector_estimator/"
  const FIRST_SUFFIX := "/pwconv1/Conv"
  const SECOND_SUFFIX := "/pwconv2/Conv"

  predicate EndsWith(s: string, t: string) { |t| <= |s| && s[|s| - |t|..] == t }

  function SecondName(first: string): string
    requires EndsWith(first, FIRST_SUFFIX)
  {
    first[..|first| - |FIRST_SUFFIX|] + SECOND_SUFFIX
  }

  datatype Pair = Pair(first: Node, second: Node, transpose: Node)

  predicate PointwiseWeight(arrays: Env, node: Node) {
    var w := ConstantInput(arrays, node, 1);
    w.Some? && Rank(w.value, 3) && w.value.shape[2] == 1
  }

  /** The pair a first pointwise convolution opens, if the region behind it can be kept in NTC. */
  function PairOf(nodes: seq<Node>, arrays: Env, outputs: seq<string>, excluded: set<string>, first: Node): Option<Pair>
    requires Standard(nodes) && OneOutput(first)
  {
    if !first.op.Conv? || !(MODEL_PREFIX <= first.name) || !EndsWith(first.name, FIRST_SUFFIX) || first.name in excluded then None
    else match ByName(nodes, SecondName(first.name))
      case None => None
      case Some(second) =>
        if !second.op.Conv? || second.name in excluded
           || !PointwiseWeight(arrays, first) || !PointwiseWeight(arrays, second) then None
        else match Producer(nodes, first.inputs[0])
          case None => None
          case Some(t) =>
            if t.op == Transpose(NTC_PERM) && |t.inputs| >= 1 && |t.outputs| >= 1 && Consumers(nodes, t.outputs[0]) == [first]
               && HasLayoutInvariantPath(nodes, outputs, first, second, ScalarNames(nodes, arrays))
            then Some(Pair(first, second, t)) else None
  }

  function Pairs(nodes: seq<Node>, arrays: Env, outputs: seq<string>, excluded: set<string>, k: nat): seq<Pair>
    requires Standard(nodes) && k <= |nodes|
  {
    if k == 0 then [] else
      Pairs(nodes, arrays, outputs, excluded, k - 1) +
      match PairOf(nodes, arrays, outputs, excluded, nodes[k - 1])
      case None => []
      case Some(pair) => [pair]
  }

  function NtcModes(pairs: seq<Pair>): map<string, NtcMode>
    requires forall i | 0 <= i < |pairs| :: |pairs[i].transpose.inputs| >= 1 && |pairs[i].second.inputs| >= 1
  {
    if pairs == [] then map[] else
      var p := pairs[|pairs| - 1];
      NtcModes(pairs[..|pairs| - 1])[p.first.name := StayNtc(p.transpose.inputs[0])][p.second.name := BackToNct(p.second.inputs[0])]
  }

  function RemovedTransposes(pairs: seq<Pair>): set<string> { set p | p in pairs :: p.transpose.name }

  lemma {:induction false} PairsAreReal(nodes: seq<Node>, arrays: Env, outputs: seq<string>, excluded: set<string>, k: nat)
    requires Standard(nodes) && k <= |nodes|
    ensures forall p | p in Pairs(nodes, arrays, outputs, excluded, k) ::
              exists q :: 0 <= q < k && PairOf(nodes, arrays, outputs, excluded, nodes[q]) == Some(p) && p.first == nodes[q]
  {
    if k > 0 { PairsAreReal(nodes, arrays, outputs, excluded, k - 1); }
  }

  lemma PairsHaveInputs(nodes: seq<Node>, arrays: Env, outputs: seq<string>, excluded: set<string>, k: nat)
    requires Standard(nodes) && k <= |nodes|
    ensures forall p | p in Pairs(nodes, arrays, outputs, excluded, k) ::
              |p.transpose.inputs| >= 1 && |p.second.inputs| >= 1
  {
    PairsAreReal(nodes, arrays, outputs, excluded, k);
  }

  /** The context `lower_affine_nodes` works with, with or without the layout optimization. */
  function ContextOf(nodes: seq<Node>, arrays: Env, outputs: seq<string>, excluded: set<string>, optimize: bool): Context
    requires Standard(nodes)
  {
    if optimize then
      var pairs := Pairs(nodes, arrays, outputs, excluded, |nodes|);
      PairsHaveInputs(nodes, arrays, outputs, excluded, |nodes|);
      Context(arrays, excluded, NtcModes(pairs), RemovedTransposes(pairs))
    else Context(arrays, excluded, map[], {})
  }

  // ---------------------------------------------------------------- constants nobody reads

  function Used(nodes: seq<Node>, outputs: seq<string>): set<string> {
    (set k, i | 0 <= k < |nodes| && 0 <= i < |nodes[k].inputs| :: nodes[k].inputs[i]) + Names(outputs)
  }

  function Kept(inits: seq<Initializer>, used: set<string>): seq<Initializer> {
    if inits == [] then []
    else Kept(inits[..|inits| - 1], used) + (if inits[|inits| - 1].name in used then [inits[|inits| - 1]] else [])
  }

  /** Dropping constants nobody reads leaves every used constant as it was. */
  lemma {:induction false} KeptArrays(inits: seq<Initializer>, used: set<string>)
    ensures forall x | x in used :: (x in Arrays(Kept(inits, used)) <==> x in Arrays(inits))
                                    && (x in Arrays(inits) ==> Arrays(Kept(inits, used))[x] == Arrays(inits)[x])
  {
    if inits != [] {
      var before, last := inits[..|inits| - 1], inits[|inits| - 1];
      KeptArrays(before, used);
      if last.name in used {
        var kept := Kept(inits, used);
        assert kept[..|kept| - 1] == Kept(before, used) && kept[|kept| - 1] == last;
      } else {
        assert Kept(inits, used) == Kept(before, used);
      }
    }
  }

  lemma {:induction false} KeptSubset(inits: seq<Initializer>, used: set<string>)
    ensures Arrays(Kept(inits, used)).Keys <= Arrays(inits).Keys
  {
    if inits != [] {
      var m := |inits| - 1;
      KeptSubset(inits[..m], used);
      if inits[m].name in used {
        var kept := Kept(inits, used);
        assert kept[..|kept| - 1] == Kept(inits[..m], used);
      } else {
        assert Kept(inits, used) == Kept(inits[..m], used);
      }
    }
  }
}
