/** `lower_fastconformer_pointwise_conv_pairs_to_matmul` of scripts/asr_onnx_quantization/quantize_hqq_w4a8.py: finding the
    two pointwise convolutions of a convolution block, and rewriting the node list around them. */
module PairLowering {
  import opened Wrappers
  import opened Tensors
  import opened OnnxGraph
  import opened AffineBlocks
  import opened AffineLowering
  import A = AffineTensors

  datatype PairError = NameCollision | NotPointwise | MissingBias

  datatype Model = Model(nodes: seq<Node>, inits: seq<Initializer>)

  const CONV1 := "/pointwise_conv1/Conv"
  const CONV2 := "/pointwise_conv2/Conv"

  // ---------------------------------------------------------------- finding a block

  /** Every occurrence, from left to right. */
  function ReplaceAll(s: string, from: string, to: string): string
    requires from != ""
  {
    if s == "" then ""
    else if from <= s then to + ReplaceAll(s[|from|..], from, to)
    else [s[0]] + ReplaceAll(s[1..], from, to)
  }

  /** The first node that satisfies the predicate. */
  function First(nodes: seq<Node>, p: Node -> bool): (r: Option<Node>)
    ensures r.Some? ==> r.value in nodes && p(r.value)
  {
    if nodes == [] then None else if p(nodes[0]) then Some(nodes[0]) else First(nodes[1..], p)
  }

  function Called(name: string): Node -> bool { (n: Node) => n.name == name }

  predicate TransposesNtc(n: Node) {
    n.op == Transpose(NTC_PERM) && n.inputs != [] && n.outputs != []
  }

  /** The input that a Sigmoid produces, if one does. */
  function SigmoidInput(nodes: seq<Node>, inputs: seq<string>): (r: Option<Node>)
    ensures r.Some? ==> r.value.op == Unary(Sigmoid)
  {
    if inputs == [] then None
    else
      var p := Producer(nodes, inputs[0]);
      if p.Some? && p.value.op == Unary(Sigmoid) then p else SigmoidInput(nodes, inputs[1..])
  }

  /** The nodes of a block: conv1 between its transpose and a gated linear unit, conv2 between an activation and its
      transpose. The activation may have a transpose of its own in front of it. */
  datatype Block = Block(
    conv1: Node, conv2: Node, before: Node, split: Node, sigmoid: Node, glu: Node,
    act: Node, gate: Node, middle: Option<Node>, after: Node)

  predicate WithConstants(arrays: Env, n: Node) {
    && 2 <= |n.inputs| <= 3 && n.inputs[1] in arrays && (|n.inputs| == 3 ==> n.inputs[2] in arrays)
  }

  /** The gated linear unit behind conv1. */
  function FindGlu(nodes: seq<Node>, conv1: Node): Option<(Node, Node, Node)> {
    if conv1.outputs == [] then None else
    var readers := Consumers(nodes, conv1.outputs[0]);
    if |readers| != 1 || !readers[0].op.Split? then None else
    var split := readers[0];
    if split.op.along != 1 || |split.outputs| != 2 then None else
    var sigmoid := First(Consumers(nodes, split.outputs[1]), (n: Node) => n.op == Unary(Sigmoid) && |n.outputs| == 1);
    if sigmoid.None? then None else
    var gated := sigmoid.value.outputs[0];
    var glu := First(Consumers(nodes, split.outputs[0]),
                     (n: Node) => n.op == Binary(Mul) && split.outputs[0] in n.inputs && gated in n.inputs);
    if glu.None? || glu.value.outputs == [] then None else Some((split, sigmoid.value, glu.value))
  }

  /** The activation in front of conv2: a tensor times its own sigmoid. */
  function FindActivation(nodes: seq<Node>, conv2: Node): (r: Option<(Node, Node)>)
    ensures r.Some? ==> r.value.1.inputs != []
  {
    if conv2.inputs == [] then None else
    var act := Producer(nodes, conv2.inputs[0]);
    if act.None? || act.value.op != Binary(Mul) then None else
    var gate := SigmoidInput(nodes, act.value.inputs);
    if gate.None? || gate.value.inputs == [] || gate.value.inputs[0] !in act.value.inputs then None
    else Some((act.value, gate.value))
  }

  function FindBlock(nodes: seq<Node>, arrays: Env, conv1: Node): Option<Block> {
    var name2 := ReplaceAll(conv1.name, CONV1, CONV2);
    var second := First(nodes, Called(name2));
    if second.None? then None else
    var conv2 := second.value;
    if !WithConstants(arrays, conv1) || !WithConstants(arrays, conv2) then None else
    var before := Producer(nodes, conv1.inputs[0]);
    if before.None? || !TransposesNtc(before.value) then None
    else if Consumers(nodes, before.value.outputs[0]) != [conv1] then None else
    var glu := FindGlu(nodes, conv1);
    if glu.None? then None else
    var activation := FindActivation(nodes, conv2);
    if activation.None? || conv2.outputs == [] then None else
    var readers := Consumers(nodes, conv2.outputs[0]);
    if |readers| != 1 || !TransposesNtc(readers[0]) then None else
    var (split, sigmoid, unit) := glu.value;
    var (act, gate) := activation.value;
    var middle := Producer(nodes, gate.inputs[0]);
    Some(Block(conv1, conv2, before.value, split, sigmoid, unit, act, gate,
               if middle.Some? && middle.value.op.Transpose? then middle else None, readers[0]))
  }

  // ---------------------------------------------------------------- rewriting

  predicate Shaped(b: Block) {
    && |b.conv1.inputs| >= 2 && |b.conv2.inputs| >= 2 && b.conv1.outputs != [] && b.conv2.outputs != []
    && b.before.inputs != [] && b.before.outputs != [] && b.after.outputs != []
    && b.glu.outputs != [] && b.gate.inputs != [] && |b.split.outputs| == 2 && b.split.op.Split?
    && (b.middle.Some? ==> b.middle.value.inputs != [] && b.middle.value.outputs != [])
  }

  function Rhs(name: string): string { name + "__matmul_rhs" }

  function Weight1(b: Block): string requires Shaped(b) { b.conv1.inputs[1] }

  function Weight2(b: Block): string requires Shaped(b) { b.conv2.inputs[1] }

  /** The constants without the two kernels, and the two matrices in their place. */
  function Without(inits: seq<Initializer>, dropped: set<string>): seq<Initializer> {
    if inits == [] then []
    else Without(inits[..|inits| - 1], dropped) + (if inits[|inits| - 1].name in dropped then [] else [inits[|inits| - 1]])
  }

  function NewInits(inits: seq<Initializer>, b: Block, w1: Tensor, w2: Tensor): seq<Initializer>
    requires Shaped(b) && Rank(w1, 3) && Rank(w2, 3)
  {
    Without(inits, {Weight1(b), Weight2(b)})
      + [Initializer(Rhs(Weight1(b)), A.PointwiseMatrix(w1)), Initializer(Rhs(Weight2(b)), A.PointwiseMatrix(w2))]
  }

  function MatMulNode(conv: Node, input: string, rhs: string, output: string): Node {
    Node(conv.name + "/MatMul", MatMul, [input, rhs], [output])
  }

  function BiasNode(conv: Node, input: string, bias: string, outputs: seq<string>): Node {
    Node(conv.name + "/BiasAdd", Binary(Add), [input, bias], outputs)
  }

  function NtcNode(name: string, input: string, outputs: seq<string>): Node {
    Node(name, Transpose(NTC_PERM), [input], outputs)
  }

  /** MatMul, and Add if the convolution has a bias. */
  function LinearPart(conv: Node, input: string, rhs: string, outputs: seq<string>, pre: string): seq<Node>
    requires |conv.inputs| >= 2 && outputs != []
  {
    if |conv.inputs| == 2 then [MatMulNode(conv, input, rhs, outputs[0])]
    else [MatMulNode(conv, input, rhs, pre), BiasNode(conv, pre, conv.inputs[2], outputs)]
  }

  // The variant that keeps the depthwise layout and transposes behind the first bias.

  function KeepingPiece(b: Block, n: Node): seq<Node>
    requires Shaped(b) && |b.conv1.inputs| == 3 && |b.conv2.inputs| == 3
  {
    if n == b.before then
      var pre, out := b.conv1.outputs[0] + "__ntc_pre_bias", b.conv1.outputs[0] + "__ntc";
      [MatMulNode(b.conv1, b.before.inputs[0], Rhs(Weight1(b)), pre),
       BiasNode(b.conv1, pre, b.conv1.inputs[2], [out]),
       NtcNode(b.conv1.name + "/TransposeForDepthwise", out, b.conv1.outputs)]
    else if n == b.conv1 || n == b.after then []
    else if n == b.conv2 then
      var input, pre := b.conv2.inputs[0] + "__ntc", b.after.outputs[0] + "__pre_bias";
      [NtcNode(b.conv2.name + "/TransposeForMatMul", b.conv2.inputs[0], [input]),
       MatMulNode(b.conv2, input, Rhs(Weight2(b)), pre),
       BiasNode(b.conv2, pre, b.conv2.inputs[2], b.after.outputs)]
    else [n]
  }

  // The variant that deletes both inner transposes and moves the split axis.

  function ChannelsFirst(b: Block): string requires Shaped(b) { b.glu.outputs[0] + "__channels_first" }

  function EditedInput(b: Block, n: Node, x: string): string
    requires Shaped(b) && b.middle.Some?
  {
    var y := if x == b.middle.value.outputs[0] then b.middle.value.inputs[0] else x;
    if Reads(n, b.glu.outputs[0]) && y == b.glu.outputs[0] then ChannelsFirst(b) else y
  }

  /** A node after the edits in place. */
  function Edited(b: Block, n: Node): Node
    requires Shaped(b) && b.middle.Some?
  {
    n.(op := if n == b.split then Split(2, b.split.op.parts) else n.op,
       inputs := seq(|n.inputs|, i requires 0 <= i < |n.inputs| => EditedInput(b, n, n.inputs[i])))
  }

  function DeletingPiece(b: Block, n: Node): seq<Node>
    requires Shaped(b) && b.middle.Some?
  {
    if n == b.before then
      LinearPart(b.conv1, Edited(b, b.before).inputs[0], Rhs(Weight1(b)), b.conv1.outputs, b.conv1.outputs[0] + "__pre_bias")
    else if n == b.conv1 || n == b.middle.value || n == b.after then []
    else if n == b.glu then
      [Edited(b, n), NtcNode(b.conv1.name + "/TransposeForDepthwise", b.glu.outputs[0], [ChannelsFirst(b)])]
    else if n == b.conv2 then
      LinearPart(b.conv2, Edited(b, b.conv2).inputs[0], Rhs(Weight2(b)), b.after.outputs, b.after.outputs[0] + "__pre_bias")
    else [Edited(b, n)]
  }

  predicate Ready1(b: Block) {
    Shaped(b) && (b.middle.None? ==> |b.conv1.inputs| == 3 && |b.conv2.inputs| == 3)
  }

  function Piece1(b: Block, n: Node): seq<Node>
    requires Ready1(b)
  {
    if b.middle.None? then KeepingPiece(b, n) else DeletingPiece(b, n)
  }

  function Rebuilt(b: Block, nodes: seq<Node>, k: nat): seq<Node>
    requires Ready1(b) && k <= |nodes|
  {
    if k == 0 then [] else Rebuilt(b, nodes, k - 1) + Piece1(b, nodes[k - 1])
  }

  predicate PointwiseKernel(w: Tensor) { Rank(w, 3) && w.shape[2] == 1 }

  /** What the loop does for one conv1: skip it, fail, or rewrite the graph. */
  function LowerPair(m: Model, conv1: Node): Result<Option<Model>, PairError> {
    var arrays := Arrays(m.inits);
    match FindBlock(m.nodes, arrays, conv1)
    case None => Ok(None)
    case Some(b) =>
      if !Shaped(b) then Ok(None)
      else if b.middle.Some? && !TransposesNtc(b.middle.value) then Ok(None)
      else if b.middle.Some? && !OnlyActivation(m.nodes, b) then Ok(None)
      else if |Consumers(m.nodes, Weight1(b))| != 1 || |Consumers(m.nodes, Weight2(b))| != 1 then Ok(None)
      else if Rhs(Weight1(b)) in arrays || Rhs(Weight2(b)) in arrays then Err(NameCollision)
      else if Weight1(b) !in arrays || Weight2(b) !in arrays then Ok(None)
      else if !PointwiseKernel(arrays[Weight1(b)]) || !PointwiseKernel(arrays[Weight2(b)]) then Err(NotPointwise)
      else if b.middle.None? && (|b.conv1.inputs| != 3 || |b.conv2.inputs| != 3) then Err(MissingBias)
      else Ok(Some(Lowered(m, b)))
  }

  /** The transposed tensor is read by the activation and its sigmoid, and by nothing else. */
  predicate OnlyActivation(nodes: seq<Node>, b: Block)
    requires Shaped(b)
  {
    (set n | n in Consumers(nodes, b.gate.inputs[0])) == {b.act, b.gate}
  }

  predicate CanLower(m: Model, b: Block) {
    && Ready1(b) && Weight1(b) in Arrays(m.inits) && Weight2(b) in Arrays(m.inits)
    && PointwiseKernel(Arrays(m.inits)[Weight1(b)]) && PointwiseKernel(Arrays(m.inits)[Weight2(b)])
  }

  function Lowered(m: Model, b: Block): Model
    requires CanLower(m, b)
  {
    var arrays := Arrays(m.inits);
    Model(Rebuilt(b, m.nodes, |m.nodes|), NewInits(m.inits, b, arrays[Weight1(b)], arrays[Weight2(b)]))
  }

  predicate IsConv1(n: Node) { n.op.Conv? && EndsWith(n.name, CONV1) }

  function Conv1Names(nodes: seq<Node>): seq<string> {
    if nodes == [] then []
    else Conv1Names(nodes[..|nodes| - 1]) + (if IsConv1(nodes[|nodes| - 1]) then [nodes[|nodes| - 1].name] else [])
  }

  /** The loop over the convolutions found in the original list; each is looked up in the list as it is by then. */
  function LowerNames(m: Model, names: seq<string>): Result<Model, PairError>
    decreases names
  {
    if names == [] then Ok(m) else
    match First(m.nodes, Called(names[0]))
    case None => LowerNames(m, names[1..])
    case Some(conv1) =>
      match LowerPair(m, conv1)
      case Err(error) => Err(error)
      case Ok(None) => LowerNames(m, names[1..])
      case Ok(Some(next)) => LowerNames(next, names[1..])
  }
}
