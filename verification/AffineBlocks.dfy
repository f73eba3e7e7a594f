/** The node builders of scripts/supertonic3_onnx/quantize_supertonic3_onnx.py: what each Conv or Gemm is
    replaced by, and the proof that evaluating the replacement gives the value of the node it replaces. */
module AffineBlocks {
  import opened Wrappers
  import opened Tensors
  import opened Numerals
  import opened OnnxGraph
  import A = AffineTensors

  datatype LoweringError =
    | ExcludedLayerNotAffine | WeightNotConstant | AutoPadUnsupported | GroupedUnsupported | NotOneDimensional
    | UnexpectedAttributes | InvalidWindow | EmptyOutput | TransAUnsupported | InvalidTransB

  /** What one node turns into: replacement nodes and the constants they read. */
  datatype Piece = Piece(nodes: seq<Node>, inits: seq<Initializer>)

  /** A name derived from the node's own name, or from its first output when it has none. */
  function Prefix(node: Node): string {
    if node.name != "" then node.name else if node.outputs != [] then node.outputs[0] else ""
  }

  function Derived(node: Node, suffix: string): string { Prefix(node) + suffix }

  function Ints(vs: seq<int>): (r: Tensor)
    ensures r.shape == [|vs|]
  {
    Make1(|vs|, i => if 0 <= i < |vs| then vs[i] as real else 0.0)
  }

  const NTC_PERM: Option<seq<int>> := Some([0, 2, 1])

  // ---------------------------------------------------------------- MatMul and the Add after it

  function LinearNodes(node: Node, kind: string, rows: string, matrix: string, bias: Option<string>, out: string): seq<Node> {
    match bias
    case None => [Node(Derived(node, kind + "MatMul"), MatMul, [rows, matrix], [out])]
    case Some(b) =>
      var product := Derived(node, kind + "MatMul_output");
      [Node(Derived(node, kind + "MatMul"), MatMul, [rows, matrix], [product]),
       Node(Derived(node, kind + "Add"), Binary(Add), [product, b], [out])]
  }

  function TransposeNode(node: Node, suffix: string, input: string, output: string): Node {
    Node(Derived(node, suffix), Transpose(NTC_PERM), [input], [output])
  }

  function BiasName(node: Node, bias: Option<Tensor>, suffix: string): Option<string> {
    if bias.Some? && |node.inputs| > 2 then Some(node.inputs[2] + suffix) else None
  }

  function BiasInit(node: Node, bias: Option<Tensor>, suffix: string): seq<Initializer> {
    if bias.Some? && |node.inputs| > 2 then [Initializer(node.inputs[2] + suffix, bias.value)] else []
  }

  /** The tensor after the product and, if there is a bias, after its addition. */
  function LinearOut(node: Node, kind: string, bias: Option<Tensor>): string {
    if bias.Some? then Derived(node, kind + "Add_output") else Derived(node, kind + "MatMul_output")
  }

  // ---------------------------------------------------------------- pointwise convolutions

  function PointwiseInits(node: Node, weight: Tensor, bias: Option<Tensor>): seq<Initializer>
    requires |node.inputs| >= 2 && Rank(weight, 3)
  {
    [Initializer(node.inputs[1] + "__pointwise_matmul", A.PointwiseMatrix(weight))]
      + BiasInit(node, bias, "__pointwise_bias")
  }

  function PointwiseNodes(node: Node, weight: Tensor, bias: Option<Tensor>): Piece
    requires |node.inputs| >= 2 && |node.outputs| == 1 && Rank(weight, 3)
  {
    var activation := Derived(node, "/TransposeIn_output");
    var linear := LinearOut(node, "/", bias);
    Piece(
      [TransposeNode(node, "/TransposeIn", node.inputs[0], activation)]
        + LinearNodes(node, "/", activation, node.inputs[1] + "__pointwise_matmul", BiasName(node, bias, "__pointwise_bias"), linear)
        + [TransposeNode(node, "/TransposeOut", linear, node.outputs[0])],
      PointwiseInits(node, weight, bias))
  }

  /** The same convolution inside a region whose tensors are kept in NTC. */
  function PointwiseNtcNodes(node: Node, weight: Tensor, bias: Option<Tensor>, input: string, transposeOutput: bool): Piece
    requires |node.inputs| >= 2 && |node.outputs| == 1 && Rank(weight, 3)
  {
    var linear := if transposeOutput then LinearOut(node, "/", bias) else node.outputs[0];
    Piece(
      LinearNodes(node, "/", input, node.inputs[1] + "__pointwise_matmul", BiasName(node, bias, "__pointwise_bias"), linear)
        + (if transposeOutput then [TransposeNode(node, "/TransposeOut", linear, node.outputs[0])] else []),
      PointwiseInits(node, weight, bias))
  }

  // ---------------------------------------------------------------- convolutions with several taps

  function TapName(node: Node, tap: nat, what: string): string { Derived(node, "/TDNNTap" + Decimal(tap) + what) }

  function TapNode(node: Node, activation: string, tap: nat): Node {
    Node(Derived(node, "/TDNNTap" + Decimal(tap)), Slice,
      [activation, TapName(node, tap, "Starts"), TapName(node, tap, "Ends"), TapName(node, tap, "Axes"), TapName(node, tap, "Steps")],
      [TapName(node, tap, "_output")])
  }

  function TapInits(node: Node, win: A.Window, reach: nat, tap: nat): seq<Initializer> {
    [Initializer(TapName(node, tap, "Starts"), Ints([tap * win.dilation])),
     Initializer(TapName(node, tap, "Ends"), Ints([A.TapEnd(reach - 1 - tap * win.dilation)])),
     Initializer(TapName(node, tap, "Axes"), Ints([2])),
     Initializer(TapName(node, tap, "Steps"), Ints([win.stride]))]
  }

  function TapNodes(node: Node, activation: string, taps: nat): (r: seq<Node>)
    ensures |r| == taps
  {
    if taps == 0 then [] else TapNodes(node, activation, taps - 1) + [TapNode(node, activation, taps - 1)]
  }

  function AllTapInits(node: Node, win: A.Window, reach: nat, taps: nat): seq<Initializer> {
    if taps == 0 then [] else AllTapInits(node, win, reach, taps - 1) + TapInits(node, win, reach, taps - 1)
  }

  function TapOutputs(node: Node, taps: nat): (r: seq<string>)
    ensures |r| == taps
    ensures forall k | 0 <= k < taps :: r[k] == TapName(node, k, "_output")
  {
    seq(taps, k requires 0 <= k < taps => TapName(node, k, "_output"))
  }

  predicate Pads(win: A.Window) { win.padBegin != 0 || win.padEnd != 0 }

  function TdnnActivation(node: Node, win: A.Window): string
    requires |node.inputs| >= 2
  {
    if Pads(win) then Derived(node, "/TDNNPad_output") else node.inputs[0]
  }

  function PadNodes(node: Node, win: A.Window): seq<Node>
    requires |node.inputs| >= 2
  {
    if Pads(win)
    then [Node(Derived(node, "/TDNNPad"), Pad, [node.inputs[0], Derived(node, "/TDNNPads")], [Derived(node, "/TDNNPad_output")])]
    else []
  }

  function PadInits(node: Node, win: A.Window): seq<Initializer> {
    if Pads(win) then [Initializer(Derived(node, "/TDNNPads"), Ints([0, 0, win.padBegin, 0, 0, win.padEnd]))] else []
  }

  function TdnnInits(node: Node, weight: Tensor, bias: Option<Tensor>, win: A.Window, reach: nat): seq<Initializer>
    requires |node.inputs| >= 2 && Rank(weight, 3)
  {
    PadInits(node, win) + AllTapInits(node, win, reach, weight.shape[2])
      + [Initializer(node.inputs[1] + "__tdnn_matmul", A.TapMatrix(weight))] + BiasInit(node, bias, "__tdnn_bias")
  }

  function TdnnPiece(node: Node, weight: Tensor, bias: Option<Tensor>, win: A.Window): Piece
    requires |node.inputs| >= 2 && |node.outputs| == 1 && Rank(weight, 3)
  {
    var kernel := weight.shape[2];
    var reach := if kernel >= 1 then A.Reach(kernel, win) else 0;
    var features := Derived(node, "/TDNNConcat_output");
    var rows := Derived(node, "/TDNNTransposeIn_output");
    var linear := LinearOut(node, "/TDNN", bias);
    Piece(
      PadNodes(node, win) + TapNodes(node, TdnnActivation(node, win), kernel)
        + [Node(Derived(node, "/TDNNConcat"), Concat(1), TapOutputs(node, kernel), [features]),
           TransposeNode(node, "/TDNNTransposeIn", features, rows)]
        + LinearNodes(node, "/TDNN", rows, node.inputs[1] + "__tdnn_matmul", BiasName(node, bias, "__tdnn_bias"), linear)
        + [TransposeNode(node, "/TDNNTransposeOut", linear, node.outputs[0])],
      TdnnInits(node, weight, bias, win, reach))
  }

  function TdnnNodes(node: Node, weight: Tensor, bias: Option<Tensor>): Result<Piece, LoweringError>
    requires node.op.Conv? && |node.inputs| >= 2 && |node.outputs| == 1
  {
    var op := node.op;
    if op.autoPad then Err(AutoPadUnsupported)
    else if op.group != 1 then Err(GroupedUnsupported)
    else if !Rank(weight, 3) then Err(NotOneDimensional)
    else if |op.dilations| != 1 || |op.strides| != 1 || |op.pads| != 2 then Err(UnexpectedAttributes)
    else match WindowOf(op.dilations, op.strides, op.pads)
      case None => Err(InvalidWindow)
      case Some(win) => if weight.shape[0] == 0 then Err(EmptyOutput) else Ok(TdnnPiece(node, weight, bias, win))
  }

  // ---------------------------------------------------------------- Gemm

  function GemmMatrix(op: Op, weight: Tensor): Tensor
    requires op.Gemm?
  {
    A.Scale(op.alpha, if Rank(weight, 2) then A.FlipIf(op.transB != 0, weight) else weight)
  }

  function GemmInits(node: Node, weight: Tensor, bias: Option<Tensor>): seq<Initializer>
    requires node.op.Gemm? && |node.inputs| >= 2
  {
    [Initializer(node.inputs[1] + "__gemm_matmul", GemmMatrix(node.op, weight))]
      + (if bias.Some? && |node.inputs| > 2
         then [Initializer(node.inputs[2] + "__gemm_bias", A.Scale(node.op.beta, bias.value))] else [])
  }

  function GemmNodes(node: Node, weight: Tensor, bias: Option<Tensor>): Result<Piece, LoweringError>
    requires node.op.Gemm? && |node.inputs| >= 2 && |node.outputs| == 1
  {
    if node.op.transA != 0 then Err(TransAUnsupported)
    else if node.op.transB != 0 && node.op.transB != 1 then Err(InvalidTransB)
    else Ok(Piece(
      LinearNodes(node, "/", node.inputs[0], node.inputs[1] + "__gemm_matmul", BiasName(node, bias, "__gemm_bias"), node.outputs[0]),
      GemmInits(node, weight, bias)))
  }

  // ---------------------------------------------------------------- names do not clash inside one block

  lemma SuffixesDiffer(p: string, s: string, t: string)
    requires s != t
    ensures p + s != p + t
  {
    assert (p + s)[|p|..] == s && (p + t)[|p|..] == t;
  }

  lemma LongerNumber(a: string, b: string, rest: string)
    requires |a| < |b| && rest != "" && !('0' <= rest[0] <= '9')
    requires forall i | 0 <= i < |b| :: '0' <= b[i] <= '9'
    ensures a + rest != b + rest
  {
    assert (b + rest)[|a|] == b[|a|];
    assert (a + rest)[|a|] == rest[0];
  }

  lemma NumbersDiffer(k: nat, j: nat, rest: string)
    requires k != j && rest != "" && !('0' <= rest[0] <= '9')
    ensures Decimal(k) + rest != Decimal(j) + rest
  {
    var a, b := Decimal(k), Decimal(j);
    DecimalDigits(k);
    DecimalDigits(j);
    if |a| < |b| {
      LongerNumber(a, b, rest);
    } else if |b| < |a| {
      LongerNumber(b, a, rest);
    } else {
      assert (a + rest)[..|a|] == a && (b + rest)[..|a|] == b;
      if a == b { DecimalInjective(k, j); assert false; }
    }
  }

  /** Two taps never share a name: the decimal index can be read off the name. */
  lemma TapNamesDiffer(node: Node, k: nat, j: nat, what: string)
    requires k != j && what != "" && !('0' <= what[0] <= '9')
    ensures TapName(node, k, what) != TapName(node, j, what)
  {
    hide Decimal, Prefix;
    NumbersDiffer(k, j, what);
    var p := Prefix(node) + "/TDNNTap";
    SuffixesDiffer(p, Decimal(k) + what, Decimal(j) + what);
    assert TapName(node, k, what) == p + (Decimal(k) + what) && TapName(node, j, what) == p + (Decimal(j) + what);
  }
}
