/** What the conversion leaves behind, told from the old and the new lists alone: which layers are gone, what stands in their
    place, and exactly when the conversion refuses. */
module AffineComplete {
  import opened Wrappers
  import opened Tensors
  import opened Numerals
  import opened OnnxGraph
  import opened AffineBlocks
  import opened AffineLowering
  import opened AffineRegions
  import opened AffineTheorem
  import opened GraphAgreement
  import A = AffineTensors

  // ---------------------------------------------------------------- what is promised

  /** The weight of a layer is a constant. */
  predicate Weighted(arrays: Env, n: Node) { |n.inputs| >= 2 && n.inputs[1] in arrays }

  /** A grouped convolution with one channel per group. */
  predicate OneChannelGroups(arrays: Env, n: Node) {
    && n.op.Conv? && n.op.group > 1 && Weighted(arrays, n)
    && |arrays[n.inputs[1]].shape| == 3 && arrays[n.inputs[1]].shape[1] == 1
  }

  /** No Gemm with a constant weight is left, and no convolution, unless it is excluded or depthwise. */
  ghost predicate NoneLeft(arrays: Env, excluded: set<string>, nodes: seq<Node>) {
    forall n | n in nodes && n.name !in excluded :: (n.op.Gemm? ==> !Weighted(arrays, n)) && (n.op.Conv? ==> OneChannelGroups(arrays, n))
  }

  /** Every product that was put in reads a constant that is there. */
  ghost predicate ProductsFed(source: seq<Node>, nodes: seq<Node>, inits: seq<Initializer>) {
    forall n | n in nodes && n.op.MatMul? && n !in source :: |n.inputs| == 2 && n.inputs[1] in Arrays(inits)
  }

  /** The constant that takes the place of a layer's weight. */
  function MatrixName(arrays: Env, n: Node): string
    requires |n.inputs| >= 2
  {
    n.inputs[1] + if n.op.Gemm? then "__gemm_matmul"
                  else if Weighted(arrays, n) && |arrays[n.inputs[1]].shape| == 3 && arrays[n.inputs[1]].shape[2] == 1 && n.op.Conv? && n.op.group == 1
                  then "__pointwise_matmul" else "__tdnn_matmul"
  }

  /** A layer that the conversion is there for. */
  predicate Affine(arrays: Env, excluded: set<string>, n: Node) {
    && n.name !in excluded && Weighted(arrays, n) && (n.op.Gemm? || (n.op.Conv? && !OneChannelGroups(arrays, n)))
  }

  ghost predicate HasProduct(nodes: seq<Node>, matrix: string) { exists n :: n in nodes && n.op.MatMul? && |n.inputs| == 2 && n.inputs[1] == matrix }

  /** For each of them there is a product with the matrix made of its weight. */
  ghost predicate EachReplaced(arrays: Env, excluded: set<string>, source: seq<Node>, nodes: seq<Node>) {
    forall n | n in source && Affine(arrays, excluded, n) :: HasProduct(nodes, MatrixName(arrays, n))
  }

  ghost predicate IsNamed(nodes: seq<Node>, outputs: seq<string>, x: string) { x in outputs || exists n :: n in nodes && x in n.inputs }

  /** The constants kept are those that a node reads or an output names: all of the old ones, and some new ones. */
  ghost predicate NeededOnly(consts: seq<Initializer>, outputs: seq<string>, nodes: seq<Node>, inits: seq<Initializer>) {
    && (forall c | c in inits :: IsNamed(nodes, outputs, c.name))
    && (forall c | c in consts && c.name != "" && IsNamed(nodes, outputs, c.name) :: c in inits)
  }

  /** What makes the conversion refuse a node. */
  predicate Refused(arrays: Env, excluded: set<string>, n: Node) {
    if n.name in excluded then !n.op.Conv? && !n.op.Gemm? && !n.op.MatMul?
    else if n.op.Conv? then
      || !Weighted(arrays, n)
      || (!OneChannelGroups(arrays, n) && TapsRefused(n.op, arrays[n.inputs[1]])
          && !(n.op.group == 1 && |arrays[n.inputs[1]].shape| == 3 && arrays[n.inputs[1]].shape[2] == 1))
    else n.op.Gemm? && Weighted(arrays, n) && (n.op.transA != 0 || n.op.transB !in {0, 1})
  }

  /** A convolution of several taps must be ungrouped, one-dimensional and fully described. */
  predicate TapsRefused(op: Op, w: Tensor)
    requires op.Conv?
  {
    || op.autoPad || op.group != 1 || |w.shape| != 3 || w.shape[0] == 0
    || |op.dilations| != 1 || |op.strides| != 1 || |op.pads| != 2
    || op.dilations[0] < 1 || op.strides[0] < 1 || op.pads[0] < 0 || op.pads[1] < 0
  }

  // ---------------------------------------------------------------- one node

  /** What a replacement may hold: no layer, and no product without its constant. */
  ghost predicate Tidy(piece: Piece) {
    forall n | n in piece.nodes ::
      && (n.op.Transpose? || n.op.Binary? || n.op.Slice? || n.op.Pad? || n.op.Concat? || n.op.MatMul?)
      && (n.op.MatMul? ==> |n.inputs| == 2 && n.inputs[1] in InitNames(piece.inits))
  }

  lemma LinearTidy(node: Node, kind: string, rows: string, matrix: string, bias: Option<string>, out: string)
    ensures var nodes := LinearNodes(node, kind, rows, matrix, bias, out);
      && (forall n | n in nodes :: (n.op.MatMul? && n.inputs == [rows, matrix]) || n.op.Binary?)
      && nodes != [] && nodes[0].op.MatMul? && nodes[0].inputs == [rows, matrix]
  {}

  lemma PointwiseTidy(node: Node, weight: Tensor, bias: Option<Tensor>)
    requires |node.inputs| >= 2 && |node.outputs| == 1 && Rank(weight, 3)
    ensures var piece := PointwiseNodes(node, weight, bias);
      Tidy(piece) && HasProduct(piece.nodes, node.inputs[1] + "__pointwise_matmul")
  {
    hide A.PointwiseMatrix, LinearNodes;
    var piece, matrix := PointwiseNodes(node, weight, bias), node.inputs[1] + "__pointwise_matmul";
    var activation := Derived(node, "/TransposeIn_output");
    LinearTidy(node, "/", activation, matrix, BiasName(node, bias, "__pointwise_bias"), LinearOut(node, "/", bias));
    assert piece.inits[0].name == matrix;
    assert piece.nodes[1].op.MatMul? && piece.nodes[1] in piece.nodes;
  }

  lemma NtcTidy(node: Node, weight: Tensor, bias: Option<Tensor>, input: string, back: bool)
    requires |node.inputs| >= 2 && |node.outputs| == 1 && Rank(weight, 3)
    ensures var piece := PointwiseNtcNodes(node, weight, bias, input, back);
      Tidy(piece) && HasProduct(piece.nodes, node.inputs[1] + "__pointwise_matmul")
    ensures exists n :: n in PointwiseNtcNodes(node, weight, bias, input, back).nodes && n.op.MatMul?
                        && n.inputs == [input, node.inputs[1] + "__pointwise_matmul"]
  {
    hide A.PointwiseMatrix, LinearNodes;
    var piece, matrix := PointwiseNtcNodes(node, weight, bias, input, back), node.inputs[1] + "__pointwise_matmul";
    LinearTidy(node, "/", input, matrix, BiasName(node, bias, "__pointwise_bias"), if back then LinearOut(node, "/", bias) else node.outputs[0]);
    assert piece.inits[0].name == matrix;
    assert piece.nodes[0].op.MatMul? && piece.nodes[0] in piece.nodes;
  }

  lemma {:induction false} TapsAreSlices(node: Node, activation: string, taps: nat)
    ensures forall n | n in TapNodes(node, activation, taps) :: n.op.Slice?
  {
    if taps > 0 { TapsAreSlices(node, activation, taps - 1); }
  }

  lemma TdnnTidy(node: Node, weight: Tensor, bias: Option<Tensor>, win: A.Window)
    requires |node.inputs| >= 2 && |node.outputs| == 1 && Rank(weight, 3)
    ensures var piece := TdnnPiece(node, weight, bias, win); Tidy(piece) && HasProduct(piece.nodes, node.inputs[1] + "__tdnn_matmul")
  {
    hide A.TapMatrix, LinearNodes, TapNodes, TapOutputs, AllTapInits, A.Reach;
    var piece, matrix := TdnnPiece(node, weight, bias, win), node.inputs[1] + "__tdnn_matmul";
    var rows, linear := Derived(node, "/TDNNTransposeIn_output"), LinearOut(node, "/TDNN", bias);
    LinearTidy(node, "/TDNN", rows, matrix, BiasName(node, bias, "__tdnn_bias"), linear);
    TapsAreSlices(node, TdnnActivation(node, win), weight.shape[2]);
    var product := LinearNodes(node, "/TDNN", rows, matrix, BiasName(node, bias, "__tdnn_bias"), linear);
    var taps := TapNodes(node, TdnnActivation(node, win), weight.shape[2]);
    var i := |PadInits(node, win)| + |AllTapInits(node, win, if weight.shape[2] >= 1 then A.Reach(weight.shape[2], win) else 0, weight.shape[2])|;
    assert piece.inits[i].name == matrix;
    assert product[0] in piece.nodes;
    forall n | n in piece.nodes ensures n in PadNodes(node, win) || n in taps || n.op.Concat? || n.op.Transpose? || n in product {}
  }

  lemma GemmTidy(node: Node, weight: Tensor, bias: Option<Tensor>)
    requires node.op.Gemm? && |node.inputs| >= 2 && |node.outputs| == 1 && GemmNodes(node, weight, bias).Ok?
    ensures var piece := GemmNodes(node, weight, bias).value; Tidy(piece) && HasProduct(piece.nodes, node.inputs[1] + "__gemm_matmul")
  {
    hide A.Scale, LinearNodes, GemmMatrix;
    var piece, matrix := GemmNodes(node, weight, bias).value, node.inputs[1] + "__gemm_matmul";
    LinearTidy(node, "/", node.inputs[0], matrix, BiasName(node, bias, "__gemm_bias"), node.outputs[0]);
    assert piece.inits[0].name == matrix;
    assert piece.nodes[0] in piece.nodes;
  }

  /** A node is dropped, kept as it is, or replaced by a tidy piece with the product of its weight. */
  lemma NodeTidy(node: Node, ctx: Context)
    requires OneOutput(node) && LowerNode(node, ctx).Ok?
    ensures var piece := LowerNode(node, ctx).value;
      if node.name in ctx.removed then piece.nodes == []
      else if Affine(ctx.arrays, ctx.excluded, node) then Tidy(piece) && HasProduct(piece.nodes, MatrixName(ctx.arrays, node))
      else piece == Piece([node], []) && (node.name !in ctx.excluded ==> NoneLeft(ctx.arrays, ctx.excluded, [node]))
  {
    hide PointwiseNodes, PointwiseNtcNodes, TdnnNodes, GemmNodes, Tidy, HasProduct;
    if node.name !in ctx.removed && Affine(ctx.arrays, ctx.excluded, node) {
      var weight, bias := ctx.arrays[node.inputs[1]], ConstantInput(ctx.arrays, node, 2);
      if node.op.Gemm? {
        GemmTidy(node, weight, bias);
      } else if Pointwise(node.op, weight) {
        PointwiseTidy(node, weight, bias);
        if node.name in ctx.ntc { NtcTidy(node, weight, bias, ctx.ntc[node.name].input, ctx.ntc[node.name].BackToNct?); }
      } else {
        TdnnIsPiece(node, weight, bias);
      }
    }
  }

  lemma TdnnIsPiece(node: Node, weight: Tensor, bias: Option<Tensor>)
    requires node.op.Conv? && |node.inputs| >= 2 && |node.outputs| == 1 && TdnnNodes(node, weight, bias).Ok?
    ensures var piece := TdnnNodes(node, weight, bias).value; Tidy(piece) && HasProduct(piece.nodes, node.inputs[1] + "__tdnn_matmul")
  {
    hide TdnnPiece, Tidy, HasProduct;
    TdnnTidy(node, weight, bias, WindowOf(node.op.dilations, node.op.strides, node.op.pads).value);
  }

  // ---------------------------------------------------------------- the list

  /** Products read constants that were added. */
  ghost predicate Fed(source: seq<Node>, piece: Piece) {
    forall n | n in piece.nodes && n.op.MatMul? && n !in source :: |n.inputs| == 2 && n.inputs[1] in InitNames(piece.inits)
  }

  lemma {:induction false} PrefixTidy(nodes: seq<Node>, k: nat, ctx: Context)
    requires Standard(nodes) && k <= |nodes| && LowerPrefix(nodes, k, ctx).Ok?
    ensures var piece := LowerPrefix(nodes, k, ctx).value;
      && NoneLeft(ctx.arrays, ctx.excluded, piece.nodes) && Fed(nodes, piece)
      && forall j | 0 <= j < k && nodes[j].name !in ctx.removed && Affine(ctx.arrays, ctx.excluded, nodes[j]) ::
           HasProduct(piece.nodes, MatrixName(ctx.arrays, nodes[j]))
  {
    hide LowerNode, MatrixName, Affine, Weighted, OneChannelGroups;
    if k > 0 {
      PrefixTidy(nodes, k - 1, ctx);
      var before, piece := LowerPrefix(nodes, k - 1, ctx).value, LowerNode(nodes[k - 1], ctx).value;
      NodeTidy(nodes[k - 1], ctx);
      assert OneOutput(nodes[k - 1]) && nodes[k - 1] in nodes;
      TidyJoins(nodes, nodes[k - 1], before, piece, ctx);
    }
  }

  lemma TidyJoins(nodes: seq<Node>, node: Node, before: Piece, piece: Piece, ctx: Context)
    requires NoneLeft(ctx.arrays, ctx.excluded, before.nodes) && Fed(nodes, before) && node in nodes
    requires piece.nodes == [] || Tidy(piece)
          || (piece == Piece([node], []) && (node.name !in ctx.excluded ==> NoneLeft(ctx.arrays, ctx.excluded, [node])))
    ensures var both := Piece(before.nodes + piece.nodes, before.inits + piece.inits);
      && NoneLeft(ctx.arrays, ctx.excluded, both.nodes) && Fed(nodes, both)
      && (forall matrix | HasProduct(before.nodes, matrix) || HasProduct(piece.nodes, matrix) :: HasProduct(both.nodes, matrix))
  {
    hide Weighted, OneChannelGroups;
    var both := Piece(before.nodes + piece.nodes, before.inits + piece.inits);
    assert forall i | 0 <= i < |before.inits| :: both.inits[i] == before.inits[i];
    assert forall i | 0 <= i < |piece.inits| :: both.inits[|before.inits| + i] == piece.inits[i];
    assert InitNames(before.inits) <= InitNames(both.inits) && InitNames(piece.inits) <= InitNames(both.inits);
    forall n | n in both.nodes ensures n in before.nodes || n in piece.nodes {}
    assert piece == Piece([node], []) && node.name !in ctx.excluded ==> node in [node];
  }

  lemma {:induction false} NamedArrays(inits: seq<Initializer>)
    ensures Arrays(inits).Keys == InitNames(inits)
  {
    if inits != [] {
      var m := |inits| - 1;
      NamedArrays(inits[..m]);
      forall x ensures x in InitNames(inits) <==> x in InitNames(inits[..m]) || x == inits[m].name {
        if x in InitNames(inits[..m]) {
          var i :| 0 <= i < m && inits[..m][i].name == x;
          assert inits[i].name == x;
        }
        if x in InitNames(inits) {
          var i :| 0 <= i < |inits| && inits[i].name == x;
          if i < m { assert inits[..m][i].name == x; }
        }
      }
    }
  }

  /** The constant is still there once the unused ones are dropped. */
  lemma FedStays(source: seq<Node>, consts: seq<Initializer>, piece: Piece, outputs: seq<string>)
    requires Fed(source, piece)
    ensures ProductsFed(source, piece.nodes, Kept(consts + piece.inits, Used(piece.nodes, outputs)))
  {
    hide Arrays, Kept;
    var all, used := consts + piece.inits, Used(piece.nodes, outputs);
    NamedArrays(all);
    KeptArrays(all, used);
    forall n | n in piece.nodes && n.op.MatMul? && n !in source ensures |n.inputs| == 2 && n.inputs[1] in Arrays(Kept(all, used)) {
      var k :| 0 <= k < |piece.nodes| && piece.nodes[k] == n;
      assert piece.nodes[k].inputs[1] in used;
      var i :| 0 <= i < |piece.inits| && piece.inits[i].name == n.inputs[1];
      assert all[|consts| + i].name == n.inputs[1];
    }
  }

  /** Dropping the unused constants keeps, in order, those in use: it is filtering. */
  lemma {:induction false} KeptFilters(a: seq<Initializer>, b: seq<Initializer>, used: set<string>)
    ensures Kept(a + b, used) == Kept(a, used) + Kept(b, used)
    ensures forall c :: c in Kept(a, used) <==> c in a && c.name in used
    decreases |a| + |b|
  {
    if b != [] {
      assert (a + b)[..|a + b| - 1] == a + b[..|b| - 1];
      KeptFilters(a, b[..|b| - 1], used);
    } else {
      assert a + b == a;
      if a != [] {
        KeptFilters(a[..|a| - 1], [], used);
        assert a == a[..|a| - 1] + [a[|a| - 1]];
      }
    }
  }

  lemma OnlyNeeded(consts: seq<Initializer>, outputs: seq<string>, piece: Piece)
    ensures NeededOnly(consts, outputs, piece.nodes, Kept(consts + piece.inits, Used(piece.nodes, outputs)))
  {
    hide Kept;
    KeptFilters(consts + piece.inits, [], Used(piece.nodes, outputs));
    forall x | x != "" ensures x in Used(piece.nodes, outputs) <==> IsNamed(piece.nodes, outputs, x) { UsedMeans(piece.nodes, outputs, x); }
    forall x | x in Used(piece.nodes, outputs) ensures IsNamed(piece.nodes, outputs, x) { UsedMeans(piece.nodes, outputs, x); }
  }

  lemma UsedMeans(nodes: seq<Node>, outputs: seq<string>, x: string)
    ensures x in Used(nodes, outputs) ==> IsNamed(nodes, outputs, x)
    ensures x != "" && IsNamed(nodes, outputs, x) ==> x in Used(nodes, outputs)
  {
    if x in Used(nodes, outputs) && x !in Names(outputs) {
      var k, i :| 0 <= k < |nodes| && 0 <= i < |nodes[k].inputs| && nodes[k].inputs[i] == x;
      assert nodes[k] in nodes && x in nodes[k].inputs;
    }
    if n :| n in nodes && x in n.inputs {
      var k :| 0 <= k < |nodes| && nodes[k] == n;
      var i :| 0 <= i < |n.inputs| && n.inputs[i] == x;
    }
  }

  // ---------------------------------------------------------------- refusals

  lemma RefusesExactly(node: Node, ctx: Context)
    requires OneOutput(node)
    ensures LowerNode(node, ctx).Ok? <==> node.name in ctx.removed || !Refused(ctx.arrays, ctx.excluded, node)
  {
    hide PointwiseNodes, PointwiseNtcNodes, TdnnPiece, LinearNodes, GemmInits;
  }

  lemma {:induction false} PrefixFails(nodes: seq<Node>, k: nat, ctx: Context)
    requires Standard(nodes) && k <= |nodes|
    ensures LowerPrefix(nodes, k, ctx).Ok?
        <==> forall j | 0 <= j < k :: nodes[j].name in ctx.removed || !Refused(ctx.arrays, ctx.excluded, nodes[j])
  {
    hide LowerNode, Refused;
    if k > 0 {
      PrefixFails(nodes, k - 1, ctx);
      assert OneOutput(nodes[k - 1]);
      RefusesExactly(nodes[k - 1], ctx);
    }
  }
}
