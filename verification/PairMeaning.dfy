/** What the operators around a pointwise pair say about the values they agree with, and when the nodes that replace them
    agree. */
module PairMeaning {
  import opened Wrappers
  import opened Tensors
  import opened OnnxGraph
  import opened AffineBlocks
  import opened GraphAgreement
  import opened PairLowering
  import A = AffineTensors

  // ---------------------------------------------------------------- reading old nodes

  predicate One(n: Node) { |n.outputs| == 1 && n.outputs[0] != "" }

  lemma TransposeMeans(be: Backend, e: Env, n: Node)
    requires Agrees(be, e, n) && n.op == Transpose(NTC_PERM) && One(n)
    ensures |n.inputs| == 1 && n.inputs[0] != "" && n.inputs[0] in e && Rank(e[n.inputs[0]], 3)
    ensures n.outputs[0] in e && e[n.outputs[0]] == Swap(e[n.inputs[0]])
  {
    hide Swap;
    var xs := Operands(e, n.inputs);
    assert xs[0] == Given(e[n.inputs[0]]);
  }

  lemma UnaryMeans(be: Backend, e: Env, n: Node)
    requires Agrees(be, e, n) && n.op.Unary? && One(n)
    ensures |n.inputs| == 1 && n.inputs[0] != "" && n.inputs[0] in e
    ensures n.outputs[0] in e && e[n.outputs[0]] == Map(UnaryOf(be, n.op.unary), e[n.inputs[0]])
  {
    hide Map, UnaryOf;
    var xs := Operands(e, n.inputs);
    assert xs[0] == Given(e[n.inputs[0]]);
  }

  lemma BinaryMeans(be: Backend, e: Env, n: Node)
    requires Agrees(be, e, n) && n.op.Binary? && One(n)
    ensures |n.inputs| == 2 && n.inputs[0] != "" && n.inputs[0] in e && n.inputs[1] != "" && n.inputs[1] in e
    ensures Broadcastable(e[n.inputs[0]].shape, e[n.inputs[1]].shape)
    ensures n.outputs[0] in e && e[n.outputs[0]] == Zip(BinaryOf(be, n.op.binary), e[n.inputs[0]], e[n.inputs[1]])
  {
    hide Zip, Broadcastable, BinaryOf;
    var xs := Operands(e, n.inputs);
    assert xs[0] == Given(e[n.inputs[0]]) && xs[1] == Given(e[n.inputs[1]]);
  }

  /** The sizes a Split is given, if any. */
  function Sizes(e: Env, n: Node): seq<Operand>
    requires Ready(e, n.inputs) && |n.inputs| >= 1
  {
    Operands(e, n.inputs)[1..]
  }

  lemma SizesDecide(xs: seq<Operand>, ys: seq<Operand>, length: nat)
    requires |xs| == |ys| >= 1 && xs[1..] == ys[1..]
    ensures FirstSize(xs, length) == FirstSize(ys, length)
  {
    if |xs| == 2 { assert xs[1] == xs[1..][0] && ys[1] == ys[1..][0]; }
  }

  lemma FirstSizeFits(xs: seq<Operand>, length: nat)
    requires |xs| >= 1 && FirstSize(xs, length).Some?
    ensures FirstSize(xs, length).value <= length
  {}

  /** A Split into two parts of the channels of a tensor that is there. */
  ghost predicate CutsChannels(e: Env, n: Node) {
    && n.op == Split(1, 2) && |n.outputs| == 2 && n.outputs[0] != "" && n.outputs[1] != ""
    && |n.inputs| >= 1 && n.inputs[0] != "" && Ready(e, n.inputs) && Rank(e[n.inputs[0]], 3)
    && FirstSize(Operands(e, n.inputs), e[n.inputs[0]].shape[1]).Some?
  }

  lemma SplitMeans(be: Backend, e: Env, n: Node)
    requires Agrees(be, e, n) && CutsChannels(e, n)
    ensures n.outputs[0] in e && n.outputs[1] in e
    ensures [e[n.outputs[0]], e[n.outputs[1]]]
         == Halves(e[n.inputs[0]], 1, FirstSize(Operands(e, n.inputs), e[n.inputs[0]].shape[1]).value)
  {
    hide Part, FirstSize;
    var xs := Operands(e, n.inputs);
    assert xs[0] == Given(e[n.inputs[0]]);
  }

  predicate UnitConv(n: Node) {
    && n.op.Conv? && n.op.group == 1 && !n.op.autoPad
    && n.op.strides == [1] && n.op.pads == [0, 0]
  }

  function BiasOf(e: Env, n: Node): Option<Tensor> {
    if |n.inputs| == 3 && n.inputs[2] in e then Some(e[n.inputs[2]]) else None
  }

  lemma ConvMeans(be: Backend, e: Env, n: Node)
    requires Agrees(be, e, n) && UnitConv(n) && One(n) && 2 <= |n.inputs| <= 3
    requires n.inputs[1] != "" && n.inputs[1] in e && PointwiseKernel(e[n.inputs[1]])
    requires |n.inputs| == 3 ==> n.inputs[2] != ""
    ensures n.inputs[0] != "" && n.inputs[0] in e
    ensures A.CanConv(e[n.inputs[0]], e[n.inputs[1]], BiasOf(e, n), A.UNIT)
    ensures n.outputs[0] in e
    ensures e[n.outputs[0]] == A.Conv(e[n.inputs[0]], e[n.inputs[1]], BiasOf(e, n), A.UNIT)
  {
    hide A.Conv;
    var xs := Operands(e, n.inputs);
    assert xs[1] == Given(e[n.inputs[1]]);
    assert xs[0].Given? && WindowOf(n.op.dilations, n.op.strides, n.op.pads).Some?;
    var win := WindowOf(n.op.dilations, n.op.strides, n.op.pads).value;
    assert xs[0] == Given(e[n.inputs[0]]) && Third(xs) == BiasOf(e, n);
    assert A.CanConv(e[n.inputs[0]], e[n.inputs[1]], BiasOf(e, n), win);
    A.DilationUnused(e[n.inputs[0]], e[n.inputs[1]], BiasOf(e, n), win);
  }

  // ---------------------------------------------------------------- agreeing new nodes

  lemma AgreesOne(be: Backend, f: Env, n: Node, out: string, v: Tensor)
    requires n.outputs == [out] && out in f && f[out] == v && Ready(f, n.inputs)
    requires Run(be, n.op, Operands(f, n.inputs)) == Some([v])
    ensures Agrees(be, f, n)
  {}

  lemma TransposeAgrees(be: Backend, f: Env, name: string, x: string, out: string)
    requires x != "" && x in f && Rank(f[x], 3) && out in f && f[out] == Swap(f[x])
    ensures Agrees(be, f, NtcNode(name, x, [out]))
  {
    hide Swap, Agrees;
    var n := NtcNode(name, x, [out]);
    assert Operands(f, n.inputs) == [Given(f[x])];
    AgreesOne(be, f, n, out, Swap(f[x]));
  }

  lemma UnaryAgrees(be: Backend, f: Env, n: Node, x: string, out: string)
    requires n.op.Unary? && n.inputs == [x] && n.outputs == [out] && x != "" && x in f
    requires out in f && f[out] == Map(UnaryOf(be, n.op.unary), f[x])
    ensures Agrees(be, f, n)
  {
    hide Map, Agrees, UnaryOf;
    assert Operands(f, n.inputs) == [Given(f[x])];
    AgreesOne(be, f, n, out, f[out]);
  }

  lemma BinaryAgrees(be: Backend, f: Env, n: Node, x: string, y: string, out: string)
    requires n.op.Binary? && n.inputs == [x, y] && n.outputs == [out] && x != "" && x in f && y != "" && y in f
    requires Broadcastable(f[x].shape, f[y].shape) && out in f && f[out] == Zip(BinaryOf(be, n.op.binary), f[x], f[y])
    ensures Agrees(be, f, n)
  {
    hide Zip, Agrees, BinaryOf, Broadcastable;
    assert Operands(f, n.inputs) == [Given(f[x]), Given(f[y])];
    AgreesOne(be, f, n, out, f[out]);
  }

  lemma MatMulAgrees(be: Backend, f: Env, conv: Node, x: string, w: string, out: string)
    requires x != "" && x in f && w != "" && w in f && A.CanMatMul3(f[x], f[w])
    requires out in f && f[out] == A.MatMul3(f[x], f[w])
    ensures Agrees(be, f, MatMulNode(conv, x, w, out))
  {
    hide A.MatMul3, Agrees;
    var n := MatMulNode(conv, x, w, out);
    assert Operands(f, n.inputs) == [Given(f[x]), Given(f[w])];
    AgreesOne(be, f, n, out, f[out]);
  }

  /** MatMul and the optional Add agree when the result is the linear map of the rows. */
  lemma LinearAgrees(be: Backend, f: Env, conv: Node, x: string, rhs: string, out: string, pre: string)
    requires 2 <= |conv.inputs| <= 3 && x != "" && x in f && rhs != "" && rhs in f && A.CanMatMul3(f[x], f[rhs])
    requires |conv.inputs| == 3 ==>
      && conv.inputs[2] != "" && conv.inputs[2] in f && f[conv.inputs[2]].shape == [f[rhs].shape[1]]
      && pre != "" && pre in f && f[pre] == A.MatMul3(f[x], f[rhs])
    requires out in f && f[out] == A.Linear(f[x], f[rhs], BiasOf(f, conv))
    ensures var nodes := LinearPart(conv, x, rhs, [out], pre);
      forall k | 0 <= k < |nodes| :: Agrees(be, f, nodes[k])
  {
    hide A.MatMul3, Agrees, Broadcastable, AddBias;
    if |conv.inputs| == 2 {
      MatMulAgrees(be, f, conv, x, rhs, out);
    } else {
      MatMulAgrees(be, f, conv, x, rhs, pre);
      AddAgrees(be, f, BiasNode(conv, pre, conv.inputs[2], [out]), pre, conv.inputs[2], out);
    }
  }

  lemma AddAgrees(be: Backend, f: Env, n: Node, x: string, b: string, out: string)
    requires n.op == Binary(Add) && n.inputs == [x, b] && n.outputs == [out] && x != "" && x in f && b != "" && b in f
    requires Rank(f[x], 3) && f[b].shape == [f[x].shape[2]]
    requires out in f && f[out] == A.AddOptional(f[x], Some(f[b]))
    ensures Agrees(be, f, n)
  {
    hide Agrees, Broadcastable, Zip;
    AddBiasShape(f[x], f[b]);
    BinaryAgrees(be, f, n, x, b, out);
  }

  /** The Split moved to the last axis, over values that hold the transposed tensors. */
  ghost predicate MovesSplit(e: Env, f: Env, n: Node, n': Node)
    requires CutsChannels(e, n)
  {
    && n'.op == Split(2, 2) && n'.outputs == n.outputs && Ready(f, n'.inputs) && |n'.inputs| == |n.inputs|
    && n'.inputs[0] == n.inputs[0] && f[n.inputs[0]] == Swap(e[n.inputs[0]]) && Sizes(f, n') == Sizes(e, n)
    && forall i | 0 <= i < 2 ::
         n.outputs[i] in e && Rank(e[n.outputs[i]], 3) && n.outputs[i] in f && f[n.outputs[i]] == Swap(e[n.outputs[i]])
  }

  /** The Split of the transposed tensor along the last axis gives the transposed parts. */
  lemma SplitAgrees(be: Backend, e: Env, f: Env, n: Node, n': Node)
    requires Agrees(be, e, n) && CutsChannels(e, n) && MovesSplit(e, f, n, n')
    ensures Agrees(be, f, n')
  {
    hide Part, Swap, FirstSize;
    var xs, ys := Operands(e, n.inputs), Operands(f, n'.inputs);
    var t := e[n.inputs[0]];
    SplitMeans(be, e, n);
    SizesDecide(xs, ys, t.shape[1]);
    FirstSizeFits(xs, t.shape[1]);
    var size := FirstSize(xs, t.shape[1]).value;
    assert ys[0] == Given(Swap(t));
    PartSwap(t, 0, size);
    PartSwap(t, size, t.shape[1] - size);
    assert Halves(t, 1, size)[0] == e[n.outputs[0]] && Halves(t, 1, size)[1] == e[n.outputs[1]];
  }
}
