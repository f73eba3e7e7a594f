/** What the replacement blocks of `AffineBlocks` compute. */
module AffineBlockMeaning {
  import opened Wrappers
  import opened Tensors
  import opened Numerals
  import opened OnnxGraph
  import opened AffineBlocks
  import A = AffineTensors

  // ---------------------------------------------------------------- single steps

  lemma StepOf(be: Backend, e: Env, n: Node, out: string, v: Tensor)
    requires n.outputs == [out] && out != "" && Ready(e, n.inputs) && Run(be, n.op, Operands(e, n.inputs)) == Some([v])
    ensures Step(be, e, n) == Some(e[out := v])
  {
    BindOne(e, out, v);
  }

  lemma TransposeStep(be: Backend, e: Env, n: Node, x: string, out: string)
    requires n.op == Transpose(NTC_PERM) && n.inputs == [x] && n.outputs == [out] && out != "" && x != "" && x in e && Rank(e[x], 3)
    ensures Step(be, e, n) == Some(e[out := Swap(e[x])])
  {
    hide Swap, Rank;
    var xs := Operands(e, n.inputs);
    assert xs == [Given(e[x])];
    StepOf(be, e, n, out, Swap(e[x]));
  }

  lemma MatMul3Step(be: Backend, e: Env, n: Node, x: string, w: string, out: string)
    requires n.op == MatMul && n.inputs == [x, w] && n.outputs == [out] && out != "" && x != "" && w != "" && x in e && w in e
    requires A.CanMatMul3(e[x], e[w])
    ensures Step(be, e, n) == Some(e[out := A.MatMul3(e[x], e[w])])
  {
    hide A.MatMul3;
    assert Operands(e, n.inputs) == [Given(e[x]), Given(e[w])];
    StepOf(be, e, n, out, A.MatMul3(e[x], e[w]));
  }

  lemma MatMul2Step(be: Backend, e: Env, n: Node, x: string, w: string, out: string)
    requires n.op == MatMul && n.inputs == [x, w] && n.outputs == [out] && out != "" && x != "" && w != "" && x in e && w in e
    requires A.CanMatMul2(e[x], e[w])
    ensures Step(be, e, n) == Some(e[out := A.MatMul2(e[x], e[w])])
  {
    hide A.MatMul2;
    assert Operands(e, n.inputs) == [Given(e[x]), Given(e[w])];
    StepOf(be, e, n, out, A.MatMul2(e[x], e[w]));
  }

  lemma BinaryStep(be: Backend, e: Env, n: Node, k: BinaryKind, x: string, y: string, out: string)
    requires n.op == Binary(k) && n.inputs == [x, y] && n.outputs == [out] && out != "" && x != "" && y != "" && x in e && y in e
    requires Broadcastable(e[x].shape, e[y].shape)
    ensures Step(be, e, n) == Some(e[out := Zip(BinaryOf(be, k), e[x], e[y])])
  {
    hide Zip, Broadcastable;
    assert Operands(e, n.inputs) == [Given(e[x]), Given(e[y])];
    StepOf(be, e, n, out, Zip(BinaryOf(be, k), e[x], e[y]));
  }

  lemma IntsAt(vs: seq<int>, i: nat)
    requires i < |vs|
    ensures Get1(Ints(vs), i) == vs[i] as real
  {
    Make1At(|vs|, i => if 0 <= i < |vs| then vs[i] as real else 0.0, i);
  }

  lemma PadStep(be: Backend, e: Env, n: Node, x: string, pads: string, out: string, begin: nat, end: nat)
    requires n.op == Pad && n.inputs == [x, pads] && n.outputs == [out] && out != "" && x != "" && pads != "" && x in e && pads in e
    requires Rank(e[x], 3) && e[pads] == Ints([0, 0, begin, 0, 0, end])
    ensures Step(be, e, n) == Some(e[out := A.PadLast(e[x], begin, end)])
  {
    hide A.PadLast, Ints, Get1;
    var xs := Operands(e, n.inputs);
    assert xs == [Given(e[x]), Given(e[pads])];
    var vs: seq<int> := [0, 0, begin, 0, 0, end];
    IntsAt(vs, 0); IntsAt(vs, 1); IntsAt(vs, 2); IntsAt(vs, 3); IntsAt(vs, 4); IntsAt(vs, 5);
    assert PadsLastAxis(xs[1]);
    StepOf(be, e, n, out, A.PadLast(e[x], begin, end));
  }

  lemma SliceStep(be: Backend, e: Env, n: Node, names: seq<string>, out: string, start: int, end: int, step: nat)
    requires n.op == Slice && n.inputs == names && |names| == 5 && n.outputs == [out] && out != ""
    requires forall i | 0 <= i < 5 :: names[i] != "" && names[i] in e
    requires Rank(e[names[0]], 3) && step >= 1
    requires e[names[1]] == Ints([start]) && e[names[2]] == Ints([end]) && e[names[3]] == Ints([2]) && e[names[4]] == Ints([step])
    ensures Step(be, e, n) == Some(e[out := A.SliceLast(e[names[0]], start, end, step)])
  {
    hide A.SliceLast, Ints, Get1;
    var xs := Operands(e, n.inputs);
    assert forall i | 0 <= i < 5 :: xs[i] == Given(e[names[i]]);
    IntsAt([start], 0); IntsAt([end], 0); IntsAt([2], 0); IntsAt([step], 0);
    assert IntOf(xs[1]) == start && IntOf(xs[2]) == end && IntOf(xs[3]) == 2 && IntOf(xs[4]) == step;
    StepOf(be, e, n, out, A.SliceLast(e[names[0]], start, end, step));
  }

  lemma ConcatStep(be: Backend, e: Env, n: Node, names: seq<string>, xs: seq<Tensor>, out: string)
    requires n.op == Concat(1) && n.inputs == names && n.outputs == [out] && out != "" && |xs| == |names|
    requires forall i | 0 <= i < |names| :: names[i] != "" && names[i] in e && e[names[i]] == xs[i]
    requires A.CanConcat(xs)
    ensures Step(be, e, n) == Some(e[out := A.ConcatChannels(xs)])
  {
    hide A.ConcatChannels, A.CanConcat;
    var ops := Operands(e, n.inputs);
    assert forall i | 0 <= i < |names| :: ops[i] == Given(xs[i]);
    assert seq(|ops|, i requires 0 <= i < |ops| => ops[i].t) == xs;
    StepOf(be, e, n, out, A.ConcatChannels(xs));
  }

  // ---------------------------------------------------------------- constants stay readable

  ghost predicate Holds(e: Env, inits: seq<Initializer>) {
    forall k | 0 <= k < |inits| :: inits[k].name in e && e[inits[k].name] == inits[k].value
  }

  ghost predicate Apart(nodes: seq<Node>, inits: seq<Initializer>) {
    forall k | 0 <= k < |inits| :: inits[k].name !in Outs(nodes, |nodes|)
  }

  lemma HoldsAfter(be: Backend, e: Env, nodes: seq<Node>, inits: seq<Initializer>)
    requires Holds(e, inits) && Apart(nodes, inits) && Eval(be, e, nodes).Some?
    ensures Holds(Eval(be, e, nodes).value, inits)
  {
    EvalWrites(be, e, nodes);
  }

  // ---------------------------------------------------------------- MatMul and Add

  ghost predicate BiasIn(e: Env, name: Option<string>, bias: Option<Tensor>) {
    && (name.Some? <==> bias.Some?)
    && (name.Some? ==> name.value != "" && name.value in e && e[name.value] == bias.value)
  }

  lemma LinearRuns(be: Backend, e: Env, node: Node, kind: string, rows: string, matrix: string, name: Option<string>,
                   bias: Option<Tensor>, out: string)
    requires kind != "" && out != "" && rows != "" && matrix != "" && rows in e && matrix in e && BiasIn(e, name, bias)
    requires A.CanMatMul3(e[rows], e[matrix])
    requires bias.Some? ==> bias.value.shape == [e[matrix].shape[1]]
    requires name.Some? ==> Derived(node, kind + "MatMul_output") != name.value
    ensures var r := Eval(be, e, LinearNodes(node, kind, rows, matrix, name, out));
      r.Some? && out in r.value && r.value[out] == A.Linear(e[rows], e[matrix], bias)
  {
    hide A.MatMul3, A.CanMatMul3;
    var nodes := LinearNodes(node, kind, rows, matrix, name, out);
    if name == None {
      EvalOne(be, e, nodes[0]);
      MatMul3Step(be, e, nodes[0], rows, matrix, out);
    } else {
      var product := Derived(node, kind + "MatMul_output");
      var p := A.MatMul3(e[rows], e[matrix]);
      var e' := e[product := p];
      assert nodes == [nodes[0]] + [nodes[1]];
      MatMul3Step(be, e, nodes[0], rows, matrix, product);
      EvalCons(be, e, nodes[0], [nodes[1]], e');
      EvalOne(be, e', nodes[1]);
      AddBiasShape(p, bias.value);
      BinaryStep(be, e', nodes[1], Add, product, name.value, out);
    }
  }

  lemma LinearOuts(node: Node, kind: string, rows: string, matrix: string, name: Option<string>, out: string)
    requires out != "" && kind != ""
    ensures var nodes := LinearNodes(node, kind, rows, matrix, name, out);
      Outs(nodes, |nodes|) == {out} + (if name.Some? then {Derived(node, kind + "MatMul_output")} else {})
  {
    var nodes := LinearNodes(node, kind, rows, matrix, name, out);
    if name.Some? { assert Outs(nodes, 1) == {Derived(node, kind + "MatMul_output")}; }
  }

  // ---------------------------------------------------------------- whole blocks

  lemma ThenTranspose(be: Backend, e: Env, nodes: seq<Node>, last: Node, x: string, out: string, v: Tensor)
    requires Eval(be, e, nodes).Some? && x in Eval(be, e, nodes).value && Eval(be, e, nodes).value[x] == v
    requires last.op == Transpose(NTC_PERM) && last.inputs == [x] && last.outputs == [out] && out != "" && x != "" && Rank(v, 3)
    ensures var r := Eval(be, e, nodes + [last]); r.Some? && out in r.value && r.value[out] == Swap(v)
  {
    hide Swap, Rank;
    EvalAppend(be, e, nodes, [last]);
    var e' := Eval(be, e, nodes).value;
    EvalOne(be, e', last);
    TransposeStep(be, e', last, x, out);
  }

  lemma MatrixHolds(e: Env, inits: seq<Initializer>, k: nat)
    requires Holds(e, inits) && k < |inits|
    ensures inits[k].name in e && e[inits[k].name] == inits[k].value
  {}

  lemma PointwiseConstants(node: Node, weight: Tensor, bias: Option<Tensor>, e: Env)
    requires |node.inputs| >= 2 && Rank(weight, 3) && Holds(e, PointwiseInits(node, weight, bias))
    requires bias.Some? ==> |node.inputs| > 2
    ensures var m := node.inputs[1] + "__pointwise_matmul"; m in e && e[m] == A.PointwiseMatrix(weight)
    ensures BiasIn(e, BiasName(node, bias, "__pointwise_bias"), bias)
  {
    hide A.PointwiseMatrix;
    var inits := PointwiseInits(node, weight, bias);
    MatrixHolds(e, inits, 0);
    if bias.Some? { MatrixHolds(e, inits, 1); }
  }

  /** The NTC form of a pointwise convolution turns the transposed input into the transposed output. */
  lemma PointwiseNtcRuns(be: Backend, e: Env, node: Node, weight: Tensor, bias: Option<Tensor>, input: string, x: Tensor, toNct: bool)
    requires |node.inputs| >= 2 && |node.outputs| == 1 && node.outputs[0] != "" && (bias.Some? ==> |node.inputs| > 2)
    requires A.CanConv(x, weight, bias, A.UNIT) && weight.shape[2] == 1
    requires input != "" && input in e && e[input] == Swap(x)
    requires Holds(e, PointwiseInits(node, weight, bias))
    requires Apart(PointwiseNtcNodes(node, weight, bias, input, toNct).nodes, PointwiseInits(node, weight, bias))
    ensures var r := Eval(be, e, PointwiseNtcNodes(node, weight, bias, input, toNct).nodes);
      r.Some? && node.outputs[0] in r.value
      && r.value[node.outputs[0]] == (if toNct then A.Conv(x, weight, bias, A.UNIT) else Swap(A.Conv(x, weight, bias, A.UNIT)))
  {
    hide Swap, A.Conv, A.PointwiseMatrix, A.Linear;
    var inits := PointwiseInits(node, weight, bias);
    var y := A.Conv(x, weight, bias, A.UNIT);
    var nodes := PointwiseNtcNodes(node, weight, bias, input, toNct).nodes;
    var name, matrix := BiasName(node, bias, "__pointwise_bias"), node.inputs[1] + "__pointwise_matmul";
    var out := if toNct then LinearOut(node, "/", bias) else node.outputs[0];
    var linear := LinearNodes(node, "/", input, matrix, name, out);
    PointwiseConstants(node, weight, bias, e);
    LinearOuts(node, "/", input, matrix, name, out);
    if toNct {
      assert nodes == linear + [nodes[|nodes| - 1]];
      OutsAppend(linear, [nodes[|nodes| - 1]]);
    } else {
      assert nodes == linear;
    }
    if name.Some? {
      assert inits[1].name == name.value;
      assert Derived(node, "/" + "MatMul_output") in Outs(linear, |linear|);
      assert Derived(node, "/" + "MatMul_output") in Outs(nodes, |nodes|);
    }
    LinearRuns(be, e, node, "/", input, matrix, name, bias, out);
    A.PointwiseIsMatMul(x, weight, bias);
    if toNct {
      ThenTranspose(be, e, linear, nodes[|nodes| - 1], out, node.outputs[0], Swap(y));
      SwapSwap(y);
    }
  }

  /** The stand-alone form of a pointwise convolution computes the convolution. */
  lemma PointwiseRuns(be: Backend, e: Env, node: Node, weight: Tensor, bias: Option<Tensor>)
    requires |node.inputs| >= 2 && |node.outputs| == 1 && node.outputs[0] != "" && (bias.Some? ==> |node.inputs| > 2)
    requires node.inputs[0] != "" && node.inputs[0] in e
    requires A.CanConv(e[node.inputs[0]], weight, bias, A.UNIT) && weight.shape[2] == 1
    requires Holds(e, PointwiseInits(node, weight, bias))
    requires Apart(PointwiseNodes(node, weight, bias).nodes, PointwiseInits(node, weight, bias))
    ensures var r := Eval(be, e, PointwiseNodes(node, weight, bias).nodes);
      r.Some? && node.outputs[0] in r.value
      && r.value[node.outputs[0]] == A.Conv(e[node.inputs[0]], weight, bias, A.UNIT)
  {
    hide Swap, A.Conv, A.PointwiseMatrix, A.Linear, PointwiseInits, PointwiseNodes, PointwiseNtcNodes, Eval, Outs;
    var x := e[node.inputs[0]];
    var activation := Derived(node, "/TransposeIn_output");
    var first := TransposeNode(node, "/TransposeIn", node.inputs[0], activation);
    var rest := PointwiseNtcNodes(node, weight, bias, activation, true).nodes;
    var e' := e[activation := Swap(x)];
    TransposeStep(be, e, first, node.inputs[0], activation);
    PointwiseOpens(node, weight, bias);
    EvalCons(be, e, first, rest, e');
    OutsAppend([first], rest);
    PointwiseNtcRuns(be, e', node, weight, bias, activation, x, true);
  }

  /** The stand-alone form is a transpose, and the NTC form behind it. */
  lemma PointwiseOpens(node: Node, weight: Tensor, bias: Option<Tensor>)
    requires |node.inputs| >= 2 && |node.outputs| == 1 && Rank(weight, 3)
    ensures var activation := Derived(node, "/TransposeIn_output");
      var first := TransposeNode(node, "/TransposeIn", node.inputs[0], activation);
      && PointwiseNodes(node, weight, bias).nodes == [first] + PointwiseNtcNodes(node, weight, bias, activation, true).nodes
      && Outs([first], 1) == {activation} && activation != ""
  {
    var activation := Derived(node, "/TransposeIn_output");
    assert Outs([TransposeNode(node, "/TransposeIn", node.inputs[0], activation)], 0) == {};
    assert |activation| > 0;
  }

  // ---------------------------------------------------------------- convolutions with several taps

  lemma HoldsParts(e: Env, a: seq<Initializer>, b: seq<Initializer>)
    requires Holds(e, a + b)
    ensures Holds(e, a) && Holds(e, b)
  {
    forall k | 0 <= k < |a| ensures a[k].name in e && e[a[k].name] == a[k].value {
      assert (a + b)[k] == a[k];
    }
    forall k | 0 <= k < |b| ensures b[k].name in e && e[b[k].name] == b[k].value {
      assert (a + b)[|a| + k] == b[k];
    }
  }

  lemma {:induction false} TapConstants(e: Env, node: Node, win: A.Window, reach: nat, taps: nat, k: nat)
    requires k < taps && Holds(e, AllTapInits(node, win, reach, taps))
    ensures Holds(e, TapInits(node, win, reach, k))
  {
    hide Holds, TapInits;
    HoldsParts(e, AllTapInits(node, win, reach, taps - 1), TapInits(node, win, reach, taps - 1));
    if k < taps - 1 { TapConstants(e, node, win, reach, taps - 1, k); }
  }

  lemma TapStep(be: Backend, e: Env, node: Node, activation: string, win: A.Window, kernel: nat, k: nat)
    requires activation != "" && activation in e && Rank(e[activation], 3) && win.stride >= 1 && k < kernel
    requires Holds(e, TapInits(node, win, A.Reach(kernel, win), k))
    ensures Step(be, e, TapNode(node, activation, k))
            == Some(e[TapName(node, k, "_output") := A.Taps(e[activation], kernel, win)[k]])
  {
    hide A.SliceLast, Rank, Ints, A.Reach;
    var inits := TapInits(node, win, A.Reach(kernel, win), k);
    MatrixHolds(e, inits, 0); MatrixHolds(e, inits, 1); MatrixHolds(e, inits, 2); MatrixHolds(e, inits, 3);
    var n := TapNode(node, activation, k);
    SliceStep(be, e, n, n.inputs, n.outputs[0], k * win.dilation, A.TapEnd(A.Reach(kernel, win) - 1 - k * win.dilation), win.stride);
  }

  lemma {:induction false} TapOuts(node: Node, activation: string, taps: nat, x: string)
    requires x in Outs(TapNodes(node, activation, taps), taps)
    ensures exists k :: 0 <= k < taps && x == TapName(node, k, "_output")
  {
    OutsAppend(TapNodes(node, activation, taps - 1), [TapNode(node, activation, taps - 1)]);
    if x in Outs(TapNodes(node, activation, taps - 1), taps - 1) {
      TapOuts(node, activation, taps - 1, x);
    } else {
      assert x == TapName(node, taps - 1, "_output");
    }
  }

  lemma EvalNothing(be: Backend, e: Env)
    ensures Eval(be, e, []) == Some(e)
  {}

  /** After the first `taps` Slice nodes, each of their outputs holds its tap. */
  lemma {:induction false} TapsRun(be: Backend, e: Env, node: Node, activation: string, win: A.Window, kernel: nat, taps: nat)
    requires activation != "" && activation in e && Rank(e[activation], 3) && win.stride >= 1 && 1 <= kernel && taps <= kernel
    requires Holds(e, AllTapInits(node, win, A.Reach(kernel, win), kernel))
    requires Apart(TapNodes(node, activation, taps), AllTapInits(node, win, A.Reach(kernel, win), kernel))
    requires activation !in Outs(TapNodes(node, activation, taps), taps)
    ensures var r := Eval(be, e, TapNodes(node, activation, taps));
      r.Some? && forall k | 0 <= k < taps ::
                   TapName(node, k, "_output") in r.value &&
                   r.value[TapName(node, k, "_output")] == A.Taps(e[activation], kernel, win)[k]
  {
    hide A.Taps, A.Reach, Rank, Eval, TapNode, TapInits, Holds, Run, TapName;
    if taps == 0 {
      EvalNothing(be, e);
    } else {
      var before, last := TapNodes(node, activation, taps - 1), TapNode(node, activation, taps - 1);
      OutsAppend(before, [last]);
      TapsRun(be, e, node, activation, win, kernel, taps - 1);
      var r := Eval(be, e, before).value;
      EvalWrites(be, e, before);
      HoldsAfter(be, e, before, AllTapInits(node, win, A.Reach(kernel, win), kernel));
      TapConstants(r, node, win, A.Reach(kernel, win), kernel, taps - 1);
      EvalAppend(be, e, before, [last]);
      EvalOne(be, r, last);
      TapStep(be, r, node, activation, win, kernel, taps - 1);
      forall k | 0 <= k < taps - 1 ensures TapName(node, k, "_output") != TapName(node, taps - 1, "_output") {
        TapNamesDiffer(node, k, taps - 1, "_output");
      }
    }
  }

  lemma TdnnConstants(e: Env, node: Node, weight: Tensor, bias: Option<Tensor>, win: A.Window, reach: nat)
    requires |node.inputs| >= 2 && Rank(weight, 3) && Holds(e, TdnnInits(node, weight, bias, win, reach))
    requires bias.Some? ==> |node.inputs| > 2
    ensures Holds(e, PadInits(node, win)) && Holds(e, AllTapInits(node, win, reach, weight.shape[2]))
    ensures var m := node.inputs[1] + "__tdnn_matmul"; m in e && e[m] == A.TapMatrix(weight)
    ensures BiasIn(e, BiasName(node, bias, "__tdnn_bias"), bias)
  {
    hide A.TapMatrix;
    var m := [Initializer(node.inputs[1] + "__tdnn_matmul", A.TapMatrix(weight))];
    var b := BiasInit(node, bias, "__tdnn_bias");
    HoldsParts(e, PadInits(node, win) + AllTapInits(node, win, reach, weight.shape[2]) + m, b);
    HoldsParts(e, PadInits(node, win) + AllTapInits(node, win, reach, weight.shape[2]), m);
    HoldsParts(e, PadInits(node, win), AllTapInits(node, win, reach, weight.shape[2]));
    MatrixHolds(e, m, 0);
    if bias.Some? { MatrixHolds(e, b, 0); }
  }

  lemma PadRuns(be: Backend, e: Env, node: Node, win: A.Window)
    requires |node.inputs| >= 2 && node.inputs[0] != "" && node.inputs[0] in e && Rank(e[node.inputs[0]], 3)
    requires Holds(e, PadInits(node, win))
    ensures var r := Eval(be, e, PadNodes(node, win)); var a := TdnnActivation(node, win);
      r.Some? && a != "" && a in r.value && r.value[a] == A.PadIfNeeded(e[node.inputs[0]], win)
  {
    hide A.PadLast, Ints, Rank;
    if Pads(win) {
      var n := PadNodes(node, win)[0];
      MatrixHolds(e, PadInits(node, win), 0);
      EvalOne(be, e, n);
      PadStep(be, e, n, node.inputs[0], n.inputs[1], n.outputs[0], win.padBegin, win.padEnd);
    }
  }

  function StackNodes(node: Node, kernel: nat): seq<Node> {
    [Node(Derived(node, "/TDNNConcat"), Concat(1), TapOutputs(node, kernel), [Derived(node, "/TDNNConcat_output")]),
     TransposeNode(node, "/TDNNTransposeIn", Derived(node, "/TDNNConcat_output"), Derived(node, "/TDNNTransposeIn_output"))]
  }

  /** Everything up to the MatMul: pad, slice the taps, stack them, transpose to rows. */
  function RowNodes(node: Node, win: A.Window, kernel: nat): seq<Node>
    requires |node.inputs| >= 2
  {
    PadNodes(node, win) + TapNodes(node, TdnnActivation(node, win), kernel) + StackNodes(node, kernel)
  }

  lemma StackRuns(be: Backend, e: Env, node: Node, kernel: nat, xs: seq<Tensor>)
    requires |xs| == kernel && A.CanConcat(xs)
    requires forall k | 0 <= k < kernel :: TapName(node, k, "_output") in e && e[TapName(node, k, "_output")] == xs[k]
    ensures var r := Eval(be, e, StackNodes(node, kernel)); var rows := Derived(node, "/TDNNTransposeIn_output");
      r.Some? && rows in r.value && r.value[rows] == Swap(A.ConcatChannels(xs))
  {
    hide A.ConcatChannels, Swap, A.CanConcat;
    var ns := StackNodes(node, kernel);
    assert ns == [ns[0]] + [ns[1]];
    EvalOne(be, e, ns[0]);
    ConcatStep(be, e, ns[0], TapOutputs(node, kernel), xs, ns[0].outputs[0]);
    ThenTranspose(be, e, [ns[0]], ns[1], ns[0].outputs[0], ns[1].outputs[0], A.ConcatChannels(xs));
  }

  lemma PaddedTapsRun(be: Backend, e: Env, node: Node, win: A.Window, kernel: nat)
    requires |node.inputs| >= 2 && node.inputs[0] != "" && node.inputs[0] in e && Rank(e[node.inputs[0]], 3)
    requires win.stride >= 1 && kernel >= 1 && Rank(A.PadIfNeeded(e[node.inputs[0]], win), 3)
    requires Holds(e, PadInits(node, win)) && Holds(e, AllTapInits(node, win, A.Reach(kernel, win), kernel))
    requires Apart(RowNodes(node, win, kernel), AllTapInits(node, win, A.Reach(kernel, win), kernel))
    requires node.inputs[0] !in Outs(RowNodes(node, win, kernel), |RowNodes(node, win, kernel)|)
    ensures var r := Eval(be, e, PadNodes(node, win) + TapNodes(node, TdnnActivation(node, win), kernel));
      r.Some? && forall k | 0 <= k < kernel ::
                   TapName(node, k, "_output") in r.value &&
                   r.value[TapName(node, k, "_output")] == A.Taps(A.PadIfNeeded(e[node.inputs[0]], win), kernel, win)[k]
  {
    hide Rank, A.Taps, A.PadIfNeeded, A.Reach, AllTapInits, TapNodes, PadInits, PadNodes, TdnnActivation;
    var pad, a := PadNodes(node, win), TdnnActivation(node, win);
    var taps := TapNodes(node, a, kernel);
    var all := AllTapInits(node, win, A.Reach(kernel, win), kernel);
    ApartPrefix(pad + taps, StackNodes(node, kernel), all);
    OutsAppend(pad, taps);
    PadRuns(be, e, node, win);
    HoldsAfter(be, e, pad, all);
    ActivationKept(node, win, kernel);
    TapsRun(be, Eval(be, e, pad).value, node, a, win, kernel, kernel);
    EvalAppend(be, e, pad, taps);
  }

  lemma RowsRun(be: Backend, e: Env, node: Node, win: A.Window, kernel: nat)
    requires |node.inputs| >= 2 && node.inputs[0] != "" && node.inputs[0] in e && Rank(e[node.inputs[0]], 3)
    requires win.stride >= 1 && win.dilation >= 1 && kernel >= 1 && A.FitsInt64(e[node.inputs[0]], win)
    requires A.Reach(kernel, win) <= A.PaddedLength(e[node.inputs[0]].shape[2], win)
    requires Holds(e, PadInits(node, win)) && Holds(e, AllTapInits(node, win, A.Reach(kernel, win), kernel))
    requires Apart(RowNodes(node, win, kernel), AllTapInits(node, win, A.Reach(kernel, win), kernel))
    requires node.inputs[0] !in Outs(RowNodes(node, win, kernel), |RowNodes(node, win, kernel)|)
    ensures var r := Eval(be, e, RowNodes(node, win, kernel)); var rows := Derived(node, "/TDNNTransposeIn_output");
      r.Some? && rows in r.value && r.value[rows] == A.TapRows(e[node.inputs[0]], kernel, win)
  {
    hide Rank, A.Taps, A.PadIfNeeded, A.ConcatChannels, Swap, A.CanConcat, A.Reach, A.FitsInt64, A.PaddedLength;
    hide AllTapInits, TapNodes, PadInits, PadNodes, TdnnActivation, StackNodes, Outs;
    var x := e[node.inputs[0]];
    A.TapRowsShape(x, kernel, win);
    PaddedTapsRun(be, e, node, win, kernel);
    var before := PadNodes(node, win) + TapNodes(node, TdnnActivation(node, win), kernel);
    EvalAppend(be, e, before, StackNodes(node, kernel));
    StackRuns(be, Eval(be, e, before).value, node, kernel, A.Taps(A.PadIfNeeded(x, win), kernel, win));
    TapRowsIs(x, kernel, win);
  }

  lemma TapRowsIs(x: Tensor, kernel: nat, win: A.Window)
    requires Rank(x, 3) && kernel >= 1 && win.stride >= 1 && win.dilation >= 1 && A.FitsInt64(x, win)
    requires A.Reach(kernel, win) <= A.PaddedLength(x.shape[2], win)
    requires Rank(A.PadIfNeeded(x, win), 3) && A.CanConcat(A.Taps(A.PadIfNeeded(x, win), kernel, win))
    ensures A.TapRows(x, kernel, win) == Swap(A.ConcatChannels(A.Taps(A.PadIfNeeded(x, win), kernel, win)))
  {
    hide Rank, A.Taps, A.PadIfNeeded, A.ConcatChannels, Swap, A.CanConcat, A.Reach, A.FitsInt64, A.PaddedLength;
  }

  /** No tap overwrites the tensor all taps read. */
  lemma ActivationKept(node: Node, win: A.Window, kernel: nat)
    requires |node.inputs| >= 2
    requires node.inputs[0] !in Outs(RowNodes(node, win, kernel), |RowNodes(node, win, kernel)|)
    ensures var a := TdnnActivation(node, win); a !in Outs(TapNodes(node, a, kernel), kernel)
  {
    hide TapNodes, StackNodes, Decimal, Outs;
    var a := TdnnActivation(node, win);
    var taps := TapNodes(node, a, kernel);
    if Pads(win) {
      forall k | 0 <= k < kernel ensures a != TapName(node, k, "_output") { PadNotTap(node, k); }
      if a in Outs(taps, kernel) {
        TapOuts(node, a, kernel, a);
        assert false;
      }
    } else {
      OutsAppend(PadNodes(node, win) + taps, StackNodes(node, kernel));
      OutsAppend(PadNodes(node, win), taps);
    }
  }

  lemma PadNotTap(node: Node, k: nat)
    ensures Derived(node, "/TDNNPad_output") != TapName(node, k, "_output")
  {
    var s := "/TDNNTap" + Decimal(k) + "_output";
    assert s[5] == 'T';
    SuffixesDiffer(Prefix(node), s, "/TDNNPad_output");
  }

  /** The tapped form computes the convolution. */
  lemma TdnnRuns(be: Backend, e: Env, node: Node, weight: Tensor, bias: Option<Tensor>, win: A.Window)
    requires |node.inputs| >= 2 && |node.outputs| == 1 && node.outputs[0] != "" && (bias.Some? ==> |node.inputs| > 2)
    requires node.inputs[0] != "" && node.inputs[0] in e
    requires A.CanConv(e[node.inputs[0]], weight, bias, win) && A.FitsInt64(e[node.inputs[0]], win)
    requires Holds(e, TdnnPiece(node, weight, bias, win).inits)
    requires Apart(TdnnPiece(node, weight, bias, win).nodes, TdnnPiece(node, weight, bias, win).inits)
    requires node.inputs[0] !in Outs(TdnnPiece(node, weight, bias, win).nodes, |TdnnPiece(node, weight, bias, win).nodes|)
    ensures var r := Eval(be, e, TdnnPiece(node, weight, bias, win).nodes);
      r.Some? && node.outputs[0] in r.value
      && r.value[node.outputs[0]] == A.Conv(e[node.inputs[0]], weight, bias, win)
  {
    hide A.Taps, Swap, A.Conv, A.TapMatrix, A.Linear, A.TapRows, A.Reach;
    hide AllTapInits, TapNodes, PadInits, PadNodes, Outs;
    var x, kernel := e[node.inputs[0]], weight.shape[2];
    var piece := TdnnPiece(node, weight, bias, win);
    var name, matrix := BiasName(node, bias, "__tdnn_bias"), node.inputs[1] + "__tdnn_matmul";
    var rows, out := Derived(node, "/TDNNTransposeIn_output"), LinearOut(node, "/TDNN", bias);
    var pre := RowNodes(node, win, kernel);
    var linear := LinearNodes(node, "/TDNN", rows, matrix, name, out);
    var last := TransposeNode(node, "/TDNNTransposeOut", out, node.outputs[0]);
    assert piece.nodes == (pre + linear) + [last];
    OutsAppend(pre + linear, [last]);
    OutsAppend(pre, linear);
    TdnnApart(node, weight, bias, win, pre, linear, last);
    TdnnConstants(e, node, weight, bias, win, A.Reach(kernel, win));
    RowsRun(be, e, node, win, kernel);
    var r := Eval(be, e, pre).value;
    HoldsAfter(be, e, pre, piece.inits);
    TdnnConstants(r, node, weight, bias, win, A.Reach(kernel, win));
    LinearRuns(be, r, node, "/TDNN", rows, matrix, name, bias, out);
    EvalAppend(be, e, pre, linear);
    A.TdnnIsConv(x, weight, bias, win);
    ThenTranspose(be, e, pre + linear, last, out, node.outputs[0], Swap(A.Conv(x, weight, bias, win)));
    SwapSwap(A.Conv(x, weight, bias, win));
  }

  lemma TdnnApart(node: Node, weight: Tensor, bias: Option<Tensor>, win: A.Window, pre: seq<Node>, linear: seq<Node>, last: Node)
    requires |node.inputs| >= 2 && |node.outputs| == 1 && Rank(weight, 3) && weight.shape[2] >= 1
    requires bias.Some? ==> |node.inputs| > 2
    requires pre == RowNodes(node, win, weight.shape[2])
    requires linear == LinearNodes(node, "/TDNN", Derived(node, "/TDNNTransposeIn_output"), node.inputs[1] + "__tdnn_matmul",
                                   BiasName(node, bias, "__tdnn_bias"), LinearOut(node, "/TDNN", bias))
    requires Apart((pre + linear) + [last], TdnnPiece(node, weight, bias, win).inits)
    ensures Apart(pre, TdnnPiece(node, weight, bias, win).inits)
    ensures Apart(pre, AllTapInits(node, win, A.Reach(weight.shape[2], win), weight.shape[2]))
    ensures bias.Some? ==> Derived(node, "/TDNN" + "MatMul_output") != BiasName(node, bias, "__tdnn_bias").value
  {
    hide A.Reach, A.TapMatrix, Outs, Prefix, AllTapInits, RowNodes, Apart;
    var pads, m := PadInits(node, win), [Initializer(node.inputs[1] + "__tdnn_matmul", A.TapMatrix(weight))];
    var taps, b := AllTapInits(node, win, A.Reach(weight.shape[2], win), weight.shape[2]), BiasInit(node, bias, "__tdnn_bias");
    ApartPrefix(pre + linear, [last], pads + taps + m + b);
    ApartPrefix(pre, linear, pads + taps + m + b);
    ApartParts(pre + linear, pads + taps + m, b);
    ApartParts(pre, pads + taps + m, b);
    ApartParts(pre, pads + taps, m);
    ApartParts(pre, pads, taps);
    if bias.Some? {
      LinearOuts(node, "/TDNN", Derived(node, "/TDNNTransposeIn_output"), node.inputs[1] + "__tdnn_matmul",
                 BiasName(node, bias, "__tdnn_bias"), LinearOut(node, "/TDNN", bias));
      OutsAppend(pre, linear);
      assert b[0].name == BiasName(node, bias, "__tdnn_bias").value;
    }
  }

  lemma ApartPrefix(ns: seq<Node>, ms: seq<Node>, inits: seq<Initializer>)
    requires Apart(ns + ms, inits)
    ensures Apart(ns, inits)
  {
    OutsAppend(ns, ms);
  }

  lemma ApartParts(nodes: seq<Node>, a: seq<Initializer>, b: seq<Initializer>)
    requires Apart(nodes, a + b)
    ensures Apart(nodes, a) && Apart(nodes, b)
  {
    forall k | 0 <= k < |a| ensures a[k].name !in Outs(nodes, |nodes|) { assert (a + b)[k] == a[k]; }
    forall k | 0 <= k < |b| ensures b[k].name !in Outs(nodes, |nodes|) { assert (a + b)[|a| + k] == b[k]; }
  }

  // ---------------------------------------------------------------- Gemm

  /** MatMul with the scaled matrix, plus the scaled bias, computes Gemm. */
  lemma GemmRuns(be: Backend, e: Env, node: Node, weight: Tensor, bias: Option<Tensor>)
    requires node.op.Gemm? && |node.inputs| >= 2 && |node.outputs| == 1 && node.outputs[0] != "" && (bias.Some? ==> |node.inputs| > 2)
    requires node.inputs[0] != "" && node.inputs[0] in e && GemmNodes(node, weight, bias).Ok?
    requires A.CanGemm(e[node.inputs[0]], weight, bias, false, node.op.transB != 0)
    requires Holds(e, GemmInits(node, weight, bias))
    requires Apart(GemmNodes(node, weight, bias).value.nodes, GemmInits(node, weight, bias))
    ensures var r := Eval(be, e, GemmNodes(node, weight, bias).value.nodes);
      r.Some? && node.outputs[0] in r.value
      && r.value[node.outputs[0]] == A.Gemm(e[node.inputs[0]], weight, bias, false, node.op.transB != 0, node.op.alpha, node.op.beta)
  {
    hide A.MatMul2, A.Scale, A.FlipIf, Zip, Broadcastable, JointShape;
    var x, op := e[node.inputs[0]], node.op;
    var m := A.FlipIf(op.transB != 0, weight);
    var inits := GemmInits(node, weight, bias);
    var nodes := GemmNodes(node, weight, bias).value.nodes;
    var matrix, out := node.inputs[1] + "__gemm_matmul", node.outputs[0];
    NoFlip(x);
    MatrixHolds(e, inits, 0);
    A.ScaleRight(op.alpha, x, m);
    LinearOuts(node, "/", node.inputs[0], matrix, BiasName(node, bias, "__gemm_bias"), out);
    if bias == None {
      EvalOne(be, e, nodes[0]);
      MatMul2Step(be, e, nodes[0], node.inputs[0], matrix, out);
    } else {
      var product, b := Derived(node, "/" + "MatMul_output"), node.inputs[2] + "__gemm_bias";
      MatrixHolds(e, inits, 1);
      assert inits[1].name == b;
      assert product in Outs(nodes, |nodes|);
      var e' := e[product := A.MatMul2(x, A.Scale(op.alpha, m))];
      assert nodes == [nodes[0]] + [nodes[1]];
      MatMul2Step(be, e, nodes[0], node.inputs[0], matrix, product);
      EvalCons(be, e, nodes[0], [nodes[1]], e');
      EvalOne(be, e', nodes[1]);
      BinaryStep(be, e', nodes[1], Add, product, b, out);
    }
  }

  lemma NoFlip(x: Tensor)
    requires Rank(x, 2)
    ensures A.FlipIf(false, x) == x
  {}
}
