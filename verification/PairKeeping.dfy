/** The variant of the pair lowering that keeps the depthwise layout: each convolution becomes a MatMul between two
    transposes, one of which was there before. */
module PairKeeping {
  import opened Wrappers
  import opened Tensors
  import opened OnnxGraph
  import opened AffineBlocks
  import opened AffineLowering
  import opened GraphAgreement
  import opened PairLowering
  import opened PairMeaning
  import opened PairDeleting
  import opened PairTheorem
  import A = AffineTensors

  datatype Ends = Ends(x: string, t: string, c1: string, a: string, c2: string, y: string)

  /** Two pointwise convolutions with biases, one behind a transpose, the other in front of one. */
  predicate Joined(b: Block, w: Ends) {
    && b.middle.None? && Turn(b.before, w.x, w.t) && PointConv(b.conv1, w.t, w.c1) && |b.conv1.inputs| == 3
    && PointConv(b.conv2, w.a, w.c2) && |b.conv2.inputs| == 3 && Turn(b.after, w.c2, w.y) && w.x != "" && w.a != ""
  }

  function Rows1(w: Ends): string { w.c1 + "__ntc_pre_bias" }

  function Ntc1(w: Ends): string { w.c1 + "__ntc" }

  function Ntc2(w: Ends): string { w.a + "__ntc" }

  function Rows2(w: Ends): string { w.y + "__pre_bias" }

  function Names6(b: Block, w: Ends): seq<string>
    requires Joined(b, w)
  {
    [Rhs(b.conv1.inputs[1]), Rhs(b.conv2.inputs[1]), Rows1(w), Ntc1(w), Ntc2(w), Rows2(w)]
  }

  /** The graph is in proper form, and the tensors the rewrite removes are read only where it removes the reader. */
  ghost predicate Tidy(nodes: seq<Node>, given: set<string>, b: Block, w: Ends) {
    && SingleAssignment(nodes, given) && "" !in given
    && (forall k | 0 <= k < |nodes| :: DistinctOutputs(nodes[k]))
    && Joined(b, w) && b.before in nodes && b.conv1 in nodes && b.conv2 in nodes && b.after in nodes
    && b.conv1 != b.conv2 && b.before != b.after
    && ReadOnlyBy(nodes, w.t, {b.conv1}) && ReadOnlyBy(nodes, w.c2, {b.after})
    && ReadOnlyBy(nodes, b.conv1.inputs[1], {b.conv1}) && ReadOnlyBy(nodes, b.conv2.inputs[1], {b.conv2})
    && b.conv1.inputs[1] in given && b.conv2.inputs[1] in given
    && b.conv1.inputs[2] in given - {b.conv1.inputs[1], b.conv2.inputs[1]}
    && b.conv2.inputs[2] in given - {b.conv1.inputs[1], b.conv2.inputs[1]}
  }

  ghost predicate FreshSix(e: Env, b: Block, w: Ends)
    requires Joined(b, w)
  {
    AllDistinct(Names6(b, w)) && forall x | x in Names6(b, w) :: x !in e && x != ""
  }

  ghost predicate Situation(be: Backend, nodes: seq<Node>, given: set<string>, b: Block, w: Ends, e: Env) {
    && Tidy(nodes, given, b, w) && e.Keys == given + Outs(nodes, |nodes|)
    && (forall k | 0 <= k < |nodes| :: Agrees(be, e, nodes[k]))
    && Kernels(e, b) && FreshSix(e, b, w)
  }

  predicate Has(e: Env, b: Block, w: Ends) {
    Joined(b, w) && w.x in e && w.c1 in e && w.a in e && b.conv1.inputs[1] in e && b.conv2.inputs[1] in e
  }

  /** What the made-up names hold; all old names keep their values. */
  function ValueOf(e: Env, b: Block, w: Ends, x: string): Tensor
    requires Has(e, b, w) && (x in e || x in Names6(b, w))
  {
    if x in e then e[x]
    else if x == Rhs(b.conv1.inputs[1]) then MatrixIf(e[b.conv1.inputs[1]])
    else if x == Rhs(b.conv2.inputs[1]) then MatrixIf(e[b.conv2.inputs[1]])
    else if x == Rows1(w) then Product(e[w.x], e[b.conv1.inputs[1]])
    else if x == Ntc1(w) then SwapIf(e[w.c1])
    else if x == Ntc2(w) then SwapIf(e[w.a])
    else Product(SwapIf(e[w.a]), e[b.conv2.inputs[1]])
  }

  function Values(e: Env, b: Block, w: Ends): Env
    requires Has(e, b, w)
  {
    map x | x in e.Keys + (set y | y in Names6(b, w)) :: ValueOf(e, b, w, x)
  }

  lemma SixDiffer(e: Env, b: Block, w: Ends)
    requires Joined(b, w) && FreshSix(e, b, w)
    ensures var n := Names6(b, w);
      && n[0] != n[1] && n[0] != n[2] && n[0] != n[3] && n[0] != n[4] && n[0] != n[5]
      && n[1] != n[2] && n[1] != n[3] && n[1] != n[4] && n[1] != n[5]
      && n[2] != n[3] && n[2] != n[4] && n[2] != n[5] && n[3] != n[4] && n[3] != n[5] && n[4] != n[5]
      && n[0] !in e && n[1] !in e && n[2] !in e && n[3] !in e && n[4] !in e && n[5] !in e
      && n[0] != "" && n[1] != "" && n[2] != "" && n[3] != "" && n[4] != "" && n[5] != ""
  {
    hide Rhs, Rows1, Rows2, Ntc1, Ntc2;
    var n := Names6(b, w);
    assert n[0] in n && n[1] in n && n[2] in n && n[3] in n && n[4] in n && n[5] in n;
  }

  lemma SixValues(e: Env, b: Block, w: Ends)
    requires Has(e, b, w) && FreshSix(e, b, w)
    ensures var f := Values(e, b, w);
      && Rhs(b.conv1.inputs[1]) in f && f[Rhs(b.conv1.inputs[1])] == MatrixIf(e[b.conv1.inputs[1]])
      && Rhs(b.conv2.inputs[1]) in f && f[Rhs(b.conv2.inputs[1])] == MatrixIf(e[b.conv2.inputs[1]])
      && Rows1(w) in f && f[Rows1(w)] == Product(e[w.x], e[b.conv1.inputs[1]])
      && Ntc1(w) in f && f[Ntc1(w)] == SwapIf(e[w.c1])
      && Ntc2(w) in f && f[Ntc2(w)] == SwapIf(e[w.a])
      && Rows2(w) in f && f[Rows2(w)] == Product(SwapIf(e[w.a]), e[b.conv2.inputs[1]])
      && forall x | x in e :: x in f && f[x] == e[x]
  {
    hide SwapIf, Product, MatrixIf, Rows1, Rows2, Ntc1, Ntc2, Rhs, FreshSix, Joined;
    SixDiffer(e, b, w);
  }

  // ---------------------------------------------------------------- agreement

  lemma BothRan(be: Backend, nodes: seq<Node>, given: set<string>, b: Block, w: Ends, e: Env)
    requires Situation(be, nodes, given, b, w, e)
    ensures Has(e, b, w) && Rank(e[w.x], 3) && Rank(e[w.c1], 3) && Rank(e[w.a], 3) && w.y in e
    ensures A.CanMatMul3(e[w.x], A.PointwiseMatrix(e[b.conv1.inputs[1]]))
    ensures BiasOf(e, b.conv1).Some? ==> BiasOf(e, b.conv1).value.shape == [A.PointwiseMatrix(e[b.conv1.inputs[1]]).shape[1]]
    ensures Swap(e[w.c1]) == A.Linear(e[w.x], A.PointwiseMatrix(e[b.conv1.inputs[1]]), BiasOf(e, b.conv1))
    ensures A.CanMatMul3(Swap(e[w.a]), A.PointwiseMatrix(e[b.conv2.inputs[1]]))
    ensures BiasOf(e, b.conv2).Some? ==> BiasOf(e, b.conv2).value.shape == [A.PointwiseMatrix(e[b.conv2.inputs[1]]).shape[1]]
    ensures e[w.y] == A.Linear(Swap(e[w.a]), A.PointwiseMatrix(e[b.conv2.inputs[1]]), BiasOf(e, b.conv2))
    ensures b.conv1.inputs[2] in e && b.conv2.inputs[2] in e
  {
    hide A.Linear, Swap, A.PointwiseMatrix, Agrees, BiasOf, A.CanMatMul3, SingleAssignment, DistinctOutputs, ReadOnlyBy, FreshSix;
    assert Agrees(be, e, b.before) && Agrees(be, e, b.conv1) && Agrees(be, e, b.conv2) && Agrees(be, e, b.after);
    TransposeMeans(be, e, b.before);
    ConvIsLinear(be, e, b.conv1, w.t, w.c1);
    SwapSwap(e[w.x]);
    ConvIsLinear(be, e, b.conv2, w.a, w.c2);
    TransposeMeans(be, e, b.after);
  }

  lemma LinearThree(be: Backend, f: Env, conv: Node, x: string, rhs: string, outputs: seq<string>, pre: string, e: Env)
    requires |conv.inputs| == 3 && |outputs| == 1 && conv.inputs[2] != "" && conv.inputs[2] in f && conv.inputs[2] in e
    requires f[conv.inputs[2]] == e[conv.inputs[2]]
    requires x != "" && x in f && rhs != "" && rhs in f && A.CanMatMul3(f[x], f[rhs]) && pre != "" && pre in f
    requires f[pre] == A.MatMul3(f[x], f[rhs]) && f[conv.inputs[2]].shape == [f[rhs].shape[1]]
    requires outputs[0] in f && f[outputs[0]] == A.Linear(f[x], f[rhs], BiasOf(e, conv))
    ensures Agrees(be, f, MatMulNode(conv, x, rhs, pre)) && Agrees(be, f, BiasNode(conv, pre, conv.inputs[2], outputs))
  {
    hide Agrees, A.MatMul3, A.Linear;
    LinearAgrees(be, f, conv, x, rhs, outputs[0], pre);
    var part := LinearPart(conv, x, rhs, [outputs[0]], pre);
    assert outputs == [outputs[0]];
    assert Agrees(be, f, part[0]) && Agrees(be, f, part[1]);
  }

  lemma FirstAgrees(be: Backend, nodes: seq<Node>, given: set<string>, b: Block, w: Ends, e: Env)
    requires Situation(be, nodes, given, b, w, e) && Has(e, b, w) && Ready1(b)
    ensures AllAgree(be, Values(e, b, w), KeepingPiece(b, b.before))
  {
    hide SingleAssignment, DistinctOutputs, UnitConv, Values, FreshSix, Agrees, ReadOnlyBy, Swap, A.Linear, A.MatMul3,
      A.PointwiseMatrix, A.CanMatMul3;
    var f := Values(e, b, w);
    BothRan(be, nodes, given, b, w, e);
    SixValues(e, b, w);
    SixDiffer(e, b, w);
    LinearThree(be, f, b.conv1, w.x, Rhs(b.conv1.inputs[1]), [Ntc1(w)], Rows1(w), e);
    SwapSwap(e[w.c1]);
    TransposeAgrees(be, f, b.conv1.name + "/TransposeForDepthwise", Ntc1(w), w.c1);
    assert b.conv1.outputs == [w.c1];
  }

  lemma SecondAgrees(be: Backend, nodes: seq<Node>, given: set<string>, b: Block, w: Ends, e: Env)
    requires Situation(be, nodes, given, b, w, e) && Has(e, b, w) && Ready1(b)
    ensures AllAgree(be, Values(e, b, w), KeepingPiece(b, b.conv2))
  {
    hide SingleAssignment, DistinctOutputs, Values, FreshSix, Agrees, ReadOnlyBy, Swap, A.Linear, A.MatMul3,
      A.PointwiseMatrix, A.CanMatMul3;
    var f := Values(e, b, w);
    BothRan(be, nodes, given, b, w, e);
    SixValues(e, b, w);
    SixDiffer(e, b, w);
    TransposeAgrees(be, f, b.conv2.name + "/TransposeForMatMul", w.a, Ntc2(w));
    LinearThree(be, f, b.conv2, Ntc2(w), Rhs(b.conv2.inputs[1]), [w.y], Rows2(w), e);
    assert b.after.outputs == [w.y];
  }

  lemma PlainAgrees(be: Backend, nodes: seq<Node>, given: set<string>, b: Block, w: Ends, e: Env, n: Node)
    requires Situation(be, nodes, given, b, w, e) && Has(e, b, w) && n in nodes
    ensures Agrees(be, Values(e, b, w), n)
  {
    hide SingleAssignment, DistinctOutputs, Values, FreshSix, ReadOnlyBy, Joined, Kernels, Run;
    SixValues(e, b, w);
    assert Agrees(be, e, n);
    assert Operands(Values(e, b, w), n.inputs) == Operands(e, n.inputs);
  }

  lemma KeepingAgrees(be: Backend, nodes: seq<Node>, given: set<string>, b: Block, w: Ends, e: Env, n: Node)
    requires Situation(be, nodes, given, b, w, e) && Has(e, b, w) && Ready1(b) && n in nodes
    ensures AllAgree(be, Values(e, b, w), KeepingPiece(b, n))
  {
    hide SingleAssignment, DistinctOutputs, Values, FreshSix, ReadOnlyBy, Agrees, Kernels;
    if n == b.before {
      FirstAgrees(be, nodes, given, b, w, e);
    } else if n == b.conv2 {
      SecondAgrees(be, nodes, given, b, w, e);
    } else if n != b.conv1 && n != b.after {
      PlainAgrees(be, nodes, given, b, w, e, n);
    }
  }

  // ---------------------------------------------------------------- order

  ghost predicate Lined(nodes: seq<Node>, given: set<string>, b: Block, w: Ends) {
    Tidy(nodes, given, b, w) && Ready1(b) && Ordered(nodes, given)
  }

  lemma KeepsFirst(b: Block, w: Ends)
    requires Joined(b, w) && Ready1(b)
    ensures var piece := Piece1(b, b.before); w.c1 in Outs(piece, |piece|)
  {
    OutsOf(Piece1(b, b.before), 2, w.c1);
  }

  lemma KeepsLast(b: Block, w: Ends)
    requires Joined(b, w) && Ready1(b) && b.conv2 != b.conv1
    ensures var piece := Piece1(b, b.conv2); w.y in Outs(piece, |piece|)
  {
    OutsOf(Piece1(b, b.conv2), 2, w.y);
  }

  lemma Kept1(nodes: seq<Node>, given: set<string>, b: Block, w: Ends, k: nat, x: string)
    requires Lined(nodes, given, b, w) && k < |nodes| && Produces(nodes[k], x) && x !in {w.t, w.c2}
    ensures x in Made1(b, nodes, k + 1)
  {
    hide DistinctOutputs, Ordered, SingleAssignment, Made1, ReadOnlyBy, Outs;
    var n := nodes[k];
    if n == b.conv1 {
      var j := EarlierMaker(nodes, given, b.before, w.t, k);
      KeepsFirst(b, w);
      MadeOfPiece(b, nodes, j, k + 1);
    } else if n == b.after {
      var j := EarlierMaker(nodes, given, b.conv2, w.c2, k);
      KeepsLast(b, w);
      MadeOfPiece(b, nodes, j, k + 1);
    } else {
      assert Piece1(b, n) == [n];
      OutsOf([n], 0, x);
      MadeOfPiece(b, nodes, k, k + 1);
    }
  }

  lemma {:induction false} AllKept(nodes: seq<Node>, given: set<string>, b: Block, w: Ends, k: nat, x: string)
    requires Lined(nodes, given, b, w) && k <= |nodes| && x in Outs(nodes, k) && x !in {w.t, w.c2}
    ensures x in Made1(b, nodes, k)
    decreases k
  {
    hide Lined, Made1, Piece1;
    if Produces(nodes[k - 1], x) {
      Kept1(nodes, given, b, w, k - 1, x);
    } else {
      LinedReady(nodes, given, b, w);
      AllKept(nodes, given, b, w, k - 1, x);
      MadeStep(b, nodes, k - 1);
    }
  }

  lemma LinedReady(nodes: seq<Node>, given: set<string>, b: Block, w: Ends)
    requires Lined(nodes, given, b, w)
    ensures Ready1(b) && Shaped(b)
  {}

  lemma ReadThere(nodes: seq<Node>, given: set<string>, b: Block, w: Ends, k: nat, x: string)
    requires Lined(nodes, given, b, w) && k < |nodes| && Reads(nodes[k], x) && x != ""
    requires x !in {w.t, w.c2, Weight1(b), Weight2(b)}
    ensures x in NewGiven(given, b) + Made1(b, nodes, k)
  {
    hide DistinctOutputs, SingleAssignment, Made1, ReadOnlyBy;
    assert OrderedAt(nodes, given, k);
    if x !in given { AllKept(nodes, given, b, w, k, x); }
  }

  /** Nodes that stay read nothing that goes. */
  lemma ReadsWhatStays(nodes: seq<Node>, given: set<string>, b: Block, w: Ends, n: Node, x: string)
    requires Tidy(nodes, given, b, w) && Shaped(b) && n in nodes && Reads(n, x) && n !in {b.conv1, b.conv2, b.after}
    ensures x !in {w.t, w.c2, Weight1(b), Weight2(b)}
  {
    hide DistinctOutputs, SingleAssignment, ReadOnlyBy;
    if x == w.t { ReaderIs(nodes, x, {b.conv1}, n); }
    if x == w.c2 { ReaderIs(nodes, x, {b.after}, n); }
    if x == Weight1(b) { ReaderIs(nodes, x, {b.conv1}, n); }
    if x == Weight2(b) { ReaderIs(nodes, x, {b.conv2}, n); }
  }

  lemma ThreeWithin(p: Node, q: Node, r: Node, names: set<string>)
    requires ReadsWithin(p, names) && ReadsWithin(q, names + Names(p.outputs))
    requires ReadsWithin(r, names + Names(p.outputs) + Names(q.outputs))
    ensures PieceWithin([p, q, r], names)
  {
    var piece := [p, q, r];
    assert Outs(piece, 0) == {} && Outs(piece, 1) == Names(p.outputs) && Outs(piece, 2) == Names(p.outputs) + Names(q.outputs);
  }

  lemma BeforeWithin(nodes: seq<Node>, given: set<string>, b: Block, w: Ends, k: nat)
    requires Lined(nodes, given, b, w) && k < |nodes| && nodes[k] == b.before
    ensures PieceWithin(Piece1(b, b.before), NewGiven(given, b) + Made1(b, nodes, k))
  {
    hide DistinctOutputs, SingleAssignment, Made1, Ordered, ReadOnlyBy, PieceWithin;
    var names := NewGiven(given, b) + Made1(b, nodes, k);
    assert Reads(b.before, w.x);
    ReadsWhatStays(nodes, given, b, w, b.before, w.x);
    ReadThere(nodes, given, b, w, k, w.x);
    var piece := Piece1(b, b.before);
    ThreeWithin(piece[0], piece[1], piece[2], names);
  }

  lemma Conv2Within(nodes: seq<Node>, given: set<string>, b: Block, w: Ends, k: nat)
    requires Lined(nodes, given, b, w) && k < |nodes| && nodes[k] == b.conv2 && w.a !in {w.t, w.c2, Weight1(b), Weight2(b)}
    ensures PieceWithin(Piece1(b, b.conv2), NewGiven(given, b) + Made1(b, nodes, k))
  {
    hide DistinctOutputs, SingleAssignment, Made1, Ordered, ReadOnlyBy, PieceWithin;
    var names := NewGiven(given, b) + Made1(b, nodes, k);
    assert Reads(b.conv2, w.a);
    ReadThere(nodes, given, b, w, k, w.a);
    var piece := Piece1(b, b.conv2);
    ThreeWithin(piece[0], piece[1], piece[2], names);
  }

  lemma KeepingOrdered1(nodes: seq<Node>, given: set<string>, b: Block, w: Ends, k: nat)
    requires Lined(nodes, given, b, w) && k < |nodes| && w.a !in {w.t, w.c2, Weight1(b), Weight2(b)}
    ensures PieceWithin(Piece1(b, nodes[k]), NewGiven(given, b) + Made1(b, nodes, k))
  {
    hide DistinctOutputs, SingleAssignment, Made1, Ordered, ReadOnlyBy;
    var n, names := nodes[k], NewGiven(given, b) + Made1(b, nodes, k);
    if n == b.before {
      BeforeWithin(nodes, given, b, w, k);
    } else if n == b.conv2 {
      Conv2Within(nodes, given, b, w, k);
    } else if n != b.conv1 && n != b.after {
      forall x | Reads(n, x) && x != "" ensures x in names {
        ReadsWhatStays(nodes, given, b, w, n, x);
        ReadThere(nodes, given, b, w, k, x);
      }
      assert Piece1(b, n) == [n] && names + Outs([n], 0) == names;
    }
  }

  lemma {:induction false} KeepingOrdered(nodes: seq<Node>, given: set<string>, b: Block, w: Ends, k: nat)
    requires Lined(nodes, given, b, w) && k <= |nodes| && Ready1(b) && w.a !in {w.t, w.c2, Weight1(b), Weight2(b)}
    ensures Ordered(Rebuilt(b, nodes, k), NewGiven(given, b))
  {
    hide Lined, Ordered, Piece1, PieceWithin, Outs, NewGiven;
    if k == 0 {
      NothingOrdered(NewGiven(given, b));
    } else {
      KeepingOrdered(nodes, given, b, w, k - 1);
      KeepingOrdered1(nodes, given, b, w, k - 1);
      AppendPiece(Rebuilt(b, nodes, k - 1), Piece1(b, nodes[k - 1]), NewGiven(given, b));
    }
  }

  // ---------------------------------------------------------------- values

  ghost predicate RanKeeping(be: Backend, m: Model, inputs: Env, b: Block, w: Ends, e: Env) {
    && inputs.Keys !! Arrays(m.inits).Keys && CanLower(m, b)
    && Tidy(m.nodes, inputs.Keys + Arrays(m.inits).Keys, b, w) && FreshSix(e, b, w)
    && Eval(be, inputs + Arrays(m.inits), m.nodes) == Some(e)
    && w.a !in {w.t, w.c2, Weight1(b), Weight2(b)}
  }

  lemma RanSituation(be: Backend, m: Model, inputs: Env, b: Block, w: Ends, e: Env)
    requires RanKeeping(be, m, inputs, b, w, e)
    ensures var given := inputs.Keys + Arrays(m.inits).Keys;
      Situation(be, m.nodes, given, b, w, e) && Lined(m.nodes, given, b, w)
      && forall x | x in inputs + Arrays(m.inits) :: x in e && e[x] == (inputs + Arrays(m.inits))[x]
  {
    hide ReadOnlyBy, SingleAssignment, DistinctOutputs, Agrees, Joined, FreshSix, Run;
    var given, e0 := inputs.Keys + Arrays(m.inits).Keys, inputs + Arrays(m.inits);
    assert e0.Keys == given;
    forall k | 0 <= k < |m.nodes| ensures Agrees(be, e, m.nodes[k]) { AgreesFromEval(be, e0, m.nodes, k); }
    OrderedFromEval(be, e0, m.nodes);
    EvalWrites(be, e0, m.nodes);
    GivenNotMade(m.nodes, given);
    assert e[Weight1(b)] == Arrays(m.inits)[Weight1(b)] && e[Weight2(b)] == Arrays(m.inits)[Weight2(b)];
  }

  lemma KeepingStarts(be: Backend, m: Model, inputs: Env, b: Block, w: Ends, e: Env)
    requires RanKeeping(be, m, inputs, b, w, e) && Has(e, b, w)
    ensures var start, f := inputs + Arrays(Lowered(m, b).inits), Values(e, b, w);
      && start.Keys == NewGiven(inputs.Keys + Arrays(m.inits).Keys, b)
      && forall x | x in start :: x in f && f[x] == start[x]
  {
    hide Tidy, SingleAssignment, Agrees, FreshSix, Run, Values, A.PointwiseMatrix, Eval, Arrays, Rhs, UnitConv,
      NewInits, Joined, Situation, Lined, Rows1, Rows2, Ntc1, Ntc2, SwapIf, Product;
    var arrays := Arrays(m.inits);
    RanSituation(be, m, inputs, b, w, e);
    NewArrays(m.inits, b, arrays[Weight1(b)], arrays[Weight2(b)]);
    RhsStand(be, m, inputs, b, w, e);
    Restart(inputs, arrays, Weight1(b), Weight2(b), Rhs(Weight1(b)), A.PointwiseMatrix(arrays[Weight1(b)]),
            Rhs(Weight2(b)), A.PointwiseMatrix(arrays[Weight2(b)]), Values(e, b, w));
  }

  lemma RhsStand(be: Backend, m: Model, inputs: Env, b: Block, w: Ends, e: Env)
    requires RanKeeping(be, m, inputs, b, w, e) && Has(e, b, w)
    ensures var f, arrays := Values(e, b, w), Arrays(m.inits);
      && Rhs(Weight1(b)) in f && f[Rhs(Weight1(b))] == A.PointwiseMatrix(arrays[Weight1(b)])
      && Rhs(Weight2(b)) in f && f[Rhs(Weight2(b))] == A.PointwiseMatrix(arrays[Weight2(b)])
      && Rhs(Weight1(b)) !in inputs && Rhs(Weight2(b)) !in inputs
      && forall x | x in e :: x in f && f[x] == e[x]
  {
    hide Tidy, SingleAssignment, Agrees, FreshSix, Run, Values, A.PointwiseMatrix, Eval, Arrays, Rhs, UnitConv,
      Joined, Situation, Lined, Rows1, Rows2, Ntc1, Ntc2;
    RanSituation(be, m, inputs, b, w, e);
    SixValues(e, b, w);
    SixDiffer(e, b, w);
    WeightsStand(m, inputs, b);
  }

  /** The variant that keeps the layout: the rewritten graph evaluates whenever the old one does, and every tensor but
      the two the rewrite removes is there with its old value. */
  lemma KeepingPreserves(be: Backend, m: Model, inputs: Env, b: Block, w: Ends, e: Env)
    requires RanKeeping(be, m, inputs, b, w, e)
    ensures var next := Lowered(m, b);
      var r := Eval(be, inputs + Arrays(next.inits), next.nodes);
      && r.Some?
      && (forall x | x in e && x in r.value :: r.value[x] == e[x])
      && (forall x | x in Outs(m.nodes, |m.nodes|) && x !in {w.t, w.c2} :: x in r.value)
      && (forall x | x in inputs :: x in r.value)
  {
    hide Tidy, SingleAssignment, Agrees, FreshSix, Run, Values, A.PointwiseMatrix, Eval, Arrays, Rhs,
      Piece1, Swap, Joined, NewInits, Has, Situation, Lined, A.CanMatMul3, BiasOf;
    var given, next := inputs.Keys + Arrays(m.inits).Keys, Lowered(m, b);
    var start := inputs + Arrays(next.inits);
    RanSituation(be, m, inputs, b, w, e);
    assert Situation(be, m.nodes, given, b, w, e);
    HasBoth(be, m.nodes, given, b, w, e);
    var f := Values(e, b, w);
    KeepingStarts(be, m, inputs, b, w, e);
    KeepingOrdered(m.nodes, given, b, w, |m.nodes|);
    forall j | 0 <= j < |m.nodes| ensures AllAgree(be, f, Piece1(b, m.nodes[j])) {
      IsKeeping(b, m.nodes[j]);
      KeepingAgrees(be, m.nodes, given, b, w, e, m.nodes[j]);
    }
    RebuiltAgrees(be, f, b, m.nodes, |m.nodes|);
    EvalFromAgrees(be, f, start, next.nodes, |next.nodes|);
    assert next.nodes[..|next.nodes|] == next.nodes;
    SixValues(e, b, w);
    var r := Eval(be, start, next.nodes).value;
    forall x | x in Outs(m.nodes, |m.nodes|) && x !in {w.t, w.c2} ensures x in r {
      AllKept(m.nodes, given, b, w, |m.nodes|, x);
    }
  }

  lemma HasBoth(be: Backend, nodes: seq<Node>, given: set<string>, b: Block, w: Ends, e: Env)
    requires Situation(be, nodes, given, b, w, e)
    ensures Has(e, b, w) && b.middle.None? && FreshSix(e, b, w)
  {
    hide Agrees, Kernels, FreshSix;
    BothRan(be, nodes, given, b, w, e);
  }

  lemma IsKeeping(b: Block, n: Node)
    requires Ready1(b) && b.middle.None?
    ensures Piece1(b, n) == KeepingPiece(b, n)
  {}
}
