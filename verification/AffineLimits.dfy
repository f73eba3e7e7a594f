/** The conversion as a whole, and exactly where it stops preserving meaning. */
module AffineLimits {
  import opened Wrappers
  import opened Tensors
  import opened OnnxGraph
  import opened AffineBlocks
  import opened AffineBlockMeaning
  import opened AffineLowering
  import opened AffineRegions
  import opened AffineTheorem
  import A = AffineTensors

  function SourceOf(nodes: seq<Node>, consts: seq<Initializer>, outputs: seq<string>, inputs: set<string>, excluded: set<string>, optimize: bool): Source
    requires Standard(nodes)
  {
    var arrays := Arrays(consts);
    Source(nodes, arrays, outputs, inputs + arrays.Keys,
           if optimize then Pairs(nodes, arrays, outputs, excluded, |nodes|) else [])
  }

  /** What a caller can check before converting: single assignment, unique node names where a layout is
      changed, constant biases, unit windows for pointwise kernels, small scalars, ungrouped pairs, and
      generated names that nobody else uses. */
  ghost predicate Convertible(nodes: seq<Node>, consts: seq<Initializer>, outputs: seq<string>, inputs: Env, excluded: set<string>, optimize: bool, piece: Piece) {
    && Standard(nodes)
    && var s := SourceOf(nodes, consts, outputs, inputs.Keys, excluded, optimize);
       var ctx := ContextOf(nodes, s.arrays, outputs, excluded, optimize);
    && LowerPrefix(nodes, |nodes|, ctx) == Ok(piece)
    && SingleAssignment(nodes, s.given) && "" !in s.given && inputs.Keys !! s.arrays.Keys
    && (s.pairs != [] ==> UniqueNames(nodes) && SmallScalars(s)) && UngroupedPairs(s)
    && (forall k | 0 <= k < |nodes| :: Faithful(nodes[k], ctx))
    && Fresh(s, ctx, piece.inits) && Consistent(piece.inits)
  }

  lemma PairsAreIncluded(nodes: seq<Node>, arrays: Env, outputs: seq<string>, excluded: set<string>)
    requires Standard(nodes)
    ensures var pairs := Pairs(nodes, arrays, outputs, excluded, |nodes|);
      forall i | 0 <= i < |pairs| :: pairs[i].first.name !in excluded && pairs[i].second.name !in excluded
                                     && |pairs[i].transpose.inputs| >= 1 && |pairs[i].second.inputs| >= 1
  {
    hide HasLayoutInvariantPath, Consumers, Producer, ScalarNames;
    var pairs := Pairs(nodes, arrays, outputs, excluded, |nodes|);
    PairsAreReal(nodes, arrays, outputs, excluded, |nodes|);
    forall i | 0 <= i < |pairs|
      ensures pairs[i].first.name !in excluded && pairs[i].second.name !in excluded
              && |pairs[i].transpose.inputs| >= 1 && |pairs[i].second.inputs| >= 1
    {
      assert pairs[i] in pairs;
    }
  }

  lemma ConvertibleIsRewritten(be: Backend, nodes: seq<Node>, consts: seq<Initializer>, outputs: seq<string>, inputs: Env,
                               excluded: set<string>, optimize: bool, piece: Piece, e: Env)
    requires Convertible(nodes, consts, outputs, inputs, excluded, optimize, piece)
    requires Eval(be, inputs + Arrays(consts), nodes) == Some(e)
    ensures var s := SourceOf(nodes, consts, outputs, inputs.Keys, excluded, optimize);
      Rewritten(be, s, ContextOf(nodes, s.arrays, outputs, excluded, optimize), inputs, consts, piece, e)
  {
    hide PairChecked, Fresh, LowerPrefix, Faithful, Pairs, Eval, Run, LowerNode;
    var s := SourceOf(nodes, consts, outputs, inputs.Keys, excluded, optimize);
    if optimize {
      PairsAreChecked(nodes, s.arrays, outputs, s.given, excluded);
      PairsAreIncluded(nodes, s.arrays, outputs, excluded);
      assert s == Source(nodes, s.arrays, outputs, s.given, Pairs(nodes, s.arrays, outputs, excluded, |nodes|));
    }
    assert forall i {:trigger PairChecked(s, s.pairs[i])} | 0 <= i < |s.pairs| :: PairChecked(s, s.pairs[i]);
    var ctx, e0 := ContextOf(nodes, s.arrays, outputs, excluded, optimize), inputs + Arrays(consts);
    assert WellFormed(s);
    assert Named(s, ctx, e0, piece.inits);
    assert ctx.ntc == NtcModes(s.pairs);
    assert forall i | 0 <= i < |s.pairs| :: s.pairs[i].first.name !in ctx.excluded && s.pairs[i].second.name !in ctx.excluded;
    assert forall k | 0 <= k < |s.nodes| :: Faithful(s.nodes[k], ctx);
    assert Sound(s, ctx, e0, piece.inits);
  }

  /** Without the layout optimization every graph output keeps its value, whatever the inputs and the backend;
      with it, every output keeps its value if and only if none is the output of a transpose it removes. */
  lemma ConversionPreservesOutputs(be: Backend, nodes: seq<Node>, consts: seq<Initializer>, outputs: seq<string>, inputs: Env,
                                   excluded: set<string>, optimize: bool, piece: Piece, e: Env)
    requires Convertible(nodes, consts, outputs, inputs, excluded, optimize, piece)
    requires Eval(be, inputs + Arrays(consts), nodes) == Some(e) && forall o | o in outputs :: o in e
    ensures var r := Eval(be, StartAfter(inputs, consts, piece, outputs), piece.nodes);
      var s := SourceOf(nodes, consts, outputs, inputs.Keys, excluded, optimize);
      && r.Some?
      && (!optimize ==> forall o | o in outputs :: o in r.value && r.value[o] == e[o])
      && ((forall o | o in outputs :: o in r.value && r.value[o] == e[o]) <==> forall o | o in outputs :: !IsRemoved(s, o))
  {
    hide PairChecked, Fresh, LowerPrefix, Faithful, Pairs, Eval, Run, LowerNode, Sound, Consistent, SingleAssignment;
    var s := SourceOf(nodes, consts, outputs, inputs.Keys, excluded, optimize);
    ConvertibleIsRewritten(be, nodes, consts, outputs, inputs, excluded, optimize, piece, e);
    OutputsPreserved(be, s, ContextOf(nodes, s.arrays, outputs, excluded, optimize), inputs, consts, piece, e);
  }

  // ---------------------------------------------------------------- strides and pads of pointwise kernels

  function Zeros(n: nat, c: nat, len: nat): (r: Tensor)
    ensures r.shape == [n, c, len]
  {
    Make3(n, c, len, (i, j, k) => 0.0)
  }

  /** The MatMul that replaces a one-tap kernel ignores its window. It agrees with the convolution on every
      signal the convolution accepts if and only if the stride is 1 and there is no padding. */
  lemma PointwiseExactly(w: Tensor, bias: Option<Tensor>, win: A.Window)
    requires Rank(w, 3) && w.shape[2] == 1 && win.stride >= 1 && win.dilation >= 1
    requires bias.Some? ==> bias.value.shape == [w.shape[0]]
    ensures (forall x: Tensor | A.CanConv(x, w, bias, win) ::
               Swap(A.Conv(x, w, bias, win)) == A.Linear(Swap(x), A.PointwiseMatrix(w), bias))
            <==> win.stride == 1 && win.padBegin == 0 && win.padEnd == 0
  {
    hide Swap, A.Conv, A.Linear, A.PointwiseMatrix, Zeros, WellShaped;
    if win.stride == 1 && win.padBegin == 0 && win.padEnd == 0 {
      forall x: Tensor | A.CanConv(x, w, bias, win)
        ensures Swap(A.Conv(x, w, bias, win)) == A.Linear(Swap(x), A.PointwiseMatrix(w), bias)
      {
        A.DilationUnused(x, w, bias, win);
        A.PointwiseIsMatMul(x, w, bias);
      }
    } else {
      var pads := win.padBegin + win.padEnd;
      var x := Zeros(1, w.shape[1], pads + 2);
      assert A.CanConv(x, w, bias, win);
      LengthsDiffer(pads, win.stride);
      assert A.OutLength(pads + 2, 1, win) != pads + 2;
      assert Swap(A.Conv(x, w, bias, win)).shape != A.Linear(Swap(x), A.PointwiseMatrix(w), bias).shape;
    }
  }

  lemma LengthsDiffer(pads: nat, stride: nat)
    requires stride >= 1 && (stride != 1 || pads != 0)
    ensures (pads + pads + 2 - 1) / stride + 1 != pads + 2
  {
    if stride == 1 {
      assert (pads + pads + 1) / 1 == pads + pads + 1;
    } else {
      var q := (pads + pads + 1) / stride;
      assert q * stride <= pads + pads + 1;
      A.MulLe(2, stride, q);
      assert q * 2 <= q * stride;
    }
  }

  // ---------------------------------------------------------------- biases the graph computes

  /** A bias that is not a constant is dropped. The value is right exactly when the dropped bias is zero. */
  lemma DroppedBiasExactly(x: Tensor, w: Tensor, b: Tensor, win: A.Window)
    requires A.CanConv(x, w, Some(b), win) && x.shape[0] >= 1
    ensures A.CanConv(x, w, None, win)
    ensures A.Conv(x, w, None, win) == A.Conv(x, w, Some(b), win) <==> forall m | 0 <= m < w.shape[0] :: Get1(b, m) == 0.0
  {
    hide WellShaped, InShape, Get, Get1, Get3, Make3, A.Conv, A.ChannelSum;
    var l, r := A.Conv(x, w, None, win), A.Conv(x, w, Some(b), win);
    forall n, m, t | 0 <= n < x.shape[0] && 0 <= m < w.shape[0] && 0 <= t < A.OutLength(x.shape[2], w.shape[2], win)
      ensures Get3(r, n, m, t) == Get3(l, n, m, t) + Get1(b, m)
    {
      A.ConvAt(x, w, None, win, n, m, t);
      A.ConvAt(x, w, Some(b), win, n, m, t);
    }
    if forall m | 0 <= m < w.shape[0] :: Get1(b, m) == 0.0 {
      Extensional3(l, r, x.shape[0], w.shape[0], A.OutLength(x.shape[2], w.shape[2], win));
    }
    if l == r {
      forall m | 0 <= m < w.shape[0] ensures Get1(b, m) == 0.0 {
        assert Get3(r, 0, m, 0) == Get3(l, 0, m, 0) + Get1(b, m);
      }
    }
  }

  /** The entry of a bias that is added to entry (i, j) of a product. */
  function Added(c: Tensor, i: int, j: int): real
    requires |c.shape| <= 2
  {
    Get(c, Tensors.Source(c.shape, [i, j]))
  }

  lemma GemmAt(a: Tensor, w: Tensor, c: Tensor, transB: bool, alpha: real, beta: real, i: int, j: int)
    requires A.CanGemm(a, w, Some(c), false, transB)
    requires 0 <= i < a.shape[0] && 0 <= j < A.FlipIf(transB, w).shape[1]
    ensures |c.shape| <= 2 && A.CanGemm(a, w, None, false, transB)
    ensures Get2(A.Gemm(a, w, Some(c), false, transB, alpha, beta), i, j)
         == Get2(A.Gemm(a, w, None, false, transB, alpha, beta), i, j) + beta * Added(c, i, j)
  {
    hide A.MatMul2, WellShaped, InShape, A.FlipIf, A.Flip;
    NoFlip(a);
    var p := A.Scale(alpha, A.MatMul2(a, A.FlipIf(transB, w)));
    BiasMeets(p, c, beta, i, j);
  }

  lemma ZipAt(f: (real, real) -> real, x: Tensor, y: Tensor, ix: seq<int>)
    requires Broadcastable(x.shape, y.shape) && InShape(JointShape(x.shape, y.shape), ix)
    ensures |x.shape| <= |ix| && |y.shape| <= |ix|
    ensures Get(Zip(f, x, y), ix) == f(Get(x, Tensors.Source(x.shape, ix)), Get(y, Tensors.Source(y.shape, ix)))
  {
    assert |JointShape(x.shape, y.shape)| == JointRank(x.shape, y.shape);
  }

  lemma ScaleEntry(f: real, t: Tensor, ix: seq<int>)
    requires InShape(t.shape, ix)
    ensures Get(A.Scale(f, t), ix) == f * Get(t, ix)
  {}

  /** Adding a scaled tensor that does not widen the sum adds one of its entries to each entry. */
  lemma BiasMeets(p: Tensor, c: Tensor, beta: real, i: int, j: int)
    requires Rank(p, 2) && Broadcastable(p.shape, c.shape) && JointShape(p.shape, c.shape) == p.shape
    requires 0 <= i < p.shape[0] && 0 <= j < p.shape[1]
    ensures |c.shape| <= 2 && Get2(Zip(Plus(), p, A.Scale(beta, c)), i, j) == Get2(p, i, j) + beta * Added(c, i, j)
  {
    hide Zip, A.Scale, Broadcastable, JointShape, Get, InShape, Tensors.Source, WellShaped;
    var ix := [i, j];
    Inside(p.shape, i, j);
    OwnSource(p.shape, i, j);
    SourceIn(p.shape, c.shape, i, j);
    ZipAt(Plus(), p, A.Scale(beta, c), ix);
    ScaleEntry(beta, c, Tensors.Source(c.shape, ix));
  }

  lemma Inside(s: seq<nat>, i: int, j: int)
    requires |s| == 2 && 0 <= i < s[0] && 0 <= j < s[1]
    ensures InShape(s, [i, j])
  {}

  lemma OwnSource(s: seq<nat>, i: int, j: int)
    requires |s| == 2 && 0 <= i < s[0] && 0 <= j < s[1]
    ensures Tensors.Source(s, [i, j]) == [i, j]
  {}

  lemma SourceIn(s: seq<nat>, t: seq<nat>, i: int, j: int)
    requires |s| == 2 && Broadcastable(s, t) && JointShape(s, t) == s && 0 <= i < s[0] && 0 <= j < s[1]
    ensures |t| <= 2 && InShape(t, Tensors.Source(t, [i, j]))
  {
    assert |JointShape(s, t)| == JointRank(s, t);
    assert FitsAt(s, t, 0) && FitsAt(s, t, 1);
    assert JointShape(s, t)[0] == s[0] && JointShape(s, t)[1] == s[1];
  }

  /** The bias of a Gemm that the graph computes is dropped as well. The value is right exactly when everything the
      dropped bias adds is zero. */
  lemma DroppedGemmBiasExactly(a: Tensor, w: Tensor, c: Tensor, transB: bool, alpha: real, beta: real)
    requires A.CanGemm(a, w, Some(c), false, transB)
    ensures |c.shape| <= 2 && A.CanGemm(a, w, None, false, transB)
    ensures A.Gemm(a, w, None, false, transB, alpha, beta) == A.Gemm(a, w, Some(c), false, transB, alpha, beta)
            <==> forall i, j | 0 <= i < a.shape[0] && 0 <= j < A.FlipIf(transB, w).shape[1] :: beta * Added(c, i, j) == 0.0
  {
    GemmShapes(a, w, c, transB, alpha, beta);
    hide A.Gemm, A.CanGemm, WellShaped, InShape, Get, Get2, A.FlipIf, Added;
    var l, r := A.Gemm(a, w, None, false, transB, alpha, beta), A.Gemm(a, w, Some(c), false, transB, alpha, beta);
    var m, n := a.shape[0], A.FlipIf(transB, w).shape[1];
    forall i, j | 0 <= i < m && 0 <= j < n ensures Get2(r, i, j) == Get2(l, i, j) + beta * Added(c, i, j) {
      GemmAt(a, w, c, transB, alpha, beta, i, j);
    }
    if forall i, j | 0 <= i < m && 0 <= j < n :: beta * Added(c, i, j) == 0.0 { Extensional2(l, r, m, n); }
  }

  lemma GemmShapes(a: Tensor, w: Tensor, c: Tensor, transB: bool, alpha: real, beta: real)
    requires A.CanGemm(a, w, Some(c), false, transB)
    ensures |c.shape| <= 2 && A.CanGemm(a, w, None, false, transB) && Rank(w, 2) && Rank(a, 2)
    ensures A.Gemm(a, w, None, false, transB, alpha, beta).shape == [a.shape[0], A.FlipIf(transB, w).shape[1]]
    ensures A.Gemm(a, w, Some(c), false, transB, alpha, beta).shape == [a.shape[0], A.FlipIf(transB, w).shape[1]]
  {
    hide A.MatMul2, A.Flip, WellShaped;
    NoFlip(a);
    var shape := [a.shape[0], A.FlipIf(transB, w).shape[1]];
    assert |JointShape(shape, c.shape)| == JointRank(shape, c.shape);
  }

  // ---------------------------------------------------------------- grouped convolutions in a pair

  lemma {:induction false} KeptNodeIsThere(nodes: seq<Node>, m: nat, k: nat, ctx: Context) returns (j: nat)
    requires Standard(nodes) && k < m <= |nodes| && LowerPrefix(nodes, m, ctx).Ok?
    requires OneOutput(nodes[k]) && LowerNode(nodes[k], ctx) == Ok(Piece([nodes[k]], []))
    ensures j < |LowerPrefix(nodes, m, ctx).value.nodes| && LowerPrefix(nodes, m, ctx).value.nodes[j] == nodes[k]
  {
    hide LowerNode;
    var before := LowerPrefix(nodes, m - 1, ctx).value.nodes;
    if k == m - 1 {
      j := |before|;
    } else {
      j := KeptNodeIsThere(nodes, m - 1, k, ctx);
    }
  }

  lemma DepthwiseIsKept(s: Source, ctx: Context, i: nat)
    requires WellFormed(s) && i < |s.pairs| && ctx.arrays == s.arrays && ctx.removed == RemovedTransposes(s.pairs)
    requires var n := s.pairs[i].first;
      n.name !in ctx.excluded && n.op.Conv? && OneOutput(n) && ConstantInput(s.arrays, n, 1).Some?
      && Depthwise(n.op, ConstantInput(s.arrays, n, 1).value)
    ensures LowerNode(s.pairs[i].first, ctx) == Ok(Piece([s.pairs[i].first], []))
    ensures |s.pairs[i].first.inputs| >= 2 && IsRemoved(s, s.pairs[i].first.inputs[0])
  {
    hide PairChecked;
    ConvOps(s, i);
    var k := NodeOfPair(s, i, s.pairs[i].first);
    NotRemoved(s, k);
    assert IsTransposed(s, i, s.pairs[i].first.inputs[0]);
  }

  /** The pair search does not look at groups. When the opening convolution of a pair is depthwise it is kept, but
      the transpose it reads is removed, and the converted graph cannot be evaluated on any input. */
  lemma DepthwisePairBreaks(be: Backend, s: Source, ctx: Context, inputs: Env, consts: seq<Initializer>, piece: Piece, i: nat)
    requires s.arrays == Arrays(consts) && Named(s, ctx, inputs + Arrays(consts), piece.inits) && Consistent(piece.inits)
    requires LowerPrefix(s.nodes, |s.nodes|, ctx) == Ok(piece) && i < |s.pairs|
    requires var n := s.pairs[i].first;
      n.name !in ctx.excluded && n.op.Conv? && OneOutput(n) && ConstantInput(s.arrays, n, 1).Some?
      && Depthwise(n.op, ConstantInput(s.arrays, n, 1).value)
    ensures Eval(be, StartAfter(inputs, consts, piece, s.outputs), piece.nodes).None?
  {
    hide PairChecked, Fresh, LowerNode, LowerPrefix, WellFormed, Depthwise;
    var n, start := s.pairs[i].first, StartAfter(inputs, consts, piece, s.outputs);
    DepthwiseIsKept(s, ctx, i);
    var k := NodeOfPair(s, i, n);
    StandardNode(s, k);
    var j := KeptNodeIsThere(s.nodes, |s.nodes|, k, ctx);
    var y := n.inputs[0];
    TransposedIsProduced(s, y);
    ProducedIsNew(s, ctx, inputs + Arrays(consts), piece.inits, y);
    TransposedNeverWritten(s, ctx, inputs + Arrays(consts), piece.inits, |s.nodes|, y);
    TransposedNotGiven(s, ctx, inputs, consts, piece, y);
    if Eval(be, start, piece.nodes).Some? {
      EvalNeeds(be, start, piece.nodes, j, y);
    }
  }

  lemma StandardNode(s: Source, k: nat)
    requires WellFormed(s) && k < |s.nodes|
    ensures Standard(s.nodes) && OneOutput(s.nodes[k])
  {}
}
