/** `lower_affine_nodes` preserves the meaning of a graph: whenever the original graph evaluates, so does the
    rewritten one, every tensor is found at its place, and every graph output has the same value. */
module AffineTheorem {
  import opened Wrappers
  import opened Tensors
  import opened OnnxGraph
  import opened AffineBlocks
  import opened AffineBlockMeaning
  import opened AffineLowering
  import opened AffineRegions
  import A = AffineTensors

  // ---------------------------------------------------------------- what is asked of the graph

  function InitNames(inits: seq<Initializer>): set<string> { set k | 0 <= k < |inits| :: inits[k].name }

  function Original(s: Source): set<string> { s.given + Outs(s.nodes, |s.nodes|) }

  predicate UnitWindow(op: Op)
    requires op.Conv?
  {
    !op.autoPad && |op.strides| == 1 && op.strides[0] == 1 && |op.pads| == 2 && op.pads[0] == 0 && op.pads[1] == 0
  }

  /** The bias is left out or constant. A bias computed by the graph would be dropped. */
  predicate ConstantBias(arrays: Env, node: Node) {
    |node.inputs| > 2 && node.inputs[2] != "" ==> node.inputs[2] in arrays
  }

  /** The node is replaced: neither removed nor excluded, with a constant weight, and no depthwise convolution. */
  predicate IsReplaced(node: Node, ctx: Context) {
    && node.name !in ctx.removed && node.name !in ctx.excluded && ConstantInput(ctx.arrays, node, 1).Some?
    && (node.op.Gemm? || (node.op.Conv? && !Depthwise(node.op, ConstantInput(ctx.arrays, node, 1).value)))
  }

  /** What the replacement of a node silently relies on. */
  predicate Faithful(node: Node, ctx: Context) {
    IsReplaced(node, ctx) ==>
      && ConstantBias(ctx.arrays, node)
      && (node.op.Conv? && Pointwise(node.op, ConstantInput(ctx.arrays, node, 1).value) ==> UnitWindow(node.op))
  }

  /** Replacement blocks write only the outputs of their node and names nobody else uses. */
  predicate FreshAt(s: Source, node: Node, piece: Piece, inits: set<string>) {
    forall x | x in Outs(piece.nodes, |piece.nodes|) && x !in Names(node.outputs) :: x !in Original(s) && x !in inits
  }

  ghost predicate Fresh(s: Source, ctx: Context, inits: seq<Initializer>)
    requires Standard(s.nodes)
  {
    && (forall x | x in InitNames(inits) :: x !in Original(s))
    && (forall k | 0 <= k < |s.nodes| && LowerNode(s.nodes[k], ctx).Ok? ::
          FreshAt(s, s.nodes[k], LowerNode(s.nodes[k], ctx).value, InitNames(inits)))
  }

  /** Constants that were given the same name have the same value. */
  ghost predicate Consistent(inits: seq<Initializer>) {
    forall i, j | 0 <= i < |inits| && 0 <= j < |inits| && inits[i].name == inits[j].name :: inits[i].value == inits[j].value
  }

  ghost predicate SmallScalars(s: Source) {
    && (forall x | x in s.arrays && Single(s.arrays[x]) :: |s.arrays[x].shape| <= 3)
    && (forall k | 0 <= k < |s.nodes| && s.nodes[k].op.Constant? && s.nodes[k].op.value.Some? && Single(s.nodes[k].op.value.value) ::
          |s.nodes[k].op.value.value.shape| <= 3)
  }

  ghost predicate UngroupedPairs(s: Source) {
    forall i | 0 <= i < |s.pairs| ::
      s.pairs[i].first.op.Conv? && s.pairs[i].first.op.group == 1 && s.pairs[i].second.op.Conv? && s.pairs[i].second.op.group == 1
  }

  /** The names of the graph, its environment and the generated constants do not get into each other's way. */
  ghost predicate Named(s: Source, ctx: Context, e0: Env, inits: seq<Initializer>) {
    && WellFormed(s) && s.given == e0.Keys && "" !in s.given
    && (forall x | x in s.arrays :: e0[x] == s.arrays[x])
    && ctx.arrays == s.arrays && ctx.removed == RemovedTransposes(s.pairs)
    && Fresh(s, ctx, inits)
  }

  /** A graph, a context and an environment the lowering may be applied to. */
  ghost predicate Sound(s: Source, ctx: Context, e0: Env, inits: seq<Initializer>) {
    && Named(s, ctx, e0, inits)
    && (forall i | 0 <= i < |s.pairs| :: |s.pairs[i].transpose.inputs| >= 1 && |s.pairs[i].second.inputs| >= 1)
    && ctx.ntc == NtcModes(s.pairs)
    && (forall i | 0 <= i < |s.pairs| :: s.pairs[i].first.name !in ctx.excluded && s.pairs[i].second.name !in ctx.excluded)
    && (s.pairs != [] ==> SmallScalars(s)) && UngroupedPairs(s)
    && (forall k | 0 <= k < |s.nodes| :: Faithful(s.nodes[k], ctx))
  }

  // ---------------------------------------------------------------- the simulation relation

  ghost predicate FoundAt(s: Source, e: Env, e2: Env, x: string)
    requires WellFormed(s) && x in e
  {
    var p := PlaceOf(s, x);
    && p.name in e && p.name in e2
    && if p.swapped then Rank(e[x], 3) && e2[p.name] == Swap(e[x]) else e2[p.name] == e[x]
  }

  ghost predicate Related(s: Source, e: Env, e2: Env)
    requires WellFormed(s)
  {
    forall x | x in e :: FoundAt(s, e, e2, x)
  }

  lemma FoundOf(s: Source, e: Env, e2: Env, x: string)
    requires WellFormed(s) && Related(s, e, e2) && x in e
    ensures FoundAt(s, e, e2, x)
  {}

  lemma PlainFound(s: Source, e: Env, e2: Env, x: string)
    requires WellFormed(s) && x in e && Plain(s, x)
    ensures FoundAt(s, e, e2, x) <==> x in e2 && e2[x] == e[x]
  {}

  /** A step that leaves the known tensors alone and places its own outputs keeps the relation. */
  lemma Extend(s: Source, e: Env, e': Env, e2: Env, e2': Env)
    requires WellFormed(s) && Related(s, e, e2)
    requires e.Keys <= e'.Keys && forall x | x in e :: e'[x] == e[x]
    requires forall x | x in e && x in e2 :: x in e2' && e2'[x] == e2[x]
    requires forall x | x in e' && x !in e :: FoundAt(s, e', e2', x)
    ensures Related(s, e', e2')
  {
    hide PlaceOf, Swap, WellFormed;
    forall x | x in e' ensures FoundAt(s, e', e2', x) {
      if x in e { assert FoundAt(s, e, e2, x); }
    }
  }

  // ---------------------------------------------------------------- what the original node computed

  /** The state before node `k`: what is defined is known, and the given tensors are untouched. */
  ghost predicate At(s: Source, e0: Env, e: Env, k: nat) {
    && k < |s.nodes| && e0.Keys == s.given && e.Keys == s.given + Outs(s.nodes, k)
    && (forall x | x in e0 :: x in e && e[x] == e0[x])
  }

  lemma InputDefined(be: Backend, s: Source, e0: Env, e: Env, k: nat, i: nat)
    requires At(s, e0, e, k) && i < |s.nodes[k].inputs| && Step(be, e, s.nodes[k]).Some? && s.nodes[k].inputs[i] != ""
    ensures s.nodes[k].inputs[i] in e && Reads(s.nodes[k], s.nodes[k].inputs[i]) && Defined(s, k, s.nodes[k].inputs[i])
  {}

  lemma OutputUndefined(s: Source, e0: Env, e: Env, k: nat, x: string)
    requires WellFormed(s) && At(s, e0, e, k) && Produces(s.nodes[k], x)
    ensures x !in e
  {
    hide PairChecked;
    if x in Outs(s.nodes, k) {
      var i := OutsFrom(s.nodes, k, x);
    }
  }

  /** A convolution with constant weights that ran computed `Conv` of its first input. */
  lemma ConvRan(be: Backend, e: Env, n: Node, arrays: Env, e': Env) returns (win: A.Window)
    requires n.op.Conv? && n.op.group == 1 && !n.op.autoPad && OneOutput(n) && "" !in arrays
    requires forall x | x in arrays :: x in e && e[x] == arrays[x]
    requires ConstantInput(arrays, n, 1).Some? && Rank(ConstantInput(arrays, n, 1).value, 3) && ConstantBias(arrays, n)
    requires Step(be, e, n) == Some(e')
    ensures var w, b := ConstantInput(arrays, n, 1).value, ConstantInput(arrays, n, 2);
      && WindowOf(n.op.dilations, n.op.strides, n.op.pads) == Some(win)
      && n.inputs[0] != "" && n.inputs[0] in e && (b.Some? ==> |n.inputs| > 2)
      && A.CanConv(e[n.inputs[0]], w, b, win) && A.FitsInt64(e[n.inputs[0]], win)
      && e' == e[n.outputs[0] := A.Conv(e[n.inputs[0]], w, b, win)]
  {
    hide A.Conv, A.CanConv, A.FitsInt64;
    var xs := Operands(e, n.inputs);
    var w, b := ConstantInput(arrays, n, 1).value, ConstantInput(arrays, n, 2);
    assert xs[1] == Given(w);
    assert Third(xs) == b;
    win := WindowOf(n.op.dilations, n.op.strides, n.op.pads).value;
    assert Run(be, n.op, xs) == RunConv(xs[0].t, w, b, win);
    BindOne(e, n.outputs[0], A.Conv(xs[0].t, w, b, win));
    assert n.outputs == [n.outputs[0]];
  }

  lemma GemmRan(be: Backend, e: Env, n: Node, arrays: Env, e': Env)
    requires n.op.Gemm? && n.op.transA == 0 && OneOutput(n) && "" !in arrays
    requires forall x | x in arrays :: x in e && e[x] == arrays[x]
    requires ConstantInput(arrays, n, 1).Some? && ConstantBias(arrays, n)
    requires Step(be, e, n) == Some(e')
    ensures var w, b := ConstantInput(arrays, n, 1).value, ConstantInput(arrays, n, 2);
      && n.inputs[0] != "" && n.inputs[0] in e && (b.Some? ==> |n.inputs| > 2)
      && A.CanGemm(e[n.inputs[0]], w, b, false, n.op.transB != 0)
      && e' == e[n.outputs[0] := A.Gemm(e[n.inputs[0]], w, b, false, n.op.transB != 0, n.op.alpha, n.op.beta)]
  {
    hide A.Gemm, A.CanGemm;
    var xs := Operands(e, n.inputs);
    var w, b := ConstantInput(arrays, n, 1).value, ConstantInput(arrays, n, 2);
    assert xs[1] == Given(w);
    assert Third(xs) == b;
    BindOne(e, n.outputs[0], A.Gemm(xs[0].t, w, b, false, n.op.transB != 0, n.op.alpha, n.op.beta));
    assert n.outputs == [n.outputs[0]];
  }

  // ---------------------------------------------------------------- one node at a time

  /** The block of a node evaluates, and the node's outputs are found at their places afterwards. */
  ghost predicate BlockOk(be: Backend, s: Source, e': Env, e2: Env, n: Node, piece: Piece)
    requires WellFormed(s)
  {
    var r := Eval(be, e2, piece.nodes);
    r.Some? && forall x | x in Names(n.outputs) :: x in e' && FoundAt(s, e', r.value, x)
  }

  lemma KeptBlock(be: Backend, s: Source, e: Env, e': Env, e2: Env, n: Node)
    requires WellFormed(s) && Step(be, e, n) == Some(e')
    requires forall i | 0 <= i < |n.inputs| && n.inputs[i] != "" :: n.inputs[i] in e2 && e2[n.inputs[i]] == e[n.inputs[i]]
    requires forall x | x in Names(n.outputs) :: Plain(s, x)
    ensures BlockOk(be, s, e', e2, n, Piece([n], []))
  {
    hide Run, Plain, PlaceOf, WellFormed;
    assert Ready(e2, n.inputs);
    assert Operands(e2, n.inputs) == Operands(e, n.inputs);
    EvalOne(be, e2, n);
    var values := Run(be, n.op, Operands(e, n.inputs)).value;
    BindSame(e, e2, n.outputs, values);
    forall x | x in Names(n.outputs) ensures x in e' && FoundAt(s, e', Step(be, e2, n).value, x) {
      PlainFound(s, e', Step(be, e2, n).value, x);
    }
  }

  /** A block with one output whose value is the original one. */
  lemma OneOutputBlock(be: Backend, s: Source, e: Env, e': Env, e2: Env, n: Node, piece: Piece, v: Tensor)
    requires WellFormed(s) && OneOutput(n) && |n.outputs| == 1 && e' == e[n.outputs[0] := v]
    requires Plain(s, n.outputs[0])
    requires var r := Eval(be, e2, piece.nodes); r.Some? && n.outputs[0] in r.value && r.value[n.outputs[0]] == v
    ensures BlockOk(be, s, e', e2, n, piece)
  {
    hide Plain, PlaceOf, WellFormed, Eval;
    PlainFound(s, e', Eval(be, e2, piece.nodes).value, n.outputs[0]);
  }

  // ---------------------------------------------------------------- the names the context is keyed by

  ghost predicate FromPair(p: Pair, name: string, mode: NtcMode) {
    || (name == p.first.name && mode == StayNtc(TransposeInput(p)))
    || (name == p.second.name && |p.second.inputs| >= 1 && mode == BackToNct(p.second.inputs[0]))
  }

  lemma {:induction false} NtcOrigin(pairs: seq<Pair>, name: string) returns (i: nat)
    requires forall i | 0 <= i < |pairs| :: |pairs[i].transpose.inputs| >= 1 && |pairs[i].second.inputs| >= 1
    requires name in NtcModes(pairs)
    ensures i < |pairs| && FromPair(pairs[i], name, NtcModes(pairs)[name])
  {
    var p := pairs[|pairs| - 1];
    if name == p.first.name || name == p.second.name {
      i := |pairs| - 1;
    } else {
      i := NtcOrigin(pairs[..|pairs| - 1], name);
    }
  }

  lemma {:induction false} NtcKeys(pairs: seq<Pair>, i: nat)
    requires forall i | 0 <= i < |pairs| :: |pairs[i].transpose.inputs| >= 1 && |pairs[i].second.inputs| >= 1
    requires i < |pairs|
    ensures pairs[i].first.name in NtcModes(pairs) && pairs[i].second.name in NtcModes(pairs)
  {
    if i < |pairs| - 1 { NtcKeys(pairs[..|pairs| - 1], i); }
  }

  lemma SuffixesApart(s: Source, i: nat, j: nat)
    requires WellFormed(s) && i < |s.pairs| && j < |s.pairs|
    ensures s.pairs[i].first.name != s.pairs[j].second.name && s.pairs[i].first != s.pairs[j].second
  {
    hide HasLayoutInvariantPath, Consumers;
    assert PairChecked(s, s.pairs[i]);
    assert PairChecked(s, s.pairs[j]);
    var a, b := s.pairs[i].first.name, s.pairs[j].second.name;
    assert a[|a| - |FIRST_SUFFIX|..][7] == '1';
    assert b[|b| - |SECOND_SUFFIX|..] == SECOND_SUFFIX;
    assert b[|b| - |SECOND_SUFFIX|..][7] == '2';
    assert |FIRST_SUFFIX| == |SECOND_SUFFIX|;
  }

  lemma FirstMode(s: Source, i: nat)
    requires WellFormed(s) && i < |s.pairs|
    requires forall j | 0 <= j < |s.pairs| :: |s.pairs[j].transpose.inputs| >= 1 && |s.pairs[j].second.inputs| >= 1
    ensures var name := s.pairs[i].first.name;
      name in NtcModes(s.pairs) && NtcModes(s.pairs)[name] == StayNtc(TransposeInput(s.pairs[i]))
  {
    hide PairChecked;
    var name := s.pairs[i].first.name;
    NtcKeys(s.pairs, i);
    var j := NtcOrigin(s.pairs, name);
    SuffixesApart(s, i, j);
    var q := NodeOfPair(s, j, s.pairs[j].first);
    var q' := NodeOfPair(s, i, s.pairs[i].first);
    ConvOps(s, i);
    ConvOps(s, j);
    var t := TransposeIndex(s, i);
    var t' := TransposeIndex(s, j);
  }

  lemma SecondMode(s: Source, i: nat)
    requires WellFormed(s) && i < |s.pairs|
    requires forall j | 0 <= j < |s.pairs| :: |s.pairs[j].transpose.inputs| >= 1 && |s.pairs[j].second.inputs| >= 1
    ensures var name := s.pairs[i].second.name;
      name in NtcModes(s.pairs) && NtcModes(s.pairs)[name] == BackToNct(s.pairs[i].second.inputs[0])
  {
    hide PairChecked;
    var name := s.pairs[i].second.name;
    NtcKeys(s.pairs, i);
    var j := NtcOrigin(s.pairs, name);
    SuffixesApart(s, j, i);
    var r := NodeOfPair(s, j, s.pairs[j].second);
    var r' := NodeOfPair(s, i, s.pairs[i].second);
  }

  /** A node outside all pairs is not named like any node of a pair. */
  lemma NotNamedInContext(s: Source, ctx: Context, e0: Env, inits: seq<Initializer>, k: nat)
    requires Sound(s, ctx, e0, inits) && k < |s.nodes|
    requires forall i | 0 <= i < |s.pairs| ::
      s.nodes[k] != s.pairs[i].first && s.nodes[k] != s.pairs[i].second && s.nodes[k] != s.pairs[i].transpose
    ensures s.nodes[k].name !in ctx.removed && s.nodes[k].name !in ctx.ntc
  {
    hide PairChecked, Fresh, Faithful;
    forall i | 0 <= i < |s.pairs|
      ensures s.nodes[k].name != s.pairs[i].first.name && s.nodes[k].name != s.pairs[i].second.name
      ensures s.nodes[k].name != s.pairs[i].transpose.name
    {
      OtherName(s, i, k, s.pairs[i].first);
      OtherName(s, i, k, s.pairs[i].second);
      OtherName(s, i, k, s.pairs[i].transpose);
    }
    if s.nodes[k].name in NtcModes(s.pairs) {
      var j := NtcOrigin(s.pairs, s.nodes[k].name);
      assert false;
    }
  }

  lemma NotRemoved(s: Source, k: nat)
    requires WellFormed(s) && k < |s.nodes| && !s.nodes[k].op.Transpose?
    ensures s.nodes[k].name !in RemovedTransposes(s.pairs)
  {
    hide PairChecked;
    forall i | 0 <= i < |s.pairs| ensures s.nodes[k].name != s.pairs[i].transpose.name {
      ConvOps(s, i);
      OtherName(s, i, k, s.pairs[i].transpose);
    }
  }

  // ---------------------------------------------------------------- the five kinds of node

  /** Node `k` ran in the original graph, the rewritten graph is in a related state and knows the new constants. */
  ghost predicate Before(be: Backend, s: Source, ctx: Context, e0: Env, inits: seq<Initializer>, e: Env, e': Env, e2: Env, k: nat) {
    && Sound(s, ctx, e0, inits) && At(s, e0, e, k) && Step(be, e, s.nodes[k]) == Some(e')
    && Related(s, e, e2) && Holds(e2, inits)
  }

  ghost predicate Lowered(s: Source, ctx: Context, inits: seq<Initializer>, k: nat, piece: Piece)
    requires Standard(s.nodes)
  {
    k < |s.nodes| && LowerNode(s.nodes[k], ctx) == Ok(piece) && forall c | c in piece.inits :: c in inits
  }

  lemma ConstantsReady(s: Source, ctx: Context, e0: Env, inits: seq<Initializer>, e2: Env, k: nat, piece: Piece)
    requires Sound(s, ctx, e0, inits) && Lowered(s, ctx, inits, k, piece) && Holds(e2, inits)
    ensures Holds(e2, piece.inits) && Apart(piece.nodes, piece.inits)
  {
    hide PairChecked, Faithful, LowerNode;
    assert FreshAt(s, s.nodes[k], piece, InitNames(inits));
    forall i | 0 <= i < |piece.inits|
      ensures piece.inits[i].name in e2 && e2[piece.inits[i].name] == piece.inits[i].value
      ensures piece.inits[i].name !in Outs(piece.nodes, |piece.nodes|)
    {
      assert piece.inits[i] in inits;
      var j :| 0 <= j < |inits| && inits[j] == piece.inits[i];
      assert inits[j].name in InitNames(inits);
      OutputsOriginal(s, k);
    }
  }

  lemma OutputsOriginal(s: Source, k: nat)
    requires k < |s.nodes|
    ensures Names(s.nodes[k].outputs) <= Original(s)
  {
    forall x | x in Names(s.nodes[k].outputs) ensures x in Original(s) {
      OutsIn(s.nodes, |s.nodes|, k, x);
    }
  }

  /** A block does not write a tensor that is already known. */
  lemma KnownNotWritten(s: Source, ctx: Context, e0: Env, inits: seq<Initializer>, e: Env, k: nat, piece: Piece)
    requires Sound(s, ctx, e0, inits) && At(s, e0, e, k) && Lowered(s, ctx, inits, k, piece)
    ensures forall x | x in e :: x !in Outs(piece.nodes, |piece.nodes|)
  {
    hide PairChecked, Faithful, LowerNode;
    assert FreshAt(s, s.nodes[k], piece, InitNames(inits));
    OutsMonotone(s.nodes, k, |s.nodes|);
    forall x | x in e ensures x !in Outs(piece.nodes, |piece.nodes|) {
      if x in Names(s.nodes[k].outputs) { OutputUndefined(s, e0, e, k, x); }
    }
  }

  ghost predicate PlainInputs(s: Source, k: nat)
    requires WellFormed(s) && k < |s.nodes|
  {
    forall i | 0 <= i < |s.nodes[k].inputs| && s.nodes[k].inputs[i] != "" :: Plain(s, s.nodes[k].inputs[i])
  }

  lemma PlainInputsFound(be: Backend, s: Source, ctx: Context, e0: Env, inits: seq<Initializer>, e: Env, e': Env, e2: Env, k: nat)
    requires Before(be, s, ctx, e0, inits, e, e', e2, k) && PlainInputs(s, k)
    ensures forall i | 0 <= i < |s.nodes[k].inputs| && s.nodes[k].inputs[i] != "" ::
      var x := s.nodes[k].inputs[i]; x in e && x in e2 && e2[x] == e[x]
  {
    hide PairChecked, Faithful, LowerNode, Fresh, Run, Plain, WellFormed;
    forall i | 0 <= i < |s.nodes[k].inputs| && s.nodes[k].inputs[i] != ""
      ensures var x := s.nodes[k].inputs[i]; x in e && x in e2 && e2[x] == e[x]
    {
      var x := s.nodes[k].inputs[i];
      assert FoundAt(s, e, e2, x);
      PlainFound(s, e, e2, x);
    }
  }

  /** Nodes outside all pairs. */
  ghost predicate Neutral(s: Source, k: nat)
    requires WellFormed(s)
  {
    && k < |s.nodes|
    && (forall i | 0 <= i < |s.pairs| ::
          s.nodes[k] != s.pairs[i].first && s.nodes[k] != s.pairs[i].second && s.nodes[k] != s.pairs[i].transpose)
    && (ElementWise(s.nodes[k]) ==> forall i | 0 <= i < |s.pairs| :: !Touches(s.nodes[k], Region(s, i)))
  }

  lemma NeutralIsPlain(be: Backend, s: Source, e0: Env, e: Env, k: nat)
    requires WellFormed(s) && Neutral(s, k) && At(s, e0, e, k) && Step(be, e, s.nodes[k]).Some?
    ensures PlainInputs(s, k)
    ensures forall x | x in Names(s.nodes[k].outputs) :: Plain(s, x)
  {
    hide PairChecked, Region, Run;
    var n := s.nodes[k];
    forall i | 0 <= i < |n.inputs| && n.inputs[i] != "" ensures Plain(s, n.inputs[i]) {
      InputDefined(be, s, e0, e, k, i);
      if ElementWise(n) {
        ElementWiseNotTransposed(s, k, n.inputs[i]);
      } else {
        NonElementWiseReadsPlain(s, k, n.inputs[i]);
      }
    }
    forall x | x in Names(n.outputs) ensures Plain(s, x) { ProducedIsPlain(s, k, x); }
  }

  lemma NeutralPointwise(be: Backend, s: Source, ctx: Context, e0: Env, inits: seq<Initializer>, e: Env, e': Env, e2: Env, k: nat, piece: Piece)
    requires Before(be, s, ctx, e0, inits, e, e', e2, k) && Neutral(s, k) && Lowered(s, ctx, inits, k, piece)
    requires s.nodes[k].op.Conv? && s.nodes[k].name !in ctx.excluded && s.nodes[k].name !in ctx.removed
    requires ConstantInput(ctx.arrays, s.nodes[k], 1).Some?
    requires Pointwise(s.nodes[k].op, ConstantInput(ctx.arrays, s.nodes[k], 1).value)
    requires piece == PointwiseNodes(s.nodes[k], ConstantInput(ctx.arrays, s.nodes[k], 1).value, ConstantInput(ctx.arrays, s.nodes[k], 2))
    ensures BlockOk(be, s, e', e2, s.nodes[k], piece)
  {
    hide PairChecked, Fresh, Run, A.Conv, A.CanConv, A.FitsInt64, A.PointwiseMatrix, Plain, Neutral, Related, LowerNode;
    var n := s.nodes[k];
    assert OneOutput(n) && Faithful(n, ctx);
    var w, b := ConstantInput(ctx.arrays, n, 1).value, ConstantInput(ctx.arrays, n, 2);
    var win := ConvRan(be, e, n, s.arrays, e');
    NeutralIsPlain(be, s, e0, e, k);
    PlainInputsFound(be, s, ctx, e0, inits, e, e', e2, k);
    ConstantsReady(s, ctx, e0, inits, e2, k, piece);
    A.DilationUnused(e[n.inputs[0]], w, b, win);
    PointwiseRuns(be, e2, n, w, b);
    OneOutputBlock(be, s, e, e', e2, n, piece, A.Conv(e[n.inputs[0]], w, b, win));
  }

  lemma NeutralTdnn(be: Backend, s: Source, ctx: Context, e0: Env, inits: seq<Initializer>, e: Env, e': Env, e2: Env, k: nat, piece: Piece)
    requires Before(be, s, ctx, e0, inits, e, e', e2, k) && Neutral(s, k) && Lowered(s, ctx, inits, k, piece)
    requires s.nodes[k].op.Conv? && s.nodes[k].name !in ctx.excluded && s.nodes[k].name !in ctx.removed
    requires ConstantInput(ctx.arrays, s.nodes[k], 1).Some?
    requires TdnnNodes(s.nodes[k], ConstantInput(ctx.arrays, s.nodes[k], 1).value, ConstantInput(ctx.arrays, s.nodes[k], 2)) == Ok(piece)
    ensures BlockOk(be, s, e', e2, s.nodes[k], piece)
  {
    hide PairChecked, Fresh, Run, A.Conv, A.CanConv, A.FitsInt64, TdnnPiece, Plain, Neutral, Related, LowerNode;
    var n := s.nodes[k];
    assert OneOutput(n) && Faithful(n, ctx);
    var w, b := ConstantInput(ctx.arrays, n, 1).value, ConstantInput(ctx.arrays, n, 2);
    var win := ConvRan(be, e, n, s.arrays, e');
    NeutralIsPlain(be, s, e0, e, k);
    PlainInputsFound(be, s, ctx, e0, inits, e, e', e2, k);
    ConstantsReady(s, ctx, e0, inits, e2, k, piece);
    KnownNotWritten(s, ctx, e0, inits, e, k, piece);
    TdnnRuns(be, e2, n, w, b, win);
    OneOutputBlock(be, s, e, e', e2, n, piece, A.Conv(e[n.inputs[0]], w, b, win));
  }

  lemma NeutralGemm(be: Backend, s: Source, ctx: Context, e0: Env, inits: seq<Initializer>, e: Env, e': Env, e2: Env, k: nat, piece: Piece)
    requires Before(be, s, ctx, e0, inits, e, e', e2, k) && Neutral(s, k) && Lowered(s, ctx, inits, k, piece)
    requires s.nodes[k].op.Gemm? && s.nodes[k].name !in ctx.excluded && s.nodes[k].name !in ctx.removed
    requires ConstantInput(ctx.arrays, s.nodes[k], 1).Some?
    ensures BlockOk(be, s, e', e2, s.nodes[k], piece)
  {
    hide PairChecked, Fresh, Run, A.Gemm, A.CanGemm, Plain, Neutral, Related, GemmInits;
    var n := s.nodes[k];
    assert OneOutput(n) && Faithful(n, ctx);
    var w, b := ConstantInput(ctx.arrays, n, 1).value, ConstantInput(ctx.arrays, n, 2);
    GemmRan(be, e, n, s.arrays, e');
    NeutralIsPlain(be, s, e0, e, k);
    PlainInputsFound(be, s, ctx, e0, inits, e, e', e2, k);
    ConstantsReady(s, ctx, e0, inits, e2, k, piece);
    GemmRuns(be, e2, n, w, b);
    OneOutputBlock(be, s, e, e', e2, n, piece,
      A.Gemm(e[n.inputs[0]], w, b, false, n.op.transB != 0, n.op.alpha, n.op.beta));
  }

  lemma NeutralKept(be: Backend, s: Source, ctx: Context, e0: Env, inits: seq<Initializer>, e: Env, e': Env, e2: Env, k: nat)
    requires Before(be, s, ctx, e0, inits, e, e', e2, k) && Neutral(s, k)
    ensures BlockOk(be, s, e', e2, s.nodes[k], Piece([s.nodes[k]], []))
  {
    hide PairChecked, Fresh, Run, Plain, Neutral, Related;
    NeutralIsPlain(be, s, e0, e, k);
    PlainInputsFound(be, s, ctx, e0, inits, e, e', e2, k);
    KeptBlock(be, s, e, e', e2, s.nodes[k]);
  }

  lemma NeutralBlock(be: Backend, s: Source, ctx: Context, e0: Env, inits: seq<Initializer>, e: Env, e': Env, e2: Env, k: nat, piece: Piece)
    requires Before(be, s, ctx, e0, inits, e, e', e2, k) && Neutral(s, k) && Lowered(s, ctx, inits, k, piece)
    ensures BlockOk(be, s, e', e2, s.nodes[k], piece)
  {
    hide PairChecked, Fresh, Run, Plain, Related, BlockOk, Holds, At, PointwiseNodes, PointwiseNtcNodes, TdnnNodes, GemmNodes;
    var n := s.nodes[k];
    NotNamedInContext(s, ctx, e0, inits, k);
    assert OneOutput(n);
    if n.name !in ctx.excluded && n.op.Conv? && !Depthwise(n.op, ConstantInput(ctx.arrays, n, 1).value) {
      if Pointwise(n.op, ConstantInput(ctx.arrays, n, 1).value) {
        NeutralPointwise(be, s, ctx, e0, inits, e, e', e2, k, piece);
      } else {
        NeutralTdnn(be, s, ctx, e0, inits, e, e', e2, k, piece);
      }
    } else if n.name !in ctx.excluded && n.op.Gemm? && ConstantInput(ctx.arrays, n, 1).Some? {
      NeutralGemm(be, s, ctx, e0, inits, e, e', e2, k, piece);
    } else {
      NeutralKept(be, s, ctx, e0, inits, e, e', e2, k);
    }
  }

  /** A removed transpose: its output is its input, transposed. */
  lemma RemovedBlock(be: Backend, s: Source, ctx: Context, e0: Env, inits: seq<Initializer>, e: Env, e': Env, e2: Env, k: nat, i: nat)
    requires Before(be, s, ctx, e0, inits, e, e', e2, k) && i < |s.pairs| && s.nodes[k] == s.pairs[i].transpose
    ensures LowerNode(s.nodes[k], ctx) == Ok(Piece([], []))
    ensures BlockOk(be, s, e', e2, s.nodes[k], Piece([], []))
  {
    hide PairChecked, Fresh, Plain, Related, PlaceOf, Swap, Region;
    var n := s.nodes[k];
    var t := TransposeIndex(s, i);
    assert n.name in RemovedTransposes(s.pairs) by { assert s.pairs[i] in s.pairs; }
    var x, y := n.inputs[0], n.outputs[0];
    assert n.outputs == [y];
    var xs := Operands(e, n.inputs);
    assert Run(be, n.op, xs) == Some([Swap(e[x])]);
    BindOne(e, y, Swap(e[x]));
    InputDefined(be, s, e0, e, k, 0);
    forall j | 0 <= j < |s.pairs| ensures n != s.pairs[j].first && n != s.pairs[j].second { ConvOps(s, j); }
    NonElementWiseReadsPlain(s, k, x);
    FoundOf(s, e, e2, x);
    PlainFound(s, e, e2, x);
    OutputUndefined(s, e0, e, k, y);
    SwapSwap(e[x]);
    TransposePlace(s, i);
  }

  lemma PairConv(s: Source, ctx: Context, e0: Env, inits: seq<Initializer>, k: nat, i: nat)
    requires Sound(s, ctx, e0, inits) && k < |s.nodes| && i < |s.pairs|
    requires s.nodes[k] == s.pairs[i].first || s.nodes[k] == s.pairs[i].second
    ensures var n := s.nodes[k];
      && n.op.Conv? && n.op.group == 1 && !n.op.autoPad && OneOutput(n) && ConstantBias(s.arrays, n) && UnitWindow(n.op)
      && ConstantInput(s.arrays, n, 1).Some? && Pointwise(n.op, ConstantInput(s.arrays, n, 1).value)
      && n.name !in ctx.removed && n.name !in ctx.excluded
  {
    hide Fresh, HasLayoutInvariantPath, Consumers;
    assert PairChecked(s, s.pairs[i]);
    assert Faithful(s.nodes[k], ctx);
    NotRemoved(s, k);
  }

  lemma FirstPiece(s: Source, ctx: Context, e0: Env, inits: seq<Initializer>, k: nat, i: nat, piece: Piece)
    requires Sound(s, ctx, e0, inits) && k < |s.nodes| && i < |s.pairs| && s.nodes[k] == s.pairs[i].first
    requires LowerNode(s.nodes[k], ctx) == Ok(piece) && ConstantInput(ctx.arrays, s.nodes[k], 1).Some?
    requires s.nodes[k].op.Conv? && Pointwise(s.nodes[k].op, ConstantInput(ctx.arrays, s.nodes[k], 1).value)
    ensures |s.nodes[k].inputs| >= 2 && |s.nodes[k].outputs| == 1
    ensures piece == PointwiseNtcNodes(s.nodes[k], ConstantInput(ctx.arrays, s.nodes[k], 1).value,
                                       ConstantInput(ctx.arrays, s.nodes[k], 2), TransposeInput(s.pairs[i]), false)
    ensures piece.inits == PointwiseInits(s.nodes[k], ConstantInput(ctx.arrays, s.nodes[k], 1).value,
                                          ConstantInput(ctx.arrays, s.nodes[k], 2))
  {
    hide PairChecked, Fresh, Faithful, PointwiseInits;
    PairConv(s, ctx, e0, inits, k, i);
    FirstMode(s, i);
  }

  lemma SecondPiece(s: Source, ctx: Context, e0: Env, inits: seq<Initializer>, k: nat, i: nat, piece: Piece)
    requires Sound(s, ctx, e0, inits) && k < |s.nodes| && i < |s.pairs| && s.nodes[k] == s.pairs[i].second
    requires LowerNode(s.nodes[k], ctx) == Ok(piece) && ConstantInput(ctx.arrays, s.nodes[k], 1).Some?
    requires s.nodes[k].op.Conv? && Pointwise(s.nodes[k].op, ConstantInput(ctx.arrays, s.nodes[k], 1).value)
    ensures |s.nodes[k].inputs| >= 2 && |s.nodes[k].outputs| == 1
    ensures piece == PointwiseNtcNodes(s.nodes[k], ConstantInput(ctx.arrays, s.nodes[k], 1).value,
                                       ConstantInput(ctx.arrays, s.nodes[k], 2), s.nodes[k].inputs[0], true)
    ensures piece.inits == PointwiseInits(s.nodes[k], ConstantInput(ctx.arrays, s.nodes[k], 1).value,
                                          ConstantInput(ctx.arrays, s.nodes[k], 2))
  {
    hide PairChecked, Fresh, Faithful, PointwiseInits;
    PairConv(s, ctx, e0, inits, k, i);
    SecondMode(s, i);
  }

  /** The convolution that opens a region reads the tensor before the removed transpose. */
  lemma FirstBlock(be: Backend, s: Source, ctx: Context, e0: Env, inits: seq<Initializer>, e: Env, e': Env, e2: Env, k: nat, i: nat, piece: Piece)
    requires Before(be, s, ctx, e0, inits, e, e', e2, k) && i < |s.pairs| && s.nodes[k] == s.pairs[i].first
    requires Lowered(s, ctx, inits, k, piece)
    ensures BlockOk(be, s, e', e2, s.nodes[k], piece)
  {
    hide PairChecked, Fresh, Plain, Related, Swap, Region, Run, A.Conv, A.CanConv, A.FitsInt64, A.PointwiseMatrix, Faithful, PlaceOf;
    hide LowerNode, PointwiseNtcNodes;
    var n := s.nodes[k];
    PairConv(s, ctx, e0, inits, k, i);
    var w, b := ConstantInput(ctx.arrays, n, 1).value, ConstantInput(ctx.arrays, n, 2);
    var x := TransposeInput(s.pairs[i]);
    FirstPiece(s, ctx, e0, inits, k, i, piece);
    var win := ConvRan(be, e, n, s.arrays, e');
    A.DilationUnused(e[n.inputs[0]], w, b, win);
    ConvOps(s, i);
    TransposePlace(s, i);
    FoundOf(s, e, e2, n.inputs[0]);
    ConstantsReady(s, ctx, e0, inits, e2, k, piece);
    NoEmptyName(s, e0, e, k);
    PointwiseNtcRuns(be, e2, n, w, b, x, e[n.inputs[0]], false);
    FirstInRegion(s, i);
  }

  lemma NoEmptyName(s: Source, e0: Env, e: Env, k: nat)
    requires At(s, e0, e, k) && "" !in s.given
    ensures "" !in e
  {
    if "" in Outs(s.nodes, k) { var i := OutsFrom(s.nodes, k, ""); }
  }

  lemma FirstInRegion(s: Source, i: nat)
    requires WellFormed(s) && i < |s.pairs| && |s.pairs[i].first.outputs| == 1
    ensures s.pairs[i].first.outputs[0] in Region(s, i)
    ensures PlaceOf(s, s.pairs[i].first.outputs[0]) == Place(s.pairs[i].first.outputs[0], true)
  {
    hide PairChecked;
    ScanGrows(s, i, 0);
    assert LayoutAt(s, i, 0) == Some({s.pairs[i].first.outputs[0]});
  }

  lemma SecondReadsRegion(s: Source, i: nat)
    requires WellFormed(s) && i < |s.pairs|
    ensures |s.pairs[i].second.inputs| >= 2 && s.pairs[i].second.inputs[0] in Region(s, i)
    ensures PlaceOf(s, s.pairs[i].second.inputs[0]) == Place(s.pairs[i].second.inputs[0], true)
    ensures forall j | 0 <= j < |s.outputs| :: s.outputs[j] !in Region(s, i)
  {
    hide Consumers;
    assert PairChecked(s, s.pairs[i]);
    assert s.pairs[i].second.inputs[0] in Region(s, i);
  }

  /** The convolution that closes a region reads NTC and returns to NCT. */
  lemma SecondBlock(be: Backend, s: Source, ctx: Context, e0: Env, inits: seq<Initializer>, e: Env, e': Env, e2: Env, k: nat, i: nat, piece: Piece)
    requires Before(be, s, ctx, e0, inits, e, e', e2, k) && i < |s.pairs| && s.nodes[k] == s.pairs[i].second
    requires Lowered(s, ctx, inits, k, piece)
    ensures BlockOk(be, s, e', e2, s.nodes[k], piece)
  {
    hide PairChecked, Fresh, Plain, Related, Swap, Region, Run, A.Conv, A.CanConv, A.FitsInt64, A.PointwiseMatrix, Faithful, PlaceOf;
    hide LowerNode, PointwiseNtcNodes;
    var n := s.nodes[k];
    PairConv(s, ctx, e0, inits, k, i);
    var w, b := ConstantInput(ctx.arrays, n, 1).value, ConstantInput(ctx.arrays, n, 2);
    var z := n.inputs[0];
    SecondPiece(s, ctx, e0, inits, k, i, piece);
    var win := ConvRan(be, e, n, s.arrays, e');
    A.DilationUnused(e[z], w, b, win);
    SecondReadsRegion(s, i);
    FoundOf(s, e, e2, z);
    ConstantsReady(s, ctx, e0, inits, e2, k, piece);
    PointwiseNtcRuns(be, e2, n, w, b, z, e[z], true);
    forall j | 0 <= j < |s.pairs| ensures n != s.pairs[j].first && n != s.pairs[j].transpose {
      SuffixesApart(s, j, i);
      ConvOps(s, j);
    }
    ProducedIsPlain(s, k, n.outputs[0]);
    OneOutputBlock(be, s, e, e', e2, n, piece, A.Conv(e[z], w, b, A.UNIT));
  }

  // ---------------------------------------------------------------- element-wise nodes inside a region

  /** The scalars the scan lets through have one element and at most three dimensions. */
  ghost predicate ScalarsKnown(s: Source, e: Env) {
    s.pairs != [] ==> forall x | x in Scalars(s) && x in e :: Single(e[x]) && |e[x].shape| <= 3
  }

  lemma InRegionFound(s: Source, e: Env, e2: Env, i: nat, x: string)
    requires WellFormed(s) && Related(s, e, e2) && i < |s.pairs| && x in Region(s, i) && x in e
    ensures Rank(e[x], 3) && x in e2 && e2[x] == Swap(e[x])
  {
    hide PairChecked, Swap, Region;
    FoundOf(s, e, e2, x);
  }

  lemma ScalarFound(s: Source, e: Env, e2: Env, x: string)
    requires WellFormed(s) && Related(s, e, e2) && x in Scalars(s) && x in e && ScalarsKnown(s, e) && s.pairs != []
    ensures x in e2 && e2[x] == e[x] && Single(e[x]) && |e[x].shape| <= 3
  {
    hide PairChecked, Swap, Region, Single;
    ScalarIsPlain(s, x);
    FoundOf(s, e, e2, x);
    PlainFound(s, e, e2, x);
  }

  lemma UnaryInRegion(be: Backend, s: Source, e: Env, e2: Env, n: Node, i: nat, e': Env)
    requires WellFormed(s) && Related(s, e, e2) && i < |s.pairs| && Step(be, e, n) == Some(e')
    requires n.op.Unary? && |n.inputs| == 1 && n.inputs[0] != "" && n.inputs[0] in Region(s, i) && OneOutput(n)
    ensures exists v :: Rank(v, 3) && e' == e[n.outputs[0] := v] && Step(be, e2, n) == Some(e2[n.outputs[0] := Swap(v)])
  {
    hide PairChecked, Swap, Region, Map, Related, UnaryOf;
    var x, f := n.inputs[0], UnaryOf(be, n.op.unary);
    InRegionFound(s, e, e2, i, x);
    assert n.outputs == [n.outputs[0]];
    assert Operands(e, n.inputs) == [Given(e[x])] && Operands(e2, n.inputs) == [Given(e2[x])];
    MapSwap(f, e[x]);
    BindOne(e, n.outputs[0], Map(f, e[x]));
    BindOne(e2, n.outputs[0], Map(f, e2[x]));
    assert Rank(Map(f, e[x]), 3);
  }

  lemma BinaryOperands(be: Backend, e: Env, n: Node, e': Env)
    requires n.op.Binary? && Step(be, e, n) == Some(e') && OneOutput(n)
    ensures |n.inputs| == 2 && n.inputs[0] != "" && n.inputs[1] != "" && n.inputs[0] in e && n.inputs[1] in e
    ensures Broadcastable(e[n.inputs[0]].shape, e[n.inputs[1]].shape)
    ensures e' == e[n.outputs[0] := Zip(BinaryOf(be, n.op.binary), e[n.inputs[0]], e[n.inputs[1]])]
  {
    hide Zip, Broadcastable, BinaryOf;
    var xs := Operands(e, n.inputs);
    assert xs[0] == Given(e[n.inputs[0]]) && xs[1] == Given(e[n.inputs[1]]);
    assert n.outputs == [n.outputs[0]];
    BindOne(e, n.outputs[0], Zip(BinaryOf(be, n.op.binary), e[n.inputs[0]], e[n.inputs[1]]));
  }

  lemma BinaryInRegion(be: Backend, s: Source, e: Env, e2: Env, n: Node, i: nat, e': Env)
    requires WellFormed(s) && Related(s, e, e2) && i < |s.pairs| && Step(be, e, n) == Some(e') && ScalarsKnown(s, e)
    requires n.op.Binary? && OneOutput(n)
    requires forall j | 0 <= j < |n.inputs| :: n.inputs[j] in Region(s, i) || n.inputs[j] in Scalars(s)
    requires exists j :: 0 <= j < |n.inputs| && n.inputs[j] in Region(s, i)
    ensures exists v :: Rank(v, 3) && e' == e[n.outputs[0] := v] && Step(be, e2, n) == Some(e2[n.outputs[0] := Swap(v)])
  {
    hide PairChecked, Swap, Region, Zip, Broadcastable, Related, BinaryOf, Single, Scalars;
    BinaryOperands(be, e, n, e');
    var x, y, f := n.inputs[0], n.inputs[1], BinaryOf(be, n.op.binary);
    var v := Zip(f, e[x], e[y]);
    if x in Region(s, i) {
      InRegionFound(s, e, e2, i, x);
      if y in Region(s, i) {
        InRegionFound(s, e, e2, i, y);
        ZipSwap(f, e[x], e[y]);
      } else {
        ScalarFound(s, e, e2, y);
        ZipScalarSwap(f, e[x], e[y]);
      }
    } else {
      InRegionFound(s, e, e2, i, y);
      ScalarFound(s, e, e2, x);
      ZipScalarSwap(f, e[y], e[x]);
    }
    BinaryStep(be, e2, n, n.op.binary, x, y, n.outputs[0]);
    assert Rank(v, 3);
  }

  lemma RegionBlock(be: Backend, s: Source, ctx: Context, e0: Env, inits: seq<Initializer>, e: Env, e': Env, e2: Env, k: nat, i: nat, piece: Piece)
    requires Before(be, s, ctx, e0, inits, e, e', e2, k) && i < |s.pairs| && ScalarsKnown(s, e)
    requires ElementWise(s.nodes[k]) && Touches(s.nodes[k], Region(s, i)) && Lowered(s, ctx, inits, k, piece)
    ensures BlockOk(be, s, e', e2, s.nodes[k], piece)
  {
    hide PairChecked, Fresh, Plain, Related, Swap, Region, Run, Faithful, PlaceOf, Scalars;
    var n := s.nodes[k];
    assert OneOutput(n);
    NotRemoved(s, k);
    assert piece == Piece([n], []);
    var j :| 0 <= j < |n.inputs| && n.inputs[j] in Region(s, i);
    RegionIsProduced(s, i, n.inputs[j]);
    InputDefined(be, s, e0, e, k, j);
    ElementWiseReads(s, i, k, n.inputs[j]);
    if n.op.Unary? {
      UnaryInRegion(be, s, e, e2, n, i, e');
    } else {
      BinaryInRegion(be, s, e, e2, n, i, e');
    }
    var v :| Rank(v, 3) && e' == e[n.outputs[0] := v] && Step(be, e2, n) == Some(e2[n.outputs[0] := Swap(v)]);
    EvalOne(be, e2, n);
    var out := n.outputs[0];
    assert out in Names(n.outputs);
    RegionPlace(s, i, out);
    assert FoundAt(s, e', e2[out := Swap(v)], out);
    assert forall x | x in Names(n.outputs) :: x == out;
  }

  lemma RegionPlace(s: Source, i: nat, x: string)
    requires WellFormed(s) && i < |s.pairs| && x in Region(s, i)
    ensures PlaceOf(s, x) == Place(x, true)
  {
    hide PairChecked, Region;
  }

  // ---------------------------------------------------------------- the whole list

  lemma NodeBlock(be: Backend, s: Source, ctx: Context, e0: Env, inits: seq<Initializer>, e: Env, e': Env, e2: Env, k: nat, piece: Piece)
    requires Before(be, s, ctx, e0, inits, e, e', e2, k) && ScalarsKnown(s, e) && Lowered(s, ctx, inits, k, piece)
    ensures BlockOk(be, s, e', e2, s.nodes[k], piece)
  {
    hide PairChecked, Fresh, Plain, Related, Region, Faithful, PlaceOf, Scalars, LowerNode, BlockOk, At, Holds;
    var n := s.nodes[k];
    if i :| 0 <= i < |s.pairs| && n == s.pairs[i].first {
      FirstBlock(be, s, ctx, e0, inits, e, e', e2, k, i, piece);
    } else if i :| 0 <= i < |s.pairs| && n == s.pairs[i].second {
      SecondBlock(be, s, ctx, e0, inits, e, e', e2, k, i, piece);
    } else if i :| 0 <= i < |s.pairs| && n == s.pairs[i].transpose {
      RemovedBlock(be, s, ctx, e0, inits, e, e', e2, k, i);
    } else if i :| 0 <= i < |s.pairs| && ElementWise(n) && Touches(n, Region(s, i)) {
      RegionBlock(be, s, ctx, e0, inits, e, e', e2, k, i, piece);
    } else {
      NeutralBlock(be, s, ctx, e0, inits, e, e', e2, k, piece);
    }
  }

  lemma ScalarsStayKnown(be: Backend, s: Source, e0: Env, e: Env, e': Env, k: nat)
    requires WellFormed(s) && At(s, e0, e, k) && Step(be, e, s.nodes[k]) == Some(e') && ScalarsKnown(s, e)
    requires s.pairs != [] ==> SmallScalars(s)
    ensures ScalarsKnown(s, e')
  {
    hide PairChecked;
    var n := s.nodes[k];
    StepDomain(be, e, n);
    if s.pairs != [] {
      forall x | x in Scalars(s) && x in e' ensures Single(e'[x]) && |e'[x].shape| <= 3 {
        if Produces(n, x) {
          var j := ScalarIsConstant(s.nodes, x);
          assert OneOutput(s.nodes[j]);
          assert Produces(s.nodes[j], x);
          assert j == k;
          assert n.outputs == [x];
          BindOne(e, x, n.op.value.value);
        }
      }
    }
  }

  lemma OneStep(be: Backend, s: Source, ctx: Context, e0: Env, inits: seq<Initializer>, e: Env, e': Env, e2: Env, k: nat, piece: Piece)
    requires Before(be, s, ctx, e0, inits, e, e', e2, k) && ScalarsKnown(s, e) && Lowered(s, ctx, inits, k, piece)
    ensures Eval(be, e2, piece.nodes).Some?
    ensures Related(s, e', Eval(be, e2, piece.nodes).value) && Holds(Eval(be, e2, piece.nodes).value, inits)
    ensures ScalarsKnown(s, e')
    ensures e'.Keys == s.given + Outs(s.nodes, k + 1) && forall x | x in e0 :: x in e' && e'[x] == e0[x]
  {
    hide PairChecked, Plain, Related, Region, Faithful, PlaceOf, Scalars, LowerNode, ScalarsKnown, FoundAt, Run;
    var n := s.nodes[k];
    NodeBlock(be, s, ctx, e0, inits, e, e', e2, k, piece);
    var e2' := Eval(be, e2, piece.nodes).value;
    EvalWrites(be, e2, piece.nodes);
    KnownNotWritten(s, ctx, e0, inits, e, k, piece);
    StepDomain(be, e, n);
    forall x | x in Names(n.outputs) ensures x !in e { OutputUndefined(s, e0, e, k, x); }
    Extend(s, e, e', e2, e2');
    ScalarsStayKnown(be, s, e0, e, e', k);
    InitsNotWritten(s, ctx, e0, inits, k, piece);
  }

  lemma InitsNotWritten(s: Source, ctx: Context, e0: Env, inits: seq<Initializer>, k: nat, piece: Piece)
    requires Sound(s, ctx, e0, inits) && Lowered(s, ctx, inits, k, piece)
    ensures forall j | 0 <= j < |inits| :: inits[j].name !in Outs(piece.nodes, |piece.nodes|)
  {
    hide PairChecked, Faithful, LowerNode;
    assert FreshAt(s, s.nodes[k], piece, InitNames(inits));
    OutputsOriginal(s, k);
    forall j | 0 <= j < |inits| ensures inits[j].name !in Outs(piece.nodes, |piece.nodes|) {
      assert inits[j].name in InitNames(inits);
    }
  }

  lemma {:induction false} PrefixParts(nodes: seq<Node>, m: nat, k: nat, ctx: Context)
    requires Standard(nodes) && k <= m <= |nodes| && LowerPrefix(nodes, m, ctx).Ok?
    ensures LowerPrefix(nodes, k, ctx).Ok?
    ensures forall c | c in LowerPrefix(nodes, k, ctx).value.inits :: c in LowerPrefix(nodes, m, ctx).value.inits
    decreases m - k
  {
    if k < m { PrefixParts(nodes, m - 1, k, ctx); }
  }

  lemma PieceOfNode(s: Source, ctx: Context, k: nat, inits: seq<Initializer>) returns (piece: Piece)
    requires Standard(s.nodes) && k < |s.nodes| && LowerPrefix(s.nodes, |s.nodes|, ctx).Ok?
    requires LowerPrefix(s.nodes, |s.nodes|, ctx).value.inits == inits
    ensures Lowered(s, ctx, inits, k, piece) && LowerPrefix(s.nodes, k, ctx).Ok? && LowerPrefix(s.nodes, k + 1, ctx).Ok?
    ensures LowerPrefix(s.nodes, k + 1, ctx).value.nodes == LowerPrefix(s.nodes, k, ctx).value.nodes + piece.nodes
  {
    hide LowerNode;
    PrefixParts(s.nodes, |s.nodes|, k, ctx);
    PrefixParts(s.nodes, |s.nodes|, k + 1, ctx);
    piece := LowerNode(s.nodes[k], ctx).value;
  }

  ghost predicate InStep(be: Backend, s: Source, ctx: Context, e0: Env, e20: Env, inits: seq<Initializer>, k: nat)
    requires WellFormed(s) && k <= |s.nodes| && LowerPrefix(s.nodes, k, ctx).Ok?
  {
    var r, r2 := Eval(be, e0, s.nodes[..k]), Eval(be, e20, LowerPrefix(s.nodes, k, ctx).value.nodes);
    && r.Some? && r2.Some? && Related(s, r.value, r2.value) && Holds(r2.value, inits) && ScalarsKnown(s, r.value)
    && r.value.Keys == s.given + Outs(s.nodes, k) && forall x | x in e0 :: x in r.value && r.value[x] == e0[x]
  }

  lemma StartInStep(be: Backend, s: Source, ctx: Context, e0: Env, e20: Env, inits: seq<Initializer>)
    requires WellFormed(s) && e0.Keys == s.given && Related(s, e0, e20) && Holds(e20, inits) && ScalarsKnown(s, e0)
    ensures LowerPrefix(s.nodes, 0, ctx).Ok? && InStep(be, s, ctx, e0, e20, inits, 0)
  {
    hide PairChecked, Related, ScalarsKnown, Holds, Run;
    assert s.nodes[..0] == [];
  }

  /** After every prefix of the list both graphs have evaluated to related states. */
  lemma {:induction false} Simulation(be: Backend, s: Source, ctx: Context, e0: Env, e20: Env, inits: seq<Initializer>, k: nat)
    requires Sound(s, ctx, e0, inits) && k <= |s.nodes| && LowerPrefix(s.nodes, |s.nodes|, ctx).Ok?
    requires LowerPrefix(s.nodes, |s.nodes|, ctx).value.inits == inits
    requires Eval(be, e0, s.nodes).Some? && Related(s, e0, e20) && Holds(e20, inits) && ScalarsKnown(s, e0)
    ensures LowerPrefix(s.nodes, k, ctx).Ok? && InStep(be, s, ctx, e0, e20, inits, k)
  {
    hide PairChecked, Related, Faithful, Fresh, LowerNode, ScalarsKnown, Holds, Run, Eval, LowerPrefix;
    if k == 0 {
      StartInStep(be, s, ctx, e0, e20, inits);
    } else {
      Simulation(be, s, ctx, e0, e20, inits, k - 1);
      var piece := PieceOfNode(s, ctx, k - 1, inits);
      var before := LowerPrefix(s.nodes, k - 1, ctx).value.nodes;
      EvalPrefix(be, e0, s.nodes, k - 1);
      EvalPrefixes(be, e0, s.nodes, k);
      EvalAppend(be, e20, before, piece.nodes);
      OneStep(be, s, ctx, e0, inits, Eval(be, e0, s.nodes[..k - 1]).value, Eval(be, e0, s.nodes[..k]).value,
              Eval(be, e20, before).value, k - 1, piece);
    }
  }

  // ---------------------------------------------------------------- from the model before to the model after

  lemma {:induction false} ArraysHold(e: Env, inits: seq<Initializer>)
    requires Consistent(inits)
    ensures Holds(Arrays(inits), inits) && Arrays(inits).Keys == InitNames(inits)
  {
    if inits != [] {
      var m := |inits| - 1;
      ArraysHold(e, inits[..m]);
      forall k | 0 <= k < |inits| ensures inits[k].name in Arrays(inits) && Arrays(inits)[inits[k].name] == inits[k].value {
        if k < m { assert inits[..m][k] == inits[k]; }
      }
      assert InitNames(inits) == InitNames(inits[..m]) + {inits[m].name} by {
        assert forall k | 0 <= k < m :: inits[..m][k].name == inits[k].name;
      }
    }
  }

  lemma {:induction false} ArraysAppend(a: seq<Initializer>, b: seq<Initializer>)
    ensures Arrays(a + b) == Arrays(a) + Arrays(b)
  {
    if b == [] {
      assert a + b == a;
    } else {
      var m := |b| - 1;
      assert (a + b)[..|a + b| - 1] == a + b[..m];
      ArraysAppend(a, b[..m]);
    }
  }

  lemma StartRelated(s: Source, e0: Env, e20: Env)
    requires WellFormed(s) && e0.Keys == s.given
    requires forall x | x in e0 :: x in e20 && e20[x] == e0[x]
    ensures Related(s, e0, e20)
  {
    hide PairChecked, PlaceOf, Plain;
    forall x | x in e0 ensures FoundAt(s, e0, e20, x) {
      GivenIsPlain(s, x);
      PlainFound(s, e0, e20, x);
    }
  }

  lemma ConstantIsNotGiven(s: Source, x: string)
    requires WellFormed(s) && x in ConstantScalars(s.nodes)
    ensures x !in s.given
  {
    hide PairChecked;
    var j := ScalarIsConstant(s.nodes, x);
    assert OneOutput(s.nodes[j]);
    assert Produces(s.nodes[j], x);
  }

  lemma StartScalars(s: Source, ctx: Context, e0: Env, inits: seq<Initializer>)
    requires Sound(s, ctx, e0, inits)
    ensures ScalarsKnown(s, e0)
  {
    hide PairChecked, Fresh, Faithful;
    if s.pairs != [] {
      forall x | x in Scalars(s) && x in e0 ensures Single(e0[x]) && |e0[x].shape| <= 3 {
        if x in ConstantScalars(s.nodes) { ConstantIsNotGiven(s, x); }
      }
    }
  }

  /** The environment the rewritten model starts from. */
  function StartAfter(inputs: Env, consts: seq<Initializer>, piece: Piece, outputs: seq<string>): Env {
    inputs + Arrays(Kept(consts + piece.inits, Used(piece.nodes, outputs)))
  }

  ghost predicate Rewritten(be: Backend, s: Source, ctx: Context, inputs: Env, consts: seq<Initializer>, piece: Piece, e: Env) {
    && s.arrays == Arrays(consts) && inputs.Keys !! s.arrays.Keys && Sound(s, ctx, inputs + Arrays(consts), piece.inits)
    && Consistent(piece.inits) && LowerPrefix(s.nodes, |s.nodes|, ctx) == Ok(piece)
    && Eval(be, inputs + Arrays(consts), s.nodes) == Some(e)
  }

  lemma StartAgrees(s: Source, ctx: Context, inputs: Env, consts: seq<Initializer>, inits: seq<Initializer>)
    requires s.arrays == Arrays(consts) && Named(s, ctx, inputs + Arrays(consts), inits) && Consistent(inits)
    ensures Arrays(consts + inits).Keys == Arrays(consts).Keys + InitNames(inits)
    ensures var e0, e20 := inputs + Arrays(consts), inputs + Arrays(consts + inits);
      (forall x | x in e0 :: x in e20 && e20[x] == e0[x]) && Holds(e20, inits)
  {
    hide PairChecked, Faithful, LowerNode, WellFormed, Outs;
    ArraysAppend(consts, inits);
    ArraysHold(inputs, inits);
    assert forall x | x in InitNames(inits) :: x !in Original(s);
  }

  lemma AllConstants(be: Backend, s: Source, ctx: Context, inputs: Env, consts: seq<Initializer>, piece: Piece, e: Env)
    requires Rewritten(be, s, ctx, inputs, consts, piece, e)
    ensures var r := Eval(be, inputs + Arrays(consts + piece.inits), piece.nodes);
      r.Some? && Related(s, e, r.value) && e.Keys == s.given + Outs(s.nodes, |s.nodes|)
  {
    hide PairChecked, Related, Faithful, LowerNode, ScalarsKnown, Run, Fresh, Holds, Arrays, LowerPrefix, Eval;
    var e0, e20 := inputs + Arrays(consts), inputs + Arrays(consts + piece.inits);
    StartAgrees(s, ctx, inputs, consts, piece.inits);
    StartRelated(s, e0, e20);
    StartScalars(s, ctx, e0, piece.inits);
    Simulation(be, s, ctx, e0, e20, piece.inits, |s.nodes|);
    assert s.nodes[..|s.nodes|] == s.nodes;
  }

  /** Dropping the unused constants changes nothing that is produced or returned. */
  lemma DroppingConstants(be: Backend, inputs: Env, consts: seq<Initializer>, nodes: seq<Node>, outputs: seq<string>)
    requires Eval(be, inputs + Arrays(consts), nodes).Some?
    ensures var used := Used(nodes, outputs);
      var r, r2 := Eval(be, inputs + Arrays(consts), nodes).value, Eval(be, inputs + Arrays(Kept(consts, used)), nodes);
      r2.Some? && forall x | x in r && (x in used || x !in inputs + Arrays(consts)) :: x in r2.value && r2.value[x] == r[x]
  {
    hide Run, Arrays, Kept;
    var used := Used(nodes, outputs);
    var all, kept := inputs + Arrays(consts), inputs + Arrays(Kept(consts, used));
    KeptArrays(consts, used);
    var keep := used + (Outs(nodes, |nodes|) - all.Keys);
    EvalWrites(be, all, nodes);
    EvalFrame(be, all, kept, nodes, keep);
  }

  /** Everything the original graph computes is found in the rewritten one, started with the constants that
      were kept: region tensors transposed, all others unchanged. */
  lemma LoweringSimulates(be: Backend, s: Source, ctx: Context, inputs: Env, consts: seq<Initializer>, piece: Piece, e: Env)
    requires Rewritten(be, s, ctx, inputs, consts, piece, e)
    ensures var r := Eval(be, StartAfter(inputs, consts, piece, s.outputs), piece.nodes);
      && r.Some?
      && (forall x | x in e && Plain(s, x) && (x in Outs(s.nodes, |s.nodes|) || x in s.outputs) ::
            x in r.value && r.value[x] == e[x])
      && (forall x | x in e && InRegion(s, x) :: Rank(e[x], 3) && x in r.value && r.value[x] == Swap(e[x]))
  {
    hide PairChecked, Faithful, LowerNode, ScalarsKnown, Run, Region, PlaceOf, Swap, Arrays, Kept, LowerPrefix, Eval, Related;
    AllConstants(be, s, ctx, inputs, consts, piece, e);
    DroppingConstants(be, inputs, consts + piece.inits, piece.nodes, s.outputs);
    StartAgrees(s, ctx, inputs, consts, piece.inits);
    var all := inputs + Arrays(consts + piece.inits);
    var r := Eval(be, all, piece.nodes).value;
    forall x | x in Outs(s.nodes, |s.nodes|) ensures x !in all { ProducedIsNew(s, ctx, inputs + Arrays(consts), piece.inits, x); }
    forall x | x in e && InRegion(s, x) ensures Rank(e[x], 3) && x in r && r[x] == Swap(e[x]) && x in Outs(s.nodes, |s.nodes|) {
      RegionValue(s, e, r, x);
    }
    forall x | x in e && Plain(s, x) ensures x in r && r[x] == e[x] {
      FoundOf(s, e, r, x);
      PlainFound(s, e, r, x);
    }
    NoEmptyEnd(s, ctx, inputs + Arrays(consts), piece.inits);
  }

  lemma ProducedIsNew(s: Source, ctx: Context, e0: Env, inits: seq<Initializer>, x: string)
    requires Named(s, ctx, e0, inits) && x in Outs(s.nodes, |s.nodes|)
    ensures x !in s.given && x !in InitNames(inits) && x != ""
  {
    hide PairChecked, Faithful, LowerNode;
    var k := OutsFrom(s.nodes, |s.nodes|, x);
  }

  lemma NoEmptyEnd(s: Source, ctx: Context, e0: Env, inits: seq<Initializer>)
    requires Sound(s, ctx, e0, inits)
    ensures "" !in s.given + Outs(s.nodes, |s.nodes|)
  {
    hide PairChecked, Faithful, LowerNode;
    if "" in Outs(s.nodes, |s.nodes|) { var i := OutsFrom(s.nodes, |s.nodes|, ""); }
  }

  lemma RegionValue(s: Source, e: Env, r: Env, x: string)
    requires WellFormed(s) && Related(s, e, r) && x in e && InRegion(s, x) && e.Keys == s.given + Outs(s.nodes, |s.nodes|)
    ensures Rank(e[x], 3) && x in r && r[x] == Swap(e[x]) && x in Outs(s.nodes, |s.nodes|)
  {
    hide PairChecked, Region, Swap;
    var i :| 0 <= i < |s.pairs| && x in Region(s, i);
    InRegionFound(s, e, r, i, x);
    RegionIsProduced(s, i, x);
  }

  // ---------------------------------------------------------------- graph outputs

  lemma OutputsAreNotInRegions(s: Source, o: string)
    requires WellFormed(s) && o in s.outputs
    ensures !InRegion(s, o)
  {
    hide PairChecked, Region;
    forall i | 0 <= i < |s.pairs| ensures o !in Region(s, i) { SecondReadsRegion(s, i); }
  }

  /** A block writes nothing that a removed transpose used to produce. */
  lemma TransposedNotWritten(s: Source, ctx: Context, e0: Env, inits: seq<Initializer>, k: nat, piece: Piece, y: string)
    requires Named(s, ctx, e0, inits) && Lowered(s, ctx, inits, k, piece) && IsRemoved(s, y)
    ensures y !in Outs(piece.nodes, |piece.nodes|)
  {
    hide PairChecked, Faithful, LowerNode;
    var i :| IsTransposed(s, i, y);
    var t := TransposeIndex(s, i);
    assert FreshAt(s, s.nodes[k], piece, InitNames(inits));
    OutputsOriginal(s, t);
    if y in Names(s.nodes[k].outputs) {
      assert Produces(s.nodes[k], y);
      assert k == t;
      assert s.nodes[k].name in ctx.removed by { assert s.pairs[i] in s.pairs; }
      RemovedIsEmpty(s.nodes[k], ctx);
    }
  }

  lemma RemovedIsEmpty(node: Node, ctx: Context)
    requires OneOutput(node) && node.name in ctx.removed
    ensures LowerNode(node, ctx) == Ok(Piece([], []))
  {}

  lemma {:induction false} TransposedNeverWritten(s: Source, ctx: Context, e0: Env, inits: seq<Initializer>, k: nat, y: string)
    requires Named(s, ctx, e0, inits) && IsRemoved(s, y) && k <= |s.nodes|
    requires LowerPrefix(s.nodes, |s.nodes|, ctx).Ok? && LowerPrefix(s.nodes, |s.nodes|, ctx).value.inits == inits
    ensures LowerPrefix(s.nodes, k, ctx).Ok?
    ensures var nodes := LowerPrefix(s.nodes, k, ctx).value.nodes; y !in Outs(nodes, |nodes|)
  {
    hide PairChecked, Faithful, LowerNode, Fresh, IsRemoved, FreshAt;
    if k > 0 {
      TransposedNeverWritten(s, ctx, e0, inits, k - 1, y);
      var piece := PieceOfNode(s, ctx, k - 1, inits);
      TransposedNotWritten(s, ctx, e0, inits, k - 1, piece, y);
      OutsAppend(LowerPrefix(s.nodes, k - 1, ctx).value.nodes, piece.nodes);
    }
  }

  /** The rewritten model returns every graph output unchanged exactly when no graph output is the output of a
      removed transpose; such an output would be missing. */
  lemma OutputsPreserved(be: Backend, s: Source, ctx: Context, inputs: Env, consts: seq<Initializer>, piece: Piece, e: Env)
    requires Rewritten(be, s, ctx, inputs, consts, piece, e) && forall o | o in s.outputs :: o in e
    ensures var r := Eval(be, StartAfter(inputs, consts, piece, s.outputs), piece.nodes);
      && r.Some?
      && ((forall o | o in s.outputs :: o in r.value && r.value[o] == e[o])
          <==> forall o | o in s.outputs :: !IsRemoved(s, o))
  {
    hide PairChecked, Faithful, LowerNode, ScalarsKnown, Run, Region, PlaceOf, Swap, Arrays, Kept, LowerPrefix, Fresh;
    LoweringSimulates(be, s, ctx, inputs, consts, piece, e);
    var start := StartAfter(inputs, consts, piece, s.outputs);
    EvalWrites(be, start, piece.nodes);
    forall o | o in s.outputs ensures !InRegion(s, o) { OutputsAreNotInRegions(s, o); }
    forall o | o in s.outputs && IsRemoved(s, o) ensures o !in Eval(be, start, piece.nodes).value {
      TransposedNeverWritten(s, ctx, inputs + Arrays(consts), piece.inits, |s.nodes|, o);
      TransposedNotGiven(s, ctx, inputs, consts, piece, o);
    }
  }

  lemma TransposedIsProduced(s: Source, y: string)
    requires WellFormed(s) && IsRemoved(s, y)
    ensures y in Outs(s.nodes, |s.nodes|)
  {
    hide PairChecked;
    var i :| IsTransposed(s, i, y);
    var t := TransposeIndex(s, i);
    OutsIn(s.nodes, |s.nodes|, t, y);
  }

  lemma TransposedNotGiven(s: Source, ctx: Context, inputs: Env, consts: seq<Initializer>, piece: Piece, y: string)
    requires s.arrays == Arrays(consts) && Named(s, ctx, inputs + Arrays(consts), piece.inits) && IsRemoved(s, y)
    requires Consistent(piece.inits)
    ensures y !in StartAfter(inputs, consts, piece, s.outputs)
  {
    hide PairChecked, Faithful, LowerNode, WellFormed, Fresh, Arrays, Kept, Outs, IsRemoved;
    TransposedIsProduced(s, y);
    ProducedIsNew(s, ctx, inputs + Arrays(consts), piece.inits, y);
    StartAgrees(s, ctx, inputs, consts, piece.inits);
    KeptSubset(consts + piece.inits, Used(piece.nodes, s.outputs));
  }
}
