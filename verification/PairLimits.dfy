/** Exactly where lowering conformer pairs stops preserving a graph: outputs inside a block, readers that look into one, missing
    biases. */
module PairLimits {
  import opened Wrappers
  import opened Tensors
  import opened OnnxGraph
  import opened AffineBlocks
  import opened AffineBlockMeaning
  import opened AffineLowering
  import opened AffineRegions
  import opened GraphAgreement
  import opened PairLowering
  import opened PairMeaning
  import opened PairDeleting
  import opened PairTheorem
  import opened PairKeeping
  import opened PairSearch
  import opened PairPasses
  import opened PairSeparate
  import A = AffineTensors

  // ---------------------------------------------------------------- outputs

  lemma SwapTurnsShape(t: Tensor)
    requires Rank(t, 3) && t.shape[1] != t.shape[2]
    ensures Swap(t) != t
  {
    assert Swap(t).shape[1] == t.shape[2];
  }

  /** What a caller can tell from shapes: if no output inside the block has as many channels as positions, all outputs keep
      their values if and only if none is inside the block or deleted. */
  lemma DeletingOutputsByShape(be: Backend, m: Model, inputs: Env, b: Block, w: Wires, e: Env, outputs: set<string>)
    requires Ran(be, m, inputs, b, w, e) && outputs <= inputs.Keys + Outs(m.nodes, |m.nodes|)
    requires forall o | o in outputs && o in Swapped(w) && o in e && Rank(e[o], 3) :: e[o].shape[1] != e[o].shape[2]
    ensures outputs <= e.Keys
    ensures var next := Lowered(m, b);
      var r := Eval(be, inputs + Arrays(next.inits), next.nodes);
      && r.Some?
      && ((forall o | o in outputs :: o in r.value && r.value[o] == e[o]) <==> outputs !! Gone(w) + Swapped(w))
  {
    hide Ran, Eval, Arrays, Gone, Swapped, Swap, Lowered, Outs;
    RanCan(be, m, inputs, b, w, e);
    DeletingOutputsExactly(be, m, inputs, b, w, e, outputs);
    forall o | o in outputs && o in Swapped(w) ensures Swap(e[o]) != e[o] { SwapTurnsShape(e[o]); }
  }

  lemma RanCan(be: Backend, m: Model, inputs: Env, b: Block, w: Wires, e: Env)
    requires Ran(be, m, inputs, b, w, e)
    ensures CanLower(m, b)
  {}

  /** The two tensors that the variant that keeps NCT removes are produced by no node afterwards. */
  lemma RemovedIsNotYielded(nodes: seq<Node>, given: set<string>, b: Block, w: Ends, n: Node, x: string)
    requires Tidy(nodes, given, b, w) && Placed(nodes, given, b, KeepingPlaces(w)) && n in nodes && x in {w.t, w.c2}
    requires x !in {Rows1(w), Ntc1(w), Ntc2(w), Rows2(w)}
    ensures x !in Yield(b, KeepingPlaces(w), n)
  {
    hide SingleAssignment, DistinctOutputs, Outs, UnitConv, Placed, Rows1, Rows2, Ntc1, Ntc2, New, ReadOnlyBy;
    var q := KeepingPlaces(w);
    assert w.c1 in b.conv1.outputs && w.y in b.after.outputs;
    if x in Yield(b, q, n) {
      YieldOwner(nodes, given, b, q, n, x);
      OnlyMaker(nodes, given, if x == w.t then b.before else b.conv2, x);
    }
  }

  lemma RemovedIsGone(be: Backend, m: Model, inputs: Env, b: Block, w: Ends, e: Env, x: string)
    requires RanKeeping(be, m, inputs, b, w, e) && x in {w.t, w.c2}
    ensures x !in NewGiven(inputs.Keys + Arrays(m.inits).Keys, b) && x !in Outs(Lowered(m, b).nodes, |Lowered(m, b).nodes|)
    ensures x in Outs(m.nodes, |m.nodes|)
  {
    hide Tidy, Joined, FreshSix, SingleAssignment, Eval, Arrays, Rhs, NewInits, Off, Placed, Rows1, Rows2, Ntc1, Ntc2, KeepingPlaces, Yield,
      Piece1, Outs;
    var given, nodes := inputs.Keys + Arrays(m.inits).Keys, m.nodes;
    RanSituation(be, m, inputs, b, w, e);
    TidyIsJoined(nodes, given, b, w);
    SixDiffer(e, b, w);
    assert Names6(b, w) == [Rhs(Weight1(b)), Rhs(Weight2(b)), Rows1(w), Ntc1(w), Ntc2(w), Rows2(w)];
    KeepingPlaced(nodes, given, b, w, e);
    EndTensors(nodes, given, b, w);
    RemovedIsMade(nodes, given, b, w);
    forall k | 0 <= k < |nodes|
      ensures SingleAssignment(Piece1(b, nodes[k]), NewGiven(given, b))
      ensures Outs(Piece1(b, nodes[k]), |Piece1(b, nodes[k])|) <= Yield(b, KeepingPlaces(w), nodes[k])
    {
      KeepingYieldsAt(nodes, given, b, w, NewGiven(given, b), nodes[k], k, e);
    }
    StaysSingle(nodes, given, b, KeepingPlaces(w), NewGiven(given, b), |nodes|);
    if x in Made1(b, nodes, |nodes|) {
      var j :| 0 <= j < |nodes| && x in Yield(b, KeepingPlaces(w), nodes[j]);
      RemovedIsNotYielded(nodes, given, b, w, nodes[j], x);
    }
  }

  lemma RemovedIsMade(nodes: seq<Node>, given: set<string>, b: Block, w: Ends)
    requires Tidy(nodes, given, b, w)
    ensures w.t in Outs(nodes, |nodes|) && w.c2 in Outs(nodes, |nodes|) && w.t !in given && w.c2 !in given
  {
    hide DistinctOutputs, Outs, UnitConv, ReadOnlyBy;
    OnlyMaker(nodes, given, b.before, w.t);
    OnlyMaker(nodes, given, b.conv2, w.c2);
    hide SingleAssignment;
    OutputsAreMade(nodes, b.before, w.t);
    OutputsAreMade(nodes, b.conv2, w.c2);
  }

  /** The variant that keeps NCT: all outputs keep their values if and only if none is one of the two removed tensors. */
  lemma KeepingOutputsExactly(be: Backend, m: Model, inputs: Env, b: Block, w: Ends, e: Env, outputs: set<string>)
    requires RanKeeping(be, m, inputs, b, w, e) && outputs <= inputs.Keys + Outs(m.nodes, |m.nodes|)
    ensures outputs <= e.Keys
    ensures var next := Lowered(m, b);
      var r := Eval(be, inputs + Arrays(next.inits), next.nodes);
      && r.Some?
      && ((forall o | o in outputs :: o in r.value && r.value[o] == e[o]) <==> outputs !! {w.t, w.c2})
  {
    hide Tidy, FreshSix, SingleAssignment, Rhs, NewInits, Eval, Arrays, Outs, NewGiven, Rebuilt;
    var next := Lowered(m, b);
    KeepingPreserves(be, m, inputs, b, w, e);
    RanSituation(be, m, inputs, b, w, e);
    var r := Eval(be, inputs + Arrays(next.inits), next.nodes).value;
    KeepingSingle(be, m, inputs, b, w, e);
    NextGiven(m, inputs.Keys, b);
    EvalWrites(be, inputs + Arrays(next.inits), next.nodes);
    forall o | o in outputs && o in {w.t, w.c2} ensures o !in r { RemovedIsGone(be, m, inputs, b, w, e, o); }
    forall o | o in outputs ensures o in e && (o !in {w.t, w.c2} ==> o in r && r[o] == e[o]) {}
  }

  // ---------------------------------------------------------------- biases

  /** In front of the last check: a block in the variant that keeps NCT, with kernels that can be lowered. */
  predicate KeepsNct(m: Model, conv1: Node, b: Block) {
    var arrays := Arrays(m.inits);
    && FindBlock(m.nodes, arrays, conv1) == Some(b) && Shaped(b) && b.middle.None?
    && |Consumers(m.nodes, Weight1(b))| == 1 && |Consumers(m.nodes, Weight2(b))| == 1
    && Rhs(Weight1(b)) !in arrays && Rhs(Weight2(b)) !in arrays
    && Weight1(b) in arrays && Weight2(b) in arrays && PointwiseKernel(arrays[Weight1(b)]) && PointwiseKernel(arrays[Weight2(b)])
  }

  /** Such a block is lowered if both convolutions have a bias, and fails the pass if one has none. No other block fails for a
      missing bias. */
  lemma MissingBiasExactly(m: Model, conv1: Node)
    ensures LowerPair(m, conv1) == Err(MissingBias) <==>
      exists b :: KeepsNct(m, conv1, b) && (|b.conv1.inputs| == 2 || |b.conv2.inputs| == 2)
    ensures forall b | KeepsNct(m, conv1, b) :: LowerPair(m, conv1).Ok? <==> |b.conv1.inputs| == 3 && |b.conv2.inputs| == 3
  {
    hide Consumers, Producer, First, FindGlu, FindActivation, Arrays, Rhs, PointwiseKernel, OnlyActivation, Lowered, ReplaceAll;
    forall b | KeepsNct(m, conv1, b)
      ensures 2 <= |b.conv1.inputs| <= 3 && 2 <= |b.conv2.inputs| <= 3
      ensures LowerPair(m, conv1) == Err(MissingBias) <==> |b.conv1.inputs| == 2 || |b.conv2.inputs| == 2
      ensures LowerPair(m, conv1).Ok? <==> |b.conv1.inputs| == 3 && |b.conv2.inputs| == 3
    {
      HasInputs(m.nodes, Arrays(m.inits), conv1, b);
    }
    if LowerPair(m, conv1) == Err(MissingBias) {
      assert KeepsNct(m, conv1, FindBlock(m.nodes, Arrays(m.inits), conv1).value);
    }
  }

  lemma HasInputs(nodes: seq<Node>, arrays: Env, conv1: Node, b: Block)
    requires FindBlock(nodes, arrays, conv1) == Some(b)
    ensures 2 <= |b.conv1.inputs| <= 3 && 2 <= |b.conv2.inputs| <= 3
  {
    hide Consumers, Producer, First, FindGlu, FindActivation, ReplaceAll;
  }

  // ---------------------------------------------------------------- a reader that looks into the block

  predicate Stray(n: Node, s: string, z: string) { n.op.Unary? && n.inputs == [s] && n.outputs == [z] && z != "" }

  lemma StrayLookups(nodes: seq<Node>, n: Node, s: string, z: string, x: string)
    requires Stray(n, s, z)
    ensures Producer(nodes + [n], x) == if x == z then Some(n) else Producer(nodes, x)
    ensures Consumers(nodes + [n], x) == Consumers(nodes, x) + if x == s then [n] else []
  {
    ProducerAppend(nodes, [n], x);
    ConsumersAppend(nodes, [n], x);
    assert [n][..0] == [];
    OneReader(n, s, x);
  }

  lemma OneReader(n: Node, s: string, x: string)
    requires n.inputs == [s]
    ensures Consumers([n], x) == if x == s then [n] else []
  {
    assert [n][..0] == [] && n.inputs[1..] == [] && Uses(n.inputs[1..], x) == 0;
    assert Uses(n.inputs, x) == if x == s then 1 else 0;
  }

  lemma StillFirst(nodes: seq<Node>, more: seq<Node>, p: Node -> bool)
    requires First(nodes, p).Some?
    ensures First(nodes + more, p) == First(nodes, p)
  {
    FirstAppend(nodes, more, p);
  }

  lemma {:induction false} StraySigmoidInput(nodes: seq<Node>, n: Node, s: string, z: string, inputs: seq<string>)
    requires Stray(n, s, z) && z !in inputs
    ensures SigmoidInput(nodes + [n], inputs) == SigmoidInput(nodes, inputs)
  {
    hide Producer, Consumers;
    if inputs != [] {
      StrayLookups(nodes, n, s, z, inputs[0]);
      StraySigmoidInput(nodes, n, s, z, inputs[1..]);
    }
  }

  lemma StrayGlu(nodes: seq<Node>, n: Node, s: string, z: string, conv1: Node)
    requires Stray(n, s, z) && FindGlu(nodes, conv1).Some? && conv1.outputs != [] && s != conv1.outputs[0]
    ensures FindGlu(nodes + [n], conv1) == FindGlu(nodes, conv1)
  {
    hide Producer, Consumers, First;
    var parts := FindGlu(nodes, conv1).value;
    StrayLookups(nodes, n, s, z, conv1.outputs[0]);
    var split := Consumers(nodes, conv1.outputs[0])[0];
    StrayLookups(nodes, n, s, z, split.outputs[0]);
    StrayLookups(nodes, n, s, z, split.outputs[1]);
    StillFirst(Consumers(nodes, split.outputs[1]), if split.outputs[1] == s then [n] else [],
               (n: Node) => n.op == Unary(Sigmoid) && |n.outputs| == 1);
    var gated := parts.1.outputs[0];
    StillFirst(Consumers(nodes, split.outputs[0]), if split.outputs[0] == s then [n] else [],
               (n: Node) => n.op == Binary(Mul) && split.outputs[0] in n.inputs && gated in n.inputs);
  }

  lemma StrayActivation(nodes: seq<Node>, n: Node, s: string, z: string, conv2: Node)
    requires Stray(n, s, z) && FindActivation(nodes, conv2).Some? && z !in LooksActivation(nodes, conv2) && z !in conv2.inputs
    ensures FindActivation(nodes + [n], conv2) == FindActivation(nodes, conv2)
  {
    hide Producer, Consumers, SigmoidInput;
    StrayLookups(nodes, n, s, z, conv2.inputs[0]);
    var act := Producer(nodes, conv2.inputs[0]).value;
    assert z !in Set(act.inputs);
    StraySigmoidInput(nodes, n, s, z, act.inputs);
  }

  /** The search looks at the readers of the transposes and convolutions alone. */
  lemma StrayIsNotSeen(nodes: seq<Node>, arrays: Env, conv1: Node, b: Block, n: Node, s: string, z: string)
    requires Stray(n, s, z) && FindBlock(nodes, arrays, conv1) == Some(b) && Shaped(b)
    requires z !in Looks(nodes, conv1) && z !in conv1.inputs && z !in b.conv2.inputs
    requires s !in {b.before.outputs[0], b.conv1.outputs[0], b.conv2.outputs[0]}
    ensures FindBlock(nodes + [n], arrays, conv1) == Some(b)
  {
    hide Producer, Consumers, First, FindGlu, FindActivation, LooksGlu, LooksActivation, Mentions, ReplaceAll, Core, SigmoidInput;
    FoundBy(nodes, arrays, conv1, b);
    GateLooked(nodes, b.conv2);
    StillFirst(nodes, [n], Called(ReplaceAll(conv1.name, CONV1, CONV2)));
    StrayLookups(nodes, n, s, z, conv1.inputs[0]);
    StrayLookups(nodes, n, s, z, b.before.outputs[0]);
    StrayLookups(nodes, n, s, z, b.conv2.outputs[0]);
    StrayLookups(nodes, n, s, z, b.gate.inputs[0]);
    StrayGlu(nodes, n, s, z, conv1);
    StrayActivation(nodes, n, s, z, b.conv2);
  }

  /** The tensors inside the block whose readers the search does not look at. */
  function Unchecked(w: Wires): set<string> { {w.s0, w.s1, w.sg, w.gate, w.a} }

  /** A name that neither the graph nor the rewrite uses. */
  ghost predicate Unused(e: Env, b: Block, w: Wires, z: string)
    requires |b.conv1.inputs| >= 2 && |b.conv2.inputs| >= 2
  {
    z !in e && z !in Made(b, w)
  }

  lemma CoreOfConv(n: Node, input: string, out: string)
    requires PointConv(n, input, out)
    ensures Core(n) == {out, input, n.inputs[1], Rhs(n.inputs[1])}
  {}

  /** What the search looks at, in a block in proper form. */
  lemma LooksAre(nodes: seq<Node>, arrays: Env, b: Block, w: Wires)
    requires FindBlock(nodes, arrays, b.conv1) == Some(b) && Wired(b, w)
    ensures Looks(nodes, b.conv1)
         <= Swapped(w) + Gone(w) + {Weight1(b), Weight2(b), Rhs(Weight1(b)), Rhs(Weight2(b))}
  {
    hide FindBlock, Consumers, First, FindGlu, LooksGlu, ReplaceAll, LooksActivation, FindActivation, UnitConv;
    FoundBy(nodes, arrays, b.conv1, b);
    CoreOfConv(b.conv1, w.t, w.c1);
    CoreOfConv(b.conv2, w.a, w.c2);
    GluLooks(nodes, b, w);
    ActivationLooks(nodes, b, w);
  }

  lemma GluLooks(nodes: seq<Node>, b: Block, w: Wires)
    requires FindGlu(nodes, b.conv1) == Some((b.split, b.sigmoid, b.glu)) && Wired(b, w)
    ensures LooksGlu(nodes, b.conv1) <= {w.s0, w.s1, w.sg, w.g}
  {
    hide Consumers, First, UnitConv;
  }

  lemma ActivationLooks(nodes: seq<Node>, b: Block, w: Wires)
    requires FindActivation(nodes, b.conv2) == Some((b.act, b.gate)) && Wired(b, w)
    ensures LooksActivation(nodes, b.conv2) <= {w.base, w.gate, w.a}
  {
    hide Producer, SigmoidInput, UnitConv;
  }

  lemma UncheckedApart(nodes: seq<Node>, given: set<string>, b: Block, w: Wires, s: string)
    requires Clean(nodes, given, b, w) && s in Unchecked(w)
    ensures s !in {w.t, w.c1, w.c2, w.base, w.g, b.conv1.inputs[1], b.conv2.inputs[1]} && s in Swapped(w)
  {
    hide SingleAssignment, DistinctOutputs, ReadOnlyBy, UnitConv;
    NamesApart(nodes, given, b, w);
    OnlyMaker(nodes, given, b.before, w.t);
    OnlyMaker(nodes, given, b.conv1, w.c1);
    OnlyMaker(nodes, given, b.conv2, w.c2);
    assert w.s0 in b.split.outputs && w.s1 in b.split.outputs && w.sg in b.sigmoid.outputs;
    assert w.gate in b.gate.outputs && w.a in b.act.outputs;
    MadeByOne(nodes, given, b, w, s);
  }

  lemma MadeByOne(nodes: seq<Node>, given: set<string>, b: Block, w: Wires, s: string)
    requires Clean(nodes, given, b, w) && s in Unchecked(w)
    ensures s !in given && exists p :: p in nodes && Produces(p, s)
  {
    hide SingleAssignment, DistinctOutputs, ReadOnlyBy, UnitConv;
    var p := if s in {w.s0, w.s1} then b.split else if s == w.sg then b.sigmoid else if s == w.gate then b.gate else b.act;
    OnlyMaker(nodes, given, p, s);
  }

  ghost predicate Looking(be: Backend, m: Model, inputs: Env, b: Block, w: Wires, e: Env, n: Node, s: string, z: string) {
    && Ran(be, m, inputs, b, w, e) && LowerPair(m, b.conv1) == Ok(Some(Lowered(m, b)))
    && FindBlock(m.nodes, Arrays(m.inits), b.conv1) == Some(b)
    && Stray(n, s, z) && s in Unchecked(w) && Unused(e, b, w, z)
  }

  function With(m: Model, n: Node): Model { Model(m.nodes + [n], m.inits) }

  /** The pass lowers the block as if the stray reader were not there. */
  lemma StrayIsIgnored(be: Backend, m: Model, inputs: Env, b: Block, w: Wires, e: Env, n: Node, s: string, z: string)
    requires Looking(be, m, inputs, b, w, e, n, s, z)
    ensures CanLower(With(m, n), b) && CanLower(m, b)
    ensures LowerPair(With(m, n), b.conv1) == Ok(Some(Lowered(With(m, n), b)))
  {
    hide FindBlock, Looks, Consumers, Arrays, SingleAssignment, DistinctOutputs, NoStrays, Eval, PointwiseKernel, Rhs, NewInits, UnitConv,
      Piece1, Unused, Unchecked;
    var given, arrays := inputs.Keys + Arrays(m.inits).Keys, Arrays(m.inits);
    UncheckedApart(m.nodes, given, b, w, s);
    UnusedUnlooked(be, m, inputs, b, w, e, z);
    StrayIsNotSeen(m.nodes, arrays, b.conv1, b, n, s, z);
    StrayLookups(m.nodes, n, s, z, b.gate.inputs[0]);
    StrayLookups(m.nodes, n, s, z, Weight1(b));
    StrayLookups(m.nodes, n, s, z, Weight2(b));
  }

  lemma UnusedUnlooked(be: Backend, m: Model, inputs: Env, b: Block, w: Wires, e: Env, z: string)
    requires Ran(be, m, inputs, b, w, e) && FindBlock(m.nodes, Arrays(m.inits), b.conv1) == Some(b) && Unused(e, b, w, z)
    ensures z !in Looks(m.nodes, b.conv1) && z !in b.conv1.inputs && z !in b.conv2.inputs
  {
    hide FindBlock, Looks, Ran, Setting, Eval, Rhs, CanLower, Arrays, Wired, InOrder, Swapped, Gone;
    var given := inputs.Keys + Arrays(m.inits).Keys;
    RanSetting(be, m, inputs, b, w, e);
    EndsKnown(be, m.nodes, given, b, w, e);
    ConvsKnown(be, m.nodes, given, b, w, e);
    LooksAre(m.nodes, Arrays(m.inits), b, w);
    var made := Made(b, w);
    assert made[0] in made && made[1] in made;
  }

  lemma ConvsKnown(be: Backend, nodes: seq<Node>, given: set<string>, b: Block, w: Wires, e: Env)
    requires Setting(be, nodes, given, b, w, e)
    ensures Wired(b, w) && Swapped(w) <= e.Keys && Shaped(b) && Weight1(b) in e && Weight2(b) in e
    ensures Set(b.conv1.inputs) <= e.Keys && Set(b.conv2.inputs) <= e.Keys
  {
    hide SingleAssignment, DistinctOutputs, NoStrays, UnitConv, Outs, FreshNames, Agrees;
    Consequences(be, nodes, given, b, w, e);
    EndsKnown(be, nodes, given, b, w, e);
    assert w.t in Gone(w);
    assert forall i | 0 <= i < |b.conv1.inputs| :: b.conv1.inputs[i] in e;
    assert forall i | 0 <= i < |b.conv2.inputs| :: b.conv2.inputs[i] in e;
  }

  lemma EndsKnown(be: Backend, nodes: seq<Node>, given: set<string>, b: Block, w: Wires, e: Env)
    requires Setting(be, nodes, given, b, w, e)
    ensures Gone(w) <= e.Keys
  {
    hide SingleAssignment, DistinctOutputs, ReadOnlyBy, UnitConv, Outs, FreshNames, Kernels, Agrees;
    OnlyMaker(nodes, given, b.before, w.t);
    OnlyMaker(nodes, given, b.middle.value, w.base);
    OnlyMaker(nodes, given, b.conv2, w.c2);
    MadeSomewhere(nodes, b.before, w.t);
    MadeSomewhere(nodes, b.middle.value, w.base);
    MadeSomewhere(nodes, b.conv2, w.c2);
  }

  lemma {:induction false} RebuiltPrefix(b: Block, nodes: seq<Node>, more: seq<Node>, k: nat)
    requires Ready1(b) && k <= |nodes|
    ensures Rebuilt(b, nodes + more, k) == Rebuilt(b, nodes, k)
  {
    hide Piece1;
    if k > 0 { RebuiltPrefix(b, nodes, more, k - 1); }
  }

  lemma StrayStands(nodes: seq<Node>, given: set<string>, b: Block, w: Wires, n: Node, s: string, z: string)
    requires Clean(nodes, given, b, w) && Ready1(b) && Stray(n, s, z) && s in Unchecked(w)
    ensures Piece1(b, n) == [n]
  {
    hide SingleAssignment, DistinctOutputs, NoStrays, Piece1, Unchecked;
    UncheckedApart(nodes, given, b, w, s);
    if Piece1(b, n) != [n] { ChangedNodes(b, n); }
  }

  /** The stray reader is still the last node. */
  lemma StrayStays(m: Model, inputs: set<string>, b: Block, w: Wires, n: Node, s: string, z: string)
    requires Clean(m.nodes, inputs + Arrays(m.inits).Keys, b, w) && CanLower(m, b) && Stray(n, s, z) && s in Unchecked(w)
    ensures CanLower(With(m, n), b) && Lowered(With(m, n), b) == With(Lowered(m, b), n)
  {
    hide Clean, Piece1, NewInits, PointwiseKernel, Arrays, Unchecked;
    LowerReady(m, b);
    StrayStands(m.nodes, inputs + Arrays(m.inits).Keys, b, w, n, s, z);
    RebuiltPrefix(b, m.nodes, [n], |m.nodes|);
    assert (m.nodes + [n])[|m.nodes|] == n;
  }

  lemma StrayStep(be: Backend, e: Env, n: Node, s: string, z: string)
    requires Stray(n, s, z) && s != "" && s in e
    ensures Step(be, e, n) == Some(e[z := Map(UnaryOf(be, n.op.unary), e[s])])
  {
    hide Map, UnaryOf;
    var v := Map(UnaryOf(be, n.op.unary), e[s]);
    assert Operands(e, n.inputs) == [Given(e[s])];
    assert Run(be, n.op, [Given(e[s])]) == Some([v]);
    assert n.outputs[1..] == [] && [v][1..] == [] && Bind(e[z := v], [], []) == e[z := v];
    assert Bind(e, n.outputs, [v]) == e[z := v];
  }

  /**
   * A node outside the block that reads one of the five tensors whose readers are not looked at: the block is lowered all the
   * same, both graphs evaluate, and the node's output is the transpose of what it was. So it is kept if and only if it equals
   * its own transpose, and lost whenever it has not as many channels as positions.
   */
  lemma StrayReaderIsTransposed(be: Backend, m: Model, inputs: Env, b: Block, w: Wires, e: Env, n: Node, s: string, z: string)
    requires Looking(be, m, inputs, b, w, e, n, s, z)
    ensures s in e && Rank(e[s], 3) && CanLower(With(m, n), b)
    ensures LowerPair(With(m, n), b.conv1) == Ok(Some(Lowered(With(m, n), b)))
    ensures var v, next := Map(UnaryOf(be, n.op.unary), e[s]), Lowered(With(m, n), b);
      var r := Eval(be, inputs + Arrays(next.inits), next.nodes);
      && Eval(be, inputs + Arrays(m.inits), With(m, n).nodes) == Some(e[z := v])
      && Rank(v, 3) && r.Some? && z in r.value && r.value[z] == Swap(v)
      && (r.value[z] == v <==> Swap(v) == v)
      && (v.shape[1] != v.shape[2] ==> r.value[z] != v)
  {
    hide SingleAssignment, DistinctOutputs, NoStrays, FreshNames, Eval, Arrays, Swap, Map, UnaryOf, LowerPair, FindBlock, Wired, Gone,
      Lowered, Unused, Outs;
    StrayIsIgnored(be, m, inputs, b, w, e, n, s, z);
    DeletingPreserves(be, m, inputs, b, w, e);
    UncheckedApart(m.nodes, inputs.Keys + Arrays(m.inits).Keys, b, w, s);
    StrayStays(m, inputs.Keys, b, w, n, s, z);
    UncheckedNamed(b, w, s);
    var next, f := Lowered(m, b), UnaryOf(be, n.op.unary);
    var r := Eval(be, inputs + Arrays(next.inits), next.nodes).value;
    EvalAppend(be, inputs + Arrays(m.inits), m.nodes, [n]);
    EvalAppend(be, inputs + Arrays(next.inits), next.nodes, [n]);
    EvalOne(be, e, n);
    EvalOne(be, r, n);
    StrayStep(be, e, n, s, z);
    StrayStep(be, r, n, s, z);
    MapSwap(f, e[s]);
    if Map(f, e[s]).shape[1] != Map(f, e[s]).shape[2] { SwapTurnsShape(Map(f, e[s])); }
  }

  lemma UncheckedNamed(b: Block, w: Wires, s: string)
    requires Wired(b, w) && s in Unchecked(w)
    ensures s != ""
  {}
}
