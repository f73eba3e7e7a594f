/** What the search for a block guarantees about the block it returns. */
module PairSearch {
  import opened Wrappers
  import opened Tensors
  import opened OnnxGraph
  import opened AffineBlocks
  import opened AffineLowering
  import opened Lookups
  import opened AffineRegions
  import opened GraphAgreement
  import opened PairLowering
  import opened PairMeaning
  import opened PairDeleting
  import opened PairTheorem
  import opened PairKeeping

  // ---------------------------------------------------------------- looking up

  lemma {:induction false} ConsumerReads(nodes: seq<Node>, x: string, n: Node)
    requires n in Consumers(nodes, x)
    ensures n in nodes && Reads(n, x)
  {
    var m := |nodes| - 1;
    var last := nodes[m];
    if n in Consumers(nodes[..m], x) {
      ConsumerReads(nodes[..m], x, n);
    } else {
      assert n == last;
      if x !in last.inputs { UsesNothing(last.inputs, x); }
    }
  }

  lemma OneConsumer(nodes: seq<Node>, x: string, n: Node)
    requires Consumers(nodes, x) == [n]
    ensures n in nodes && Reads(n, x) && ReadOnlyBy(nodes, x, {n})
  {
    ConsumerReads(nodes, x, n);
    forall k | 0 <= k < |nodes| && Reads(nodes[k], x) ensures nodes[k] in {n} { ReaderIsConsumer(nodes, k, x); }
  }

  lemma SomeConsumers(nodes: seq<Node>, x: string, readers: set<Node>)
    requires (set n | n in Consumers(nodes, x)) == readers
    ensures ReadOnlyBy(nodes, x, readers)
  {
    forall k | 0 <= k < |nodes| && Reads(nodes[k], x) ensures nodes[k] in readers { ReaderIsConsumer(nodes, k, x); }
  }

  lemma Produced(nodes: seq<Node>, x: string)
    requires Producer(nodes, x).Some?
    ensures Producer(nodes, x).value in nodes && Produces(Producer(nodes, x).value, x)
  {
    ProducerFinds(nodes, x);
  }

  lemma {:induction false} UsesMore(inputs: seq<string>, i: nat, j: nat, x: string)
    requires i < j < |inputs| && inputs[i] == x && inputs[j] == x
    ensures Uses(inputs, x) >= 2
  {
    if i == 0 {
      assert inputs[1..][j - 1] == x;
      UsesPositive(inputs[1..], x);
    } else {
      UsesMore(inputs[1..], i - 1, j - 1, x);
    }
  }

  lemma {:induction false} ConsumersAtLeast(nodes: seq<Node>, k: nat, x: string)
    requires k < |nodes|
    ensures |Consumers(nodes, x)| >= Uses(nodes[k].inputs, x)
  {
    if k < |nodes| - 1 { ConsumersAtLeast(nodes[..|nodes| - 1], k, x); }
  }

  /** A constant with one use is that use: no other node reads it, and its reader reads it once. */
  lemma OneUse(nodes: seq<Node>, x: string, n: Node, i: nat, j: nat)
    requires |Consumers(nodes, x)| == 1 && n in nodes && i < |n.inputs| && n.inputs[i] == x && j < |n.inputs| && j != i
    ensures ReadOnlyBy(nodes, x, {n}) && n.inputs[j] != x
  {
    var k :| 0 <= k < |nodes| && nodes[k] == n;
    ReaderIsConsumer(nodes, k, x);
    var c := Consumers(nodes, x);
    assert c == [c[0]] && c[0] == n;
    OneConsumer(nodes, x, n);
    if n.inputs[j] == x {
      if i < j { UsesMore(n.inputs, i, j, x); } else { UsesMore(n.inputs, j, i, x); }
      ConsumersAtLeast(nodes, k, x);
    }
  }

  // ---------------------------------------------------------------- what checked graphs have

  predicate TwoOutputs(n: Node) {
    n.op.Split? ==> n.op.parts == |n.outputs| && forall i | 0 <= i < |n.outputs| :: n.outputs[i] != ""
  }

  /** Operators have the outputs the standard gives them, and every node agrees with the values of the run. */
  ghost predicate Regular(be: Backend, nodes: seq<Node>, given: set<string>, e: Env) {
    && Standard(nodes) && (forall k | 0 <= k < |nodes| :: TwoOutputs(nodes[k]) && DistinctOutputs(nodes[k]))
    && SingleAssignment(nodes, given) && "" !in given
    && (forall k | 0 <= k < |nodes| :: Agrees(be, e, nodes[k]))
  }

  lemma RegularNode(be: Backend, nodes: seq<Node>, given: set<string>, e: Env, n: Node)
    requires Regular(be, nodes, given, e) && n in nodes
    ensures OneOutput(n) && TwoOutputs(n) && Agrees(be, e, n)
  {}

  lemma IsTurn(be: Backend, nodes: seq<Node>, given: set<string>, e: Env, n: Node)
    requires Regular(be, nodes, given, e) && n in nodes && n.op == Transpose(NTC_PERM)
    ensures |n.inputs| == 1 && n.inputs[0] != "" && |n.outputs| == 1 && Turn(n, n.inputs[0], n.outputs[0])
  {
    hide Agrees, Regular;
    RegularNode(be, nodes, given, e, n);
    TransposeMeans(be, e, n);
    assert n.inputs == [n.inputs[0]] && n.outputs == [n.outputs[0]];
  }

  lemma IsUnary(be: Backend, nodes: seq<Node>, given: set<string>, e: Env, n: Node)
    requires Regular(be, nodes, given, e) && n in nodes && n.op.Unary?
    ensures |n.inputs| == 1 && |n.outputs| == 1 && n.inputs == [n.inputs[0]] && Out(n, n.outputs[0])
  {
    hide Agrees, Regular;
    RegularNode(be, nodes, given, e, n);
    UnaryMeans(be, e, n);
  }

  lemma IsBinary(be: Backend, nodes: seq<Node>, given: set<string>, e: Env, n: Node, x: string, y: string)
    requires Regular(be, nodes, given, e) && n in nodes && n.op.Binary? && x in n.inputs && y in n.inputs && x != y
    ensures TwoInputs(n, x, y) && |n.outputs| == 1 && Out(n, n.outputs[0])
  {
    hide Agrees, Regular;
    RegularNode(be, nodes, given, e, n);
    BinaryMeans(be, e, n);
  }

  lemma IsPointConv(be: Backend, nodes: seq<Node>, given: set<string>, e: Env, arrays: Env, n: Node)
    requires Regular(be, nodes, given, e) && n in nodes && UnitConv(n) && WithConstants(arrays, n) && "" !in arrays
    ensures |n.outputs| == 1 && PointConv(n, n.inputs[0], n.outputs[0])
  {
    hide Agrees, Regular;
    RegularNode(be, nodes, given, e, n);
    assert n.outputs == [n.outputs[0]];
  }

  // ---------------------------------------------------------------- the block that was found

  /** What the search does not look at. */
  ghost predicate Undisturbed(nodes: seq<Node>, b: Block)
    requires Shaped(b)
  {
    && UnitConv(b.conv1) && UnitConv(b.conv2) && b.conv1 != b.conv2 && b.before != b.after
    && (b.middle.Some? ==>
          && b.split.inputs != [] && b.split.inputs[0] == b.conv1.outputs[0]
          && b.before != b.middle.value && b.middle.value != b.after
          && b.sigmoid.outputs != [] && b.gate.outputs != [] && b.act.outputs != []
          && ReadOnlyBy(nodes, b.split.outputs[0], {b.glu}) && ReadOnlyBy(nodes, b.split.outputs[1], {b.sigmoid})
          && ReadOnlyBy(nodes, b.sigmoid.outputs[0], {b.glu}) && ReadOnlyBy(nodes, b.gate.outputs[0], {b.act})
          && ReadOnlyBy(nodes, b.act.outputs[0], {b.conv2})
          && b.middle.value.inputs[0] != b.glu.outputs[0])
  }

  ghost predicate Found(be: Backend, m: Model, given: set<string>, conv1: Node, b: Block, e: Env) {
    && Regular(be, m.nodes, given, e) && conv1 in m.nodes && Arrays(m.inits).Keys <= given
    && FindBlock(m.nodes, Arrays(m.inits), conv1) == Some(b)
    && LowerPair(m, conv1).Ok? && LowerPair(m, conv1).value.Some?
    && Shaped(b) && Undisturbed(m.nodes, b)
  }

  /** The ends of the block, in either variant. */
  lemma EndsFound(be: Backend, m: Model, given: set<string>, conv1: Node, b: Block, e: Env)
    requires Found(be, m, given, conv1, b, e)
    ensures b.conv1 == conv1 && b.conv2 in m.nodes && b.before in m.nodes && b.after in m.nodes
    ensures |b.before.inputs| == 1 && |b.conv1.outputs| == 1 && |b.conv2.outputs| == 1 && |b.after.outputs| == 1
    ensures Turn(b.before, b.before.inputs[0], b.conv1.inputs[0]) && b.before.inputs[0] != ""
    ensures PointConv(b.conv1, b.conv1.inputs[0], b.conv1.outputs[0])
    ensures PointConv(b.conv2, b.conv2.inputs[0], b.conv2.outputs[0])
    ensures Turn(b.after, b.conv2.outputs[0], b.after.outputs[0])
    ensures ReadOnlyBy(m.nodes, b.conv1.inputs[0], {b.conv1}) && ReadOnlyBy(m.nodes, b.conv2.outputs[0], {b.after})
  {
    hide Regular, FindGlu, FindActivation, LowerPair, Consumers, Undisturbed, UnitConv, ReadOnlyBy, Arrays, Producer, First;
    assert UnitConv(b.conv1) && UnitConv(b.conv2) by { UndisturbedConvs(m.nodes, b); }
    assert "" !in Arrays(m.inits) by { NoEmptyGiven(be, m.nodes, given, e); }
    IsPointConv(be, m.nodes, given, e, Arrays(m.inits), conv1);
    IsPointConv(be, m.nodes, given, e, Arrays(m.inits), b.conv2);
    Produced(m.nodes, conv1.inputs[0]);
    IsTurn(be, m.nodes, given, e, b.before);
    OneConsumer(m.nodes, b.before.outputs[0], conv1);
    assert b.before.outputs[0] == conv1.inputs[0];
    var readers := Consumers(m.nodes, b.conv2.outputs[0]);
    assert readers == [b.after];
    OneConsumer(m.nodes, b.conv2.outputs[0], b.after);
    IsTurn(be, m.nodes, given, e, b.after);
  }

  lemma UndisturbedConvs(nodes: seq<Node>, b: Block)
    requires Shaped(b) && Undisturbed(nodes, b)
    ensures UnitConv(b.conv1) && UnitConv(b.conv2)
  {}

  lemma NoEmptyGiven(be: Backend, nodes: seq<Node>, given: set<string>, e: Env)
    requires Regular(be, nodes, given, e)
    ensures "" !in given
  {}

  lemma FoundParts(be: Backend, m: Model, given: set<string>, conv1: Node, b: Block, e: Env)
    requires Found(be, m, given, conv1, b, e)
    ensures b.conv1 == conv1 && FindGlu(m.nodes, conv1) == Some((b.split, b.sigmoid, b.glu))
    ensures FindActivation(m.nodes, b.conv2) == Some((b.act, b.gate))
    ensures b.middle == (if Producer(m.nodes, b.gate.inputs[0]).Some? && Producer(m.nodes, b.gate.inputs[0]).value.op.Transpose?
                         then Producer(m.nodes, b.gate.inputs[0]) else None)
    ensures |b.conv1.inputs| <= 3 && |b.conv2.inputs| <= 3
  {
    hide Regular, FindGlu, FindActivation, LowerPair, Consumers, Undisturbed, ReadOnlyBy, Arrays, Producer, First;
    var glu, activation := FindGlu(m.nodes, conv1).value, FindActivation(m.nodes, b.conv2).value;
    assert glu == (glu.0, glu.1, glu.2) && activation == (activation.0, activation.1);
  }

  lemma GluFound(be: Backend, m: Model, given: set<string>, conv1: Node, b: Block, e: Env)
    requires Found(be, m, given, conv1, b, e) && b.middle.Some?
    ensures {b.split, b.sigmoid, b.glu} <= (set n | n in m.nodes)
    ensures b.split.op == Split(1, 2) && |b.split.outputs| == 2 && b.split.outputs[0] != "" && b.split.outputs[1] != ""
    ensures |b.sigmoid.outputs| == 1 && |b.glu.outputs| == 1
    ensures b.sigmoid.op == Unary(Sigmoid) && b.sigmoid.inputs == [b.split.outputs[1]] && Out(b.sigmoid, b.sigmoid.outputs[0])
    ensures b.glu.op == Binary(Mul) && TwoInputs(b.glu, b.split.outputs[0], b.sigmoid.outputs[0]) && Out(b.glu, b.glu.outputs[0])
    ensures ReadOnlyBy(m.nodes, b.conv1.outputs[0], {b.split})
  {
    hide Regular, FindActivation, LowerPair, Consumers, Undisturbed, ReadOnlyBy, Arrays, Producer, FindBlock, SingleAssignment;
    FoundParts(be, m, given, conv1, b, e);
    var nodes, c1 := m.nodes, conv1.outputs[0];
    assert Consumers(nodes, c1) == [b.split];
    OneConsumer(nodes, c1, b.split);
    RegularNode(be, nodes, given, e, b.split);
    ConsumerReads(nodes, b.split.outputs[1], b.sigmoid);
    IsUnary(be, nodes, given, e, b.sigmoid);
    ConsumerReads(nodes, b.split.outputs[0], b.glu);
    SplitIsNotSigmoid(be, nodes, given, e, b.split, b.sigmoid);
    IsBinary(be, nodes, given, e, b.glu, b.split.outputs[0], b.sigmoid.outputs[0]);
  }

  lemma SplitIsNotSigmoid(be: Backend, nodes: seq<Node>, given: set<string>, e: Env, split: Node, sigmoid: Node)
    requires Regular(be, nodes, given, e) && split in nodes && sigmoid in nodes && split.op.Split? && sigmoid.op.Unary?
    requires |split.outputs| == 2 && split.outputs[0] != "" && |sigmoid.outputs| == 1
    ensures split.outputs[0] != sigmoid.outputs[0]
  {
    hide Agrees;
    assert sigmoid.outputs[0] in sigmoid.outputs;
    OnlyMaker(nodes, given, split, split.outputs[0]);
  }

  lemma {:induction false} SigmoidFeeds(nodes: seq<Node>, inputs: seq<string>)
    requires SigmoidInput(nodes, inputs).Some?
    ensures var p := SigmoidInput(nodes, inputs).value; p in nodes && exists x :: x in inputs && Produces(p, x)
  {
    var p := Producer(nodes, inputs[0]);
    if p.Some? && p.value.op == Unary(Sigmoid) {
      Produced(nodes, inputs[0]);
    } else {
      SigmoidFeeds(nodes, inputs[1..]);
      var x :| x in inputs[1..] && Produces(SigmoidInput(nodes, inputs[1..]).value, x);
      assert x in inputs;
    }
  }

  lemma ActivationFound(be: Backend, m: Model, given: set<string>, conv1: Node, b: Block, e: Env)
    requires Found(be, m, given, conv1, b, e) && b.middle.Some?
    ensures {b.act, b.gate, b.middle.value} <= (set n | n in m.nodes)
    ensures |b.gate.inputs| == 1 && |b.gate.outputs| == 1 && |b.act.outputs| == 1
    ensures Turn(b.middle.value, b.middle.value.inputs[0], b.gate.inputs[0]) && b.middle.value.inputs[0] != ""
    ensures b.gate.op == Unary(Sigmoid) && b.gate.inputs == [b.gate.inputs[0]] && Out(b.gate, b.gate.outputs[0])
    ensures b.act.op == Binary(Mul) && TwoInputs(b.act, b.gate.inputs[0], b.gate.outputs[0]) && Out(b.act, b.conv2.inputs[0])
    ensures ReadOnlyBy(m.nodes, b.gate.inputs[0], {b.act, b.gate})
  {
    hide Regular, FindGlu, Consumers, Undisturbed, ReadOnlyBy, Arrays, Producer, FindBlock, SingleAssignment, SigmoidInput;
    FoundParts(be, m, given, conv1, b, e);
    var nodes, base := m.nodes, b.gate.inputs[0];
    assert TransposesNtc(b.middle.value) && OnlyActivation(nodes, b);
    Produced(nodes, base);
    IsTurn(be, nodes, given, e, b.middle.value);
    Produced(nodes, b.conv2.inputs[0]);
    SigmoidFeeds(nodes, b.act.inputs);
    IsUnary(be, nodes, given, e, b.gate);
    SomeConsumers(nodes, base, {b.act, b.gate});
    TurnIsNotSigmoid(be, nodes, given, e, b.middle.value, b.gate, base);
    IsBinary(be, nodes, given, e, b.act, base, b.gate.outputs[0]);
  }

  lemma TurnIsNotSigmoid(be: Backend, nodes: seq<Node>, given: set<string>, e: Env, turn: Node, gate: Node, base: string)
    requires Regular(be, nodes, given, e) && turn in nodes && gate in nodes && turn.op.Transpose? && gate.op.Unary?
    requires Produces(turn, base) && |gate.outputs| == 1
    ensures base != gate.outputs[0]
  {
    hide Agrees;
    OnlyMaker(nodes, given, turn, base);
  }

  lemma LowerFacts(be: Backend, m: Model, given: set<string>, conv1: Node, b: Block, e: Env)
    requires Found(be, m, given, conv1, b, e)
    ensures CanLower(m, b) && WithConstants(Arrays(m.inits), b.conv1) && WithConstants(Arrays(m.inits), b.conv2)
    ensures |Consumers(m.nodes, Weight1(b))| == 1 && |Consumers(m.nodes, Weight2(b))| == 1
    ensures LowerPair(m, conv1).value == Some(Lowered(m, b))
  {
    hide Regular, FindGlu, FindActivation, Consumers, Producer, First, PointwiseKernel, ReadOnlyBy, Undisturbed, Lowered, Arrays;
  }

  lemma WeightsFound(be: Backend, m: Model, given: set<string>, conv1: Node, b: Block, e: Env)
    requires Found(be, m, given, conv1, b, e)
    ensures CanLower(m, b) && Weight1(b) in given && Weight2(b) in given
    ensures ReadOnlyBy(m.nodes, Weight1(b), {b.conv1}) && ReadOnlyBy(m.nodes, Weight2(b), {b.conv2})
    ensures |b.conv1.inputs| == 3 ==> b.conv1.inputs[2] in given - {Weight1(b), Weight2(b)}
    ensures |b.conv2.inputs| == 3 ==> b.conv2.inputs[2] in given - {Weight1(b), Weight2(b)}
    ensures b.conv1.inputs[0] !in {Weight1(b), Weight2(b)} && b.conv2.inputs[0] !in {Weight1(b), Weight2(b)}
  {
    hide Regular, FindBlock, LowerPair, CanLower, Consumers, ReadOnlyBy, Arrays, UnitConv;
    LowerFacts(be, m, given, conv1, b, e);
    EndsFound(be, m, given, conv1, b, e);
    assert b.conv1 != b.conv2;
    WeightUse(m.nodes, b.conv1, b.conv2);
    WeightUse(m.nodes, b.conv2, b.conv1);
  }

  /** The kernel of one convolution is none of the other inputs of the two. */
  lemma WeightUse(nodes: seq<Node>, p: Node, q: Node)
    requires p in nodes && q in nodes && p != q && 2 <= |p.inputs| <= 3 && 2 <= |q.inputs| <= 3
    requires |Consumers(nodes, p.inputs[1])| == 1
    ensures ReadOnlyBy(nodes, p.inputs[1], {p}) && p.inputs[0] != p.inputs[1] && (|p.inputs| == 3 ==> p.inputs[2] != p.inputs[1])
    ensures forall i | 0 <= i < |q.inputs| :: q.inputs[i] != p.inputs[1]
  {
    hide ReadOnlyBy, Consumers;
    OneUse(nodes, p.inputs[1], p, 1, 0);
    if |p.inputs| == 3 { OneUse(nodes, p.inputs[1], p, 1, 2); }
    NotRead(nodes, p.inputs[1], p, q);
  }

  lemma NotRead(nodes: seq<Node>, x: string, reader: Node, n: Node)
    requires ReadOnlyBy(nodes, x, {reader}) && n in nodes && n != reader
    ensures !Reads(n, x)
  {
    if Reads(n, x) { ReaderIs(nodes, x, {reader}, n); }
  }

  // ---------------------------------------------------------------- the whole pass

  /** Names the rewrite makes up are free. */
  ghost predicate Free(e: Env, b: Block)
    requires Shaped(b)
  {
    if b.middle.Some? then
      |b.sigmoid.outputs| > 0 && |b.gate.outputs| > 0 && |b.act.outputs| > 0 && FreshNames(e, b, WiresOf(b))
    else Joined(b, EndsOf(b)) ==> FreshSix(e, b, EndsOf(b))
  }

  function EndsOf(b: Block): Ends
    requires Shaped(b)
  {
    Ends(b.before.inputs[0], b.before.outputs[0], b.conv1.outputs[0], b.conv2.inputs[0], b.conv2.outputs[0], b.after.outputs[0])
  }

  /** The tensors whose value or existence the rewrite changes. */
  function Touched(b: Block): set<string>
    requires Shaped(b)
  {
    {Weight1(b), Weight2(b), b.before.outputs[0], b.conv2.outputs[0]}
    + (if b.middle.None? || b.sigmoid.outputs == [] || b.gate.outputs == [] || b.act.outputs == [] then {}
       else Swapped(WiresOf(b)) + Gone(WiresOf(b)))
  }

  lemma FoundIsClean(be: Backend, m: Model, given: set<string>, conv1: Node, b: Block, e: Env)
    requires Found(be, m, given, conv1, b, e) && b.middle.Some?
    ensures b.sigmoid.outputs != [] && b.gate.outputs != [] && b.act.outputs != [] && Clean(m.nodes, given, b, WiresOf(b))
  {
    hide Agrees, Arrays, FindBlock, LowerPair, UnitConv, Standard, ReadOnlyBy, PointwiseKernel, DistinctOutputs, SingleAssignment;
    EndsFound(be, m, given, conv1, b, e);
    GluFound(be, m, given, conv1, b, e);
    ActivationFound(be, m, given, conv1, b, e);
    WeightsFound(be, m, given, conv1, b, e);
  }

  lemma FoundIsTidy(be: Backend, m: Model, given: set<string>, conv1: Node, b: Block, e: Env)
    requires Found(be, m, given, conv1, b, e) && b.middle.None?
    ensures Tidy(m.nodes, given, b, EndsOf(b))
    ensures var w := EndsOf(b); w.a !in {w.t, w.c2, Weight1(b), Weight2(b)}
  {
    hide Agrees, Arrays, FindBlock, LowerPair, UnitConv, Standard, ReadOnlyBy, PointwiseKernel, DistinctOutputs, SingleAssignment;
    EndsFound(be, m, given, conv1, b, e);
    WeightsFound(be, m, given, conv1, b, e);
    ActIsApart(be, m, given, conv1, b, e);
    RegularIsSingle(be, m.nodes, given, e);
  }

  /** What conv2 reads is produced by the activation, so it is neither of the tensors that go. */
  lemma ActIsApart(be: Backend, m: Model, given: set<string>, conv1: Node, b: Block, e: Env)
    requires Found(be, m, given, conv1, b, e)
    ensures b.conv2.inputs[0] != b.before.outputs[0] && b.conv2.inputs[0] != b.conv2.outputs[0] && b.conv2.inputs[0] != ""
  {
    hide Agrees, Arrays, FindGlu, LowerPair, Standard, Undisturbed, Regular;
    EndsFound(be, m, given, conv1, b, e);
    FoundParts(be, m, given, conv1, b, e);
    Produced(m.nodes, b.conv2.inputs[0]);
    assert SingleAssignment(m.nodes, given) by { RegularIsSingle(be, m.nodes, given, e); }
    OnlyMaker(m.nodes, given, b.act, b.conv2.inputs[0]);
    assert b.before.outputs[0] in b.before.outputs && b.conv2.outputs[0] in b.conv2.outputs;
  }

  lemma RegularIsSingle(be: Backend, nodes: seq<Node>, given: set<string>, e: Env)
    requires Regular(be, nodes, given, e)
    ensures SingleAssignment(nodes, given)
  {}

  /** A graph in proper form whose run is `e`, and names that are free in it. */
  ghost predicate Running(be: Backend, m: Model, inputs: Env, e: Env) {
    && inputs.Keys !! Arrays(m.inits).Keys && Eval(be, inputs + Arrays(m.inits), m.nodes) == Some(e)
    && Standard(m.nodes) && (forall k | 0 <= k < |m.nodes| :: TwoOutputs(m.nodes[k]) && DistinctOutputs(m.nodes[k]))
    && SingleAssignment(m.nodes, inputs.Keys + Arrays(m.inits).Keys) && "" !in inputs.Keys + Arrays(m.inits).Keys
  }

  /** The loop lowers a block that nothing else looks into, and makes up only free names. */
  ghost predicate Safe(m: Model, conv1: Node, e: Env, outputs: set<string>) {
    LowerPair(m, conv1).Ok? && LowerPair(m, conv1).value.Some? ==>
      var found := FindBlock(m.nodes, Arrays(m.inits), conv1);
      && found.Some? && Shaped(found.value) && Undisturbed(m.nodes, found.value)
      && Free(e, found.value) && Touched(found.value) !! outputs
  }

  lemma RunningIsRegular(be: Backend, m: Model, inputs: Env, e: Env)
    requires Running(be, m, inputs, e)
    ensures Regular(be, m.nodes, inputs.Keys + Arrays(m.inits).Keys, e)
  {
    hide Agrees, SingleAssignment, DistinctOutputs, Run;
    var e0 := inputs + Arrays(m.inits);
    assert e0.Keys == inputs.Keys + Arrays(m.inits).Keys;
    forall k | 0 <= k < |m.nodes| ensures Agrees(be, e, m.nodes[k]) { AgreesFromEval(be, e0, m.nodes, k); }
  }

  /** What is defined: the inputs, the constants, and what the nodes produce. */
  lemma RunningDefines(be: Backend, m: Model, inputs: Env, e: Env)
    requires Running(be, m, inputs, e)
    ensures e.Keys == inputs.Keys + Arrays(m.inits).Keys + Outs(m.nodes, |m.nodes|)
  {
    hide SingleAssignment, DistinctOutputs, Run;
    EvalWrites(be, inputs + Arrays(m.inits), m.nodes);
  }

  /**
   * One turn of the loop: if the block it finds is read only where the rewrite expects it and the made-up names are
   * free, the rewritten graph evaluates, and every output that was an input or produced by a node keeps its value.
   */
  lemma PairPreserves(be: Backend, m: Model, inputs: Env, conv1: Node, e: Env, outputs: set<string>)
    requires Running(be, m, inputs, e) && conv1 in m.nodes && Safe(m, conv1, e, outputs)
    requires LowerPair(m, conv1).Ok? && LowerPair(m, conv1).value.Some?
    requires outputs <= inputs.Keys + Outs(m.nodes, |m.nodes|)
    ensures var next := LowerPair(m, conv1).value.value;
      var r := Eval(be, inputs + Arrays(next.inits), next.nodes);
      r.Some? && forall o | o in outputs :: o in r.value && o in e && r.value[o] == e[o]
  {
    hide Agrees, SingleAssignment, DistinctOutputs, Run, FindBlock, LowerPair, Undisturbed, Lowered, Standard, Eval, Arrays;
    var given := inputs.Keys + Arrays(m.inits).Keys;
    var b := FindBlock(m.nodes, Arrays(m.inits), conv1).value;
    RunningIsRegular(be, m, inputs, e);
    RunningDefines(be, m, inputs, e);
    LowerFacts(be, m, given, conv1, b, e);
    if b.middle.Some? {
      DeletingCase(be, m, inputs, conv1, b, e, outputs);
    } else {
      KeepingCase(be, m, inputs, conv1, b, e, outputs);
    }
  }

  lemma DeletingCase(be: Backend, m: Model, inputs: Env, conv1: Node, b: Block, e: Env, outputs: set<string>)
    requires Running(be, m, inputs, e) && Found(be, m, inputs.Keys + Arrays(m.inits).Keys, conv1, b, e)
    requires b.middle.Some? && Free(e, b) && Touched(b) !! outputs && outputs <= inputs.Keys + Outs(m.nodes, |m.nodes|)
    requires CanLower(m, b) && outputs <= e.Keys
    ensures var next := Lowered(m, b);
      var r := Eval(be, inputs + Arrays(next.inits), next.nodes);
      r.Some? && forall o | o in outputs :: o in r.value && o in e && r.value[o] == e[o]
  {
    hide Agrees, SingleAssignment, DistinctOutputs, Run, FindBlock, LowerPair, Undisturbed, Lowered, Standard, Eval, Arrays,
      Clean, FreshNames, Regular, Swapped, Gone;
    FoundIsClean(be, m, inputs.Keys + Arrays(m.inits).Keys, conv1, b, e);
    WeightsFound(be, m, inputs.Keys + Arrays(m.inits).Keys, conv1, b, e);
    DeletingPreserves(be, m, inputs, b, WiresOf(b), e);
  }

  lemma KeepingCase(be: Backend, m: Model, inputs: Env, conv1: Node, b: Block, e: Env, outputs: set<string>)
    requires Running(be, m, inputs, e) && Found(be, m, inputs.Keys + Arrays(m.inits).Keys, conv1, b, e)
    requires b.middle.None? && Free(e, b) && Touched(b) !! outputs && outputs <= inputs.Keys + Outs(m.nodes, |m.nodes|)
    requires CanLower(m, b) && outputs <= e.Keys
    ensures var next := Lowered(m, b);
      var r := Eval(be, inputs + Arrays(next.inits), next.nodes);
      r.Some? && forall o | o in outputs :: o in r.value && o in e && r.value[o] == e[o]
  {
    hide Agrees, SingleAssignment, DistinctOutputs, Run, FindBlock, LowerPair, Undisturbed, Lowered, Standard, Eval, Arrays,
      FreshSix, Regular;
    FoundIsTidy(be, m, inputs.Keys + Arrays(m.inits).Keys, conv1, b, e);
    KeepingPreserves(be, m, inputs, b, EndsOf(b), e);
  }
}
