/** Nothing is left out: a block that is wired as the search wants it is found and lowered, and after a pass that succeeds none of
    the convolutions of such blocks is left. */
module PairComplete {
  import opened Wrappers
  import opened Tensors
  import opened OnnxGraph
  import opened AffineBlocks
  import opened AffineLowering
  import opened Lookups
  import opened AffineRegions
  import opened GraphAgreement
  import opened PairLowering
  import opened PairMeaning
  import opened PairDeleting
  import opened PairTheorem
  import opened PairKeeping
  import opened PairSearch
  import opened PairPasses
  import opened PairSeparate
  import A = AffineTensors

  // ---------------------------------------------------------------- lookups that are bound to succeed

  /** The node reads the tensor as its input `i`, nowhere else, and no other node does. */
  ghost predicate ReadOnce(nodes: seq<Node>, x: string, n: Node, i: nat) {
    && n in nodes && i < |n.inputs| && n.inputs[i] == x && (forall j | 0 <= j < |n.inputs| && j != i :: n.inputs[j] != x)
    && ReadOnlyBy(nodes, x, {n})
  }

  lemma ReadOnceMeans(nodes: seq<Node>, given: set<string>, x: string, n: Node, i: nat)
    requires SingleAssignment(nodes, given) && ReadOnce(nodes, x, n, i) && n.outputs != [] && n.outputs[0] != ""
    ensures Consumers(nodes, x) == [n]
  {
    SoleReader(nodes, given, x, n, i);
  }

  lemma {:induction false} FirstIs(nodes: seq<Node>, n: Node, p: Node -> bool)
    requires nodes != [] && p(n) && forall k | 0 <= k < |nodes| :: nodes[k] == n
    ensures First(nodes, p) == Some(n)
  {}

  /** Whoever looks among the readers of a tensor with one reader finds that one. */
  lemma ReaderFound(nodes: seq<Node>, x: string, n: Node, p: Node -> bool)
    requires ReadOnlyBy(nodes, x, {n}) && n in nodes && Reads(n, x) && p(n)
    ensures First(Consumers(nodes, x), p) == Some(n)
  {
    hide Consumers, First;
    var k :| 0 <= k < |nodes| && nodes[k] == n;
    ReaderIsConsumer(nodes, k, x);
    var readers := Consumers(nodes, x);
    forall j | 0 <= j < |readers| ensures readers[j] == n {
      ConsumerReads(nodes, x, readers[j]);
      ReaderIs(nodes, x, {n}, readers[j]);
    }
    FirstIs(readers, n, p);
  }

  /** No other node has its name. */
  ghost predicate Sole(nodes: seq<Node>, n: Node) { n in nodes && forall k | 0 <= k < |nodes| :: nodes[k].name == n.name ==> nodes[k] == n }

  lemma {:induction false} CalledIs(nodes: seq<Node>, n: Node)
    requires Sole(nodes, n)
    ensures First(nodes, Called(n.name)) == Some(n)
  {
    if nodes[0].name != n.name {
      assert n in nodes[1..];
      CalledIs(nodes[1..], n);
    }
  }

  /** Replacing in a name that has the text at its end and nowhere before. */
  lemma {:induction false} ReplacedAtEnd(prefix: string, from: string, to: string)
    requires from != "" && forall i | 0 <= i < |prefix| :: !(from <= (prefix + from)[i..])
    ensures ReplaceAll(prefix + from, from, to) == prefix + to
  {
    var s := prefix + from;
    if prefix == "" {
      assert s == from && s[|from|..] == "";
      assert ReplaceAll("", from, to) == "";
    } else {
      assert !(from <= s) by { assert s[0..] == s; }
      assert s[1..] == prefix[1..] + from;
      forall i | 0 <= i < |prefix[1..]| ensures !(from <= (prefix[1..] + from)[i..]) { assert (prefix[1..] + from)[i..] == s[i + 1..]; }
      ReplacedAtEnd(prefix[1..], from, to);
    }
  }

  // ---------------------------------------------------------------- a block as the pass wants it

  /** A convolution of constants. */
  predicate ConstantConv(arrays: Env, n: Node) {
    && n.op.Conv? && 2 <= |n.inputs| <= 3 && |n.outputs| == 1 && n.outputs[0] != ""
    && n.inputs[1] in arrays && (|n.inputs| == 3 ==> n.inputs[2] in arrays)
  }

  predicate OneTap(w: Tensor) { |w.shape| == 3 && w.shape[2] == 1 }

  ghost predicate Swaps(nodes: seq<Node>, n: Node) {
    n in nodes && n.op == Transpose(Some([0, 2, 1])) && |n.inputs| == 1 && |n.outputs| == 1 && n.outputs[0] != ""
  }

  /** conv1 behind a transpose, and its output split in two and gated: one half times the sigmoid of the other. */
  ghost predicate OpensBlock(nodes: seq<Node>, b: Block) {
    && Swaps(nodes, b.before) && b.conv1.inputs != [] && b.before.outputs[0] == b.conv1.inputs[0]
    && ReadOnce(nodes, b.conv1.inputs[0], b.conv1, 0)
    && b.conv1.outputs != [] && b.split.op == Split(1, 2) && |b.split.outputs| == 2 && b.split.outputs[0] != ""
    && ReadOnce(nodes, b.conv1.outputs[0], b.split, 0)
    && b.sigmoid in nodes && b.sigmoid.op == Unary(Sigmoid) && |b.sigmoid.outputs| == 1
    && b.sigmoid.inputs == [b.split.outputs[1]] && ReadOnlyBy(nodes, b.split.outputs[1], {b.sigmoid})
    && b.glu in nodes && b.glu.op == Binary(Mul) && b.glu.outputs != []
    && b.split.outputs[0] in b.glu.inputs && b.sigmoid.outputs[0] in b.glu.inputs && ReadOnlyBy(nodes, b.split.outputs[0], {b.glu})
  }

  /** conv2 behind a tensor times its own sigmoid and in front of a transpose; in front of the activation there may be one, too. */
  ghost predicate ClosesBlock(nodes: seq<Node>, b: Block) {
    && b.conv2.inputs != [] && b.conv2.outputs != []
    && b.act in nodes && b.act.op == Binary(Mul) && Produces(b.act, b.conv2.inputs[0])
    && b.gate in nodes && b.gate.op == Unary(Sigmoid) && |b.gate.inputs| == 1 && |b.gate.outputs| == 1 && b.gate.outputs[0] != ""
    && (b.act.inputs == [b.gate.inputs[0], b.gate.outputs[0]] || b.act.inputs == [b.gate.outputs[0], b.gate.inputs[0]])
    && (forall n | n in nodes && Produces(n, b.gate.inputs[0]) :: n.op != Unary(Sigmoid))
    && Swaps(nodes, b.after) && ReadOnce(nodes, b.conv2.outputs[0], b.after, 0)
    && (b.middle.Some? ==> Swaps(nodes, b.middle.value) && b.middle.value.outputs[0] == b.gate.inputs[0]
                           && ReadOnlyBy(nodes, b.gate.inputs[0], {b.act, b.gate}))
    && (b.middle.None? ==> forall n | n in nodes && Produces(n, b.gate.inputs[0]) :: !n.op.Transpose?)
  }

  /** The two convolutions, which belong together by their names, and whose kernels nobody else reads. */
  ghost predicate Twins(m: Model, b: Block) {
    var arrays := Arrays(m.inits);
    && ConstantConv(arrays, b.conv1) && ConstantConv(arrays, b.conv2)
    && Sole(m.nodes, b.conv1) && Sole(m.nodes, b.conv2) && b.conv1.name != b.conv2.name
    && b.conv2.name == ReplaceAll(b.conv1.name, "/pointwise_conv1/Conv", "/pointwise_conv2/Conv")
    && ReadOnce(m.nodes, b.conv1.inputs[1], b.conv1, 1) && ReadOnce(m.nodes, b.conv2.inputs[1], b.conv2, 1)
  }

  ghost predicate IsWired(m: Model, b: Block) { Twins(m, b) && OpensBlock(m.nodes, b) && ClosesBlock(m.nodes, b) }

  /** The name of a matrix is the name of a constant already. */
  predicate Collides(arrays: Env, b: Block)
    requires |b.conv1.inputs| >= 2 && |b.conv2.inputs| >= 2
  {
    b.conv1.inputs[1] + "__matmul_rhs" in arrays || b.conv2.inputs[1] + "__matmul_rhs" in arrays
  }

  /** A wired block that can be lowered: names are free, kernels have one tap, and, without a transpose of the activation's own,
      both convolutions have a bias. */
  ghost predicate IsBlock(m: Model, b: Block) {
    var arrays := Arrays(m.inits);
    && IsWired(m, b) && !Collides(arrays, b) && OneTap(arrays[b.conv1.inputs[1]]) && OneTap(arrays[b.conv2.inputs[1]])
    && (b.middle.None? ==> |b.conv1.inputs| == |b.conv2.inputs| == 3)
  }

  // ---------------------------------------------------------------- it is found

  lemma GluIsFound(nodes: seq<Node>, given: set<string>, b: Block)
    requires SingleAssignment(nodes, given) && OpensBlock(nodes, b)
    ensures FindGlu(nodes, b.conv1) == Some((b.split, b.sigmoid, b.glu))
  {
    hide Consumers, First, SingleAssignment, ReadOnlyBy;
    ReadOnceMeans(nodes, given, b.conv1.outputs[0], b.split, 0);
    var s0, s1 := b.split.outputs[0], b.split.outputs[1];
    ReaderFound(nodes, s1, b.sigmoid, (n: Node) => n.op == Unary(Sigmoid) && |n.outputs| == 1);
    var gated := b.sigmoid.outputs[0];
    ReaderFound(nodes, s0, b.glu, (n: Node) => n.op == Binary(Mul) && s0 in n.inputs && gated in n.inputs);
  }

  lemma ActivationIsFound(nodes: seq<Node>, given: set<string>, b: Block)
    requires SingleAssignment(nodes, given) && ClosesBlock(nodes, b)
    ensures FindActivation(nodes, b.conv2) == Some((b.act, b.gate))
  {
    hide Producer, SingleAssignment, ReadOnlyBy;
    var base, gate := b.gate.inputs[0], b.gate.outputs[0];
    ProducerIs(nodes, given, b.act, b.conv2.inputs[0]);
    ProducerIs(nodes, given, b.gate, gate);
    if Producer(nodes, base).Some? { Produced(nodes, base); }
    assert SigmoidInput(nodes, b.act.inputs) == Some(b.gate) by {
      if b.act.inputs == [base, gate] {
        assert b.act.inputs[1..] == [gate];
        assert SigmoidInput(nodes, [gate]) == Some(b.gate);
      }
    }
  }

  lemma BlockIsFound(m: Model, given: set<string>, b: Block)
    requires SingleAssignment(m.nodes, given) && IsWired(m, b)
    ensures FindBlock(m.nodes, Arrays(m.inits), b.conv1) == Some(b)
  {
    hide Consumers, Producer, First, FindGlu, FindActivation, SingleAssignment, ReadOnlyBy, ReplaceAll, Arrays;
    var nodes := m.nodes;
    CalledIs(nodes, b.conv2);
    ProducerIs(nodes, given, b.before, b.conv1.inputs[0]);
    ReadOnceMeans(nodes, given, b.conv1.inputs[0], b.conv1, 0);
    ReadOnceMeans(nodes, given, b.conv2.outputs[0], b.after, 0);
    GluIsFound(nodes, given, b);
    ActivationIsFound(nodes, given, b);
    var base := b.gate.inputs[0];
    if b.middle.Some? { ProducerIs(nodes, given, b.middle.value, base); }
    if Producer(nodes, base).Some? { Produced(nodes, base); }
  }

  lemma ActivationAlone(nodes: seq<Node>, b: Block)
    requires ClosesBlock(nodes, b) && b.middle.Some? && Shaped(b)
    ensures OnlyActivation(nodes, b)
  {
    hide Consumers;
    var x := b.gate.inputs[0];
    var i :| 0 <= i < |nodes| && nodes[i] == b.act;
    var j :| 0 <= j < |nodes| && nodes[j] == b.gate;
    ReaderIsConsumer(nodes, i, x);
    ReaderIsConsumer(nodes, j, x);
    forall n | n in Consumers(nodes, x) ensures n in {b.act, b.gate} {
      ConsumerReads(nodes, x, n);
      ReaderIs(nodes, x, {b.act, b.gate}, n);
    }
  }

  /** What the turn for a wired block comes to: it fails for a name that is taken, for a kernel of more taps or for a missing
      bias, and lowers the block otherwise. */
  lemma TurnComesTo(m: Model, given: set<string>, b: Block)
    requires SingleAssignment(m.nodes, given) && IsWired(m, b)
    ensures FindBlock(m.nodes, Arrays(m.inits), b.conv1) == Some(b) && Shaped(b) && (IsBlock(m, b) ==> CanLower(m, b))
    ensures var arrays := Arrays(m.inits);
      LowerPair(m, b.conv1) ==
        if Collides(arrays, b) then Err(NameCollision)
        else if !OneTap(arrays[b.conv1.inputs[1]]) || !OneTap(arrays[b.conv2.inputs[1]]) then Err(NotPointwise)
        else if b.middle.None? && (|b.conv1.inputs| == 2 || |b.conv2.inputs| == 2) then Err(MissingBias)
        else Ok(Some(Lowered(m, b)))
  {
    hide Consumers, SingleAssignment, ReadOnlyBy, ReplaceAll, Arrays, FindBlock, OnlyActivation, Lowered;
    BlockIsFound(m, given, b);
    if b.middle.Some? { ActivationAlone(m.nodes, b); }
    ReadOnceMeans(m.nodes, given, b.conv1.inputs[1], b.conv1, 1);
    ReadOnceMeans(m.nodes, given, b.conv2.inputs[1], b.conv2, 1);
  }

  /** Every block that can be lowered is lowered at its turn. */
  lemma BlockIsLowered(m: Model, given: set<string>, b: Block)
    requires SingleAssignment(m.nodes, given) && IsBlock(m, b)
    ensures FindBlock(m.nodes, Arrays(m.inits), b.conv1) == Some(b) && CanLower(m, b) && Shaped(b)
    ensures LowerPair(m, b.conv1) == Ok(Some(Lowered(m, b)))
  {
    hide SingleAssignment, IsWired, Arrays, FindBlock, Lowered, LowerPair;
    TurnComesTo(m, given, b);
    assert |b.conv1.inputs| >= 2;
  }

  // ---------------------------------------------------------------- and it is gone

  /** After the rewrite the name of a convolution that was lowered is free. */
  lemma {:induction false} NameGone(b: Block, nodes: seq<Node>, k: nat, conv: Node)
    requires Ready1(b) && k <= |nodes| && Sole(nodes, conv) && EndsInV(conv.name) && conv in {b.conv1, b.conv2}
    requires b.before != conv && b.after != conv && (b.middle.Some? ==> b.glu != conv && b.middle.value != conv)
    requires b.conv2.name != b.conv1.name
    ensures NoneCalled(Rebuilt(b, nodes, k), conv.name)
  {
    hide Piece1;
    if k > 0 {
      NameGone(b, nodes, k - 1, conv);
      var n := nodes[k - 1];
      if n.name == conv.name { ConvPiece(b, conv); } else { PieceNames(b, n, conv.name); }
    }
  }

  lemma ConvPiece(b: Block, conv: Node)
    requires Ready1(b) && EndsInV(conv.name) && conv in {b.conv1, b.conv2} && b.conv2.name != b.conv1.name
    requires b.before != conv && b.after != conv && (b.middle.Some? ==> b.glu != conv && b.middle.value != conv)
    ensures NoneCalled(Piece1(b, conv), conv.name)
  {
    hide LinearPart;
    var x := conv.name;
    MadeUpName(b.conv2.name, "/MatMul", x);
    MadeUpName(b.conv2.name, "/BiasAdd", x);
    MadeUpName(b.conv2.name, "/TransposeForMatMul", x);
    if conv == b.conv2 && b.middle.Some? {
      LinearNames(b.conv2, Edited(b, b.conv2).inputs[0], Rhs(Weight2(b)), b.after.outputs, b.after.outputs[0] + "__pre_bias", x);
    }
  }

  /** A free name stays free. */
  lemma {:induction false} NameStaysFree(b: Block, nodes: seq<Node>, k: nat, x: string)
    requires Ready1(b) && k <= |nodes| && NoneCalled(nodes, x) && EndsInV(x)
    ensures NoneCalled(Rebuilt(b, nodes, k), x)
  {
    hide Piece1;
    if k > 0 {
      NameStaysFree(b, nodes, k - 1, x);
      PieceNames(b, nodes[k - 1], x);
    }
  }

  /** The other nodes keep being the only ones of their names. */
  lemma {:induction false} SoleStays(b: Block, nodes: seq<Node>, k: nat, c: Node)
    requires Ready1(b) && k <= |nodes| && Sole(nodes, c) && EndsInV(c.name) && !Changes(b, c)
    ensures c in nodes[..k] ==> c in Rebuilt(b, nodes, k)
    ensures forall n | n in Rebuilt(b, nodes, k) && n.name == c.name :: n == c
  {
    hide Piece1;
    if k > 0 {
      SoleStays(b, nodes, k - 1, c);
      var n := nodes[k - 1];
      assert nodes[..k] == nodes[..k - 1] + [n];
      if n.name == c.name {
        assert Piece1(b, c) == [c];
      } else {
        PieceNames(b, n, c.name);
        assert forall p | p in Piece1(b, n) :: p.name != c.name;
      }
    }
  }

  /** What the pass has done for a block: its convolutions are gone, its matrices are there. */
  ghost predicate IsLowered(m: Model, b: Block)
    requires Shaped(b)
  {
    NoneCalled(m.nodes, b.conv1.name) && NoneCalled(m.nodes, b.conv2.name) && {Rhs(Weight1(b)), Rhs(Weight2(b))} <= Arrays(m.inits).Keys
  }

  /** The nodes of a block are what they are, whatever the model. */
  predicate Apart(b: Block) {
    && Shaped(b) && b.conv1.op.Conv? && b.conv2.op.Conv? && b.before.op.Transpose? && b.after.op.Transpose? && !b.glu.op.Conv?
    && (b.middle.Some? ==> b.middle.value.op.Transpose?)
    && b.conv1.name != b.conv2.name && EndsInV(b.conv1.name) && EndsInV(b.conv2.name)
  }

  /** The block will be lowered at its turn, and its two convolutions are known by their names. */
  ghost predicate Ripe(m: Model, b: Block) {
    && Apart(b) && Sole(m.nodes, b.conv1) && Sole(m.nodes, b.conv2) && BlockOf(m, b.conv1) == Some(b)
    && Second(m.nodes, b.conv1) == Some(b.conv2)
  }

  lemma TurnLowers(m: Model, b: Block)
    requires Ripe(m, b) && CanLower(m, b)
    ensures IsLowered(Lowered(m, b), b)
  {
    hide Arrays, NewInits, Rhs, BlockOf, Second;
    LowerReady(m, b);
    NameGone(b, m.nodes, |m.nodes|, b.conv1);
    NameGone(b, m.nodes, |m.nodes|, b.conv2);
    NewArrays(m.inits, b, Arrays(m.inits)[Weight1(b)], Arrays(m.inits)[Weight2(b)]);
  }

  lemma LoweredStays(m: Model, b: Block, d: Block)
    requires CanLower(m, d) && Shaped(b) && IsLowered(m, b) && EndsInV(b.conv1.name) && EndsInV(b.conv2.name)
    requires {Rhs(Weight1(b)), Rhs(Weight2(b))} !! {Weight1(d), Weight2(d)}
    ensures IsLowered(Lowered(m, d), b)
  {
    hide Arrays, NewInits, Rhs, Rebuilt, NoneCalled;
    LowerReady(m, d);
    NameStaysFree(d, m.nodes, |m.nodes|, b.conv1.name);
    NameStaysFree(d, m.nodes, |m.nodes|, b.conv2.name);
    NewArrays(m.inits, d, Arrays(m.inits)[Weight1(d)], Arrays(m.inits)[Weight2(d)]);
  }

  // ---------------------------------------------------------------- turn by turn

  lemma SoleNext(m: Model, b: Block, c: Node)
    requires CanLower(m, b) && Ready1(b) && Sole(m.nodes, c) && EndsInV(c.name) && !Changes(b, c)
    ensures Sole(Lowered(m, b).nodes, c)
  {
    hide Changes, CanLower;
    LowerReady(m, b);
    SoleStays(b, m.nodes, |m.nodes|, c);
    assert m.nodes[..|m.nodes|] == m.nodes;
  }

  /** The turn for a clear pair finds the same block and comes to the same. */
  lemma BlockOfStays(be: Backend, m: Model, inputs: Env, b: Block, e: Env, c: Node)
    requires Lowers(be, m, inputs, b, e) && CanLower(m, b) && Ready1(b) && c in m.nodes && EndsInV(c.name) && KeepsClear(m, c, b)
    ensures BlockOf(Lowered(m, b), c) == BlockOf(m, c)
  {
    hide Lowers, FindBlock, Lowered, CanLower, Arrays, LowerPair, KeepsClear, Ready1;
    SearchStays(be, m, inputs, b, e, c);
    TurnStays(be, m, inputs, b, e, c);
  }

  lemma RipeStays(be: Backend, m: Model, inputs: Env, b: Block, e: Env, d: Block)
    requires Lowers(be, m, inputs, b, e) && CanLower(m, b) && Ready1(b) && Ripe(m, d) && KeepsClear(m, d.conv1, b)
    ensures Ripe(Lowered(m, b), d)
  {
    hide Lowers, Lowered, CanLower, BlockOf, Ready1, Second, Changes, Core, Affected, Looks;
    BlockOfStays(be, m, inputs, b, e, d.conv1);
    SecondStays(m, b, d.conv1);
    LooksCore(m, d.conv1);
    Unchanged(m.nodes, b, d.conv1);
    SoleNext(m, b, d.conv1);
    SoleNext(m, b, d.conv2);
  }

  lemma LooksCore(m: Model, c: Node)
    ensures Core(c) <= Looks(m.nodes, c)
  {}

  /** The pairs of these names use none of the matrices made for the block as a kernel. */
  ghost predicate LeavesAlone(m: Model, names: seq<string>, b: Block)
    requires Shaped(b)
  {
    forall i | 0 <= i < |names| && Named(m, names[i]).Some? :: SparesKernels(BlockOf(m, Named(m, names[i]).value), b)
  }

  predicate SparesKernels(d: Option<Block>, b: Block)
    requires Shaped(b)
  {
    d.Some? && Shaped(d.value) ==> {Rhs(Weight1(b)), Rhs(Weight2(b))} !! {Weight1(d.value), Weight2(d.value)}
  }

  lemma LeavesRest(m: Model, names: seq<string>, b: Block)
    requires Shaped(b) && LeavesAlone(m, names, b) && names != []
    ensures LeavesAlone(m, names[1..], b)
  {
    assert forall i | 0 <= i < |names[1..]| :: names[1..][i] == names[i + 1];
  }

  /** Kernels are constants of the model, and matrices are not yet. */
  lemma KernelsAreOld(m: Model, c: Node, other: Node)
    requires BlockOf(m, c).Some? && BlockOf(m, other).Some?
    ensures Shaped(BlockOf(m, c).value) && SparesKernels(BlockOf(m, other), BlockOf(m, c).value)
  {
    hide FindBlock, Arrays, Consumers, OnlyActivation, Lowered, PointwiseKernel, Rhs;
  }

  /** What one of the other turns finds after a turn that lowers `b0` is what it found before. */
  lemma OtherNamed(be: Backend, m: Model, inputs: Env, names: seq<string>, outputs: set<string>, e: Env, b0: Block, i: nat)
    requires Startable(be, m, inputs, names, outputs, e) && names != [] && Named(m, names[0]) == Some(b0.conv1) && BlockOf(m, b0.conv1) == Some(b0)
    requires Lowers(be, m, inputs, b0, e) && CanLower(m, b0) && Ready1(b0) && 0 < i < |names|
    ensures Named(Lowered(m, b0), names[i]) == Named(m, names[i])
    ensures Named(m, names[i]).Some? ==>
      KeepsClear(m, Named(m, names[i]).value, b0) && BlockOf(Lowered(m, b0), Named(m, names[i]).value) == BlockOf(m, Named(m, names[i]).value)
  {
    hide LowerPair, Lowers, CanLower, Ready1, BlockOf, Lowered, Named, Eval, Arrays, Separate, KeepsClear, Proper, SafeStart, Outs;
    if Named(m, names[i]).Some? {
      var c := Named(m, names[i]).value;
      NamedIs(m, names[i]);
      SeparateFromFirst(m, inputs.Keys, names, outputs, i);
      ClearOfFirst(m, b0, c);
      BlockOfStays(be, m, inputs, b0, e, c);
    }
    NamedStays(m, b0, names[i]);
  }

  lemma LeavesNext(be: Backend, m: Model, inputs: Env, names: seq<string>, outputs: set<string>, e: Env, b0: Block, b: Block)
    requires Startable(be, m, inputs, names, outputs, e) && names != [] && Named(m, names[0]) == Some(b0.conv1) && BlockOf(m, b0.conv1) == Some(b0)
    requires Lowers(be, m, inputs, b0, e) && CanLower(m, b0) && Ready1(b0) && Shaped(b) && (LeavesAlone(m, names, b) || b == b0)
    ensures LeavesAlone(Lowered(m, b0), names[1..], b)
  {
    hide Lowers, CanLower, Ready1, BlockOf, Lowered, Named, SparesKernels, Startable, KeepsClear, Shaped;
    var rest := names[1..];
    forall i | 0 <= i < |rest| && Named(Lowered(m, b0), rest[i]).Some?
      ensures SparesKernels(BlockOf(Lowered(m, b0), Named(Lowered(m, b0), rest[i]).value), b)
    {
      assert rest[i] == names[i + 1];
      OtherNamed(be, m, inputs, names, outputs, e, b0, i + 1);
      var c := Named(m, names[i + 1]).value;
      if BlockOf(m, c).Some? { KernelsAreOld(m, b0.conv1, c); } else { NoBlock(b); }
    }
  }

  lemma NoBlock(b: Block)
    requires Shaped(b)
    ensures SparesKernels(None, b)
  {}

  ghost predicate Finished(m: Model, names: seq<string>, b: Block) {
    Apart(b) && IsLowered(m, b) && LeavesAlone(m, names, b)
  }

  lemma FinishedRest(m: Model, names: seq<string>, b: Block)
    requires Finished(m, names, b) && names != []
    ensures Finished(m, names[1..], b)
  {
    LeavesRest(m, names, b);
  }

  /** A block that is finished stays so over a turn, and the block of the turn is finished by it. */
  lemma FinishedNext(be: Backend, m: Model, inputs: Env, names: seq<string>, outputs: set<string>, e: Env, b0: Block, b: Block)
    requires Startable(be, m, inputs, names, outputs, e) && names != [] && Named(m, names[0]) == Some(b0.conv1) && BlockOf(m, b0.conv1) == Some(b0)
    requires Lowers(be, m, inputs, b0, e) && CanLower(m, b0) && Ready1(b0)
    requires Finished(m, names, b) || (b == b0 && Ripe(m, b))
    ensures Finished(Lowered(m, b0), names[1..], b)
  {
    hide Lowers, BlockOf, Lowered, Named, Startable, IsLowered, CanLower, Ready1;
    LeavesNext(be, m, inputs, names, outputs, e, b0, b);
    if Finished(m, names, b) {
      ShapedIfReady(b0);
      assert SparesKernels(BlockOf(m, Named(m, names[0]).value), b);
      LoweredStays(m, b, b0);
    } else {
      TurnLowers(m, b);
    }
  }

  lemma ShapedIfReady(b: Block)
    requires Ready1(b)
    ensures Shaped(b)
  {}

  /** From any point of the pass on: what is finished stays finished, and every block that is still ripe will be lowered. */
  lemma {:induction false} RestIsLowered(be: Backend, m: Model, inputs: Env, names: seq<string>, outputs: set<string>, e: Env, b: Block)
    requires Startable(be, m, inputs, names, outputs, e) && LowerNames(m, names).Ok?
    requires Finished(m, names, b) || (Ripe(m, b) && b.conv1.name in names)
    ensures Shaped(b) && IsLowered(LowerNames(m, names).value, b)
    decreases names
  {
    hide LowerPair, Running, SafeTurn, Startable, Lowers, CanLower, Ready1, BlockOf, Lowered, First, Called, Eval, Arrays, Sole, Finished, Second,
      IsLowered, Separate;
    if names == [] {
      FinishedMeans(m, names, b);
    } else {
      var found, rest := Named(m, names[0]), names[1..];
      if Ripe(m, b) { RipeNamed(m, b); }
      assert names == [names[0]] + rest;
      if found.None? || LowerPair(m, found.value).value.None? {
        StartRest(be, m, inputs, names, outputs, e);
        if Finished(m, names, b) { FinishedRest(m, names, b); } else { NotSkipped(m, b); }
        RestIsLowered(be, m, inputs, rest, outputs, e, b);
      } else {
        var r := AfterTurn(be, m, inputs, names, outputs, e);
        var b0 := BlockOf(m, found.value).value;
        if Finished(m, names, b) || b.conv1.name == names[0] {
          FinishedNext(be, m, inputs, names, outputs, e, b0, b);
        } else {
          StillRipe(be, m, inputs, names, outputs, e, b0, b);
        }
        RestIsLowered(be, Lowered(m, b0), inputs, rest, outputs, r, b);
      }
    }
  }

  lemma FinishedMeans(m: Model, names: seq<string>, b: Block)
    ensures Finished(m, names, b) ==> Shaped(b) && IsLowered(m, b)
  {}

  lemma RipeNamed(m: Model, b: Block)
    requires Ripe(m, b)
    ensures Named(m, b.conv1.name) == Some(b.conv1) && Apart(b)
  {
    CalledIs(m.nodes, b.conv1);
  }

  lemma NotSkipped(m: Model, b: Block)
    requires Ripe(m, b)
    ensures LowerPair(m, b.conv1).Ok? && LowerPair(m, b.conv1).value.Some?
  {}

  lemma StillRipe(be: Backend, m: Model, inputs: Env, names: seq<string>, outputs: set<string>, e: Env, b0: Block, b: Block)
    requires Startable(be, m, inputs, names, outputs, e) && names != [] && Named(m, names[0]) == Some(b0.conv1) && BlockOf(m, b0.conv1) == Some(b0)
    requires Lowers(be, m, inputs, b0, e) && CanLower(m, b0) && Ready1(b0) && Ripe(m, b) && b.conv1.name in names[1..]
    ensures Ripe(Lowered(m, b0), b)
  {
    hide Lowers, BlockOf, Lowered, Named, Startable, CanLower, Ready1, Sole, Second, KeepsClear;
    RipeNamed(m, b);
    var i :| 0 <= i < |names[1..]| && names[1..][i] == b.conv1.name;
    assert names[i + 1] == b.conv1.name;
    OtherNamed(be, m, inputs, names, outputs, e, b0, i + 1);
    RipeStays(be, m, inputs, b0, e, b);
  }

  // ---------------------------------------------------------------- the whole pass

  predicate OpensPair(n: Node) { n.op.Conv? && |n.name| >= 21 && n.name[|n.name| - 21..] == "/pointwise_conv1/Conv" }

  /** What a caller can check before the pass, convolution by convolution: each is alone with its name, its turn is safe, and
      the blocks of two of them are separate. */
  ghost predicate SafeModel(be: Backend, m: Model, inputs: Env, outputs: set<string>, e: Env) {
    && Proper(m, inputs.Keys) && Eval(be, inputs + Arrays(m.inits), m.nodes) == Some(e)
    && outputs <= inputs.Keys + Outs(m.nodes, |m.nodes|)
    && (forall c | c in m.nodes && OpensPair(c) :: Sole(m.nodes, c) && SafeTurn(m, inputs.Keys, c, outputs))
    && (forall c, d | c in m.nodes && d in m.nodes && OpensPair(c) && OpensPair(d) && c != d :: Separate(m, c, d))
  }

  lemma {:induction false} PairIsListed(nodes: seq<Node>, c: Node)
    requires c in nodes && OpensPair(c)
    ensures c.name in Conv1Names(nodes)
  {
    var m := |nodes| - 1;
    if nodes[m] == c {
      assert IsConv1(c);
    } else {
      assert c in nodes[..m];
      PairIsListed(nodes[..m], c);
    }
  }

  lemma {:induction false} ListedIsPair(nodes: seq<Node>, i: nat) returns (k: nat)
    requires i < |Conv1Names(nodes)|
    ensures k < |nodes| && OpensPair(nodes[k]) && nodes[k].name == Conv1Names(nodes)[i]
    ensures i < |Conv1Names(nodes)| - 1 ==> k < |nodes| - 1
  {
    var m := |nodes| - 1;
    if i < |Conv1Names(nodes[..m])| { k := ListedIsPair(nodes[..m], i); } else { k := m; }
  }

  lemma {:induction false} ListedApart(nodes: seq<Node>, i: nat, j: nat) returns (k: nat, l: nat)
    requires i < j < |Conv1Names(nodes)|
    ensures k < l < |nodes| && OpensPair(nodes[k]) && OpensPair(nodes[l])
    ensures nodes[k].name == Conv1Names(nodes)[i] && nodes[l].name == Conv1Names(nodes)[j]
  {
    var m := |nodes| - 1;
    if j < |Conv1Names(nodes[..m])| {
      k, l := ListedApart(nodes[..m], i, j);
    } else {
      k := ListedIsPair(nodes[..m], i);
      l := m;
    }
  }

  lemma SamePlace(m: Model, inputs: set<string>, k: nat, l: nat)
    requires Proper(m, inputs) && k < |m.nodes| && l < |m.nodes| && m.nodes[k] == m.nodes[l] && m.nodes[k].op.Conv?
    ensures k == l
  {
    assert GoodNode(m.nodes[k]);
    assert Produces(m.nodes[k], m.nodes[k].outputs[0]);
  }

  lemma NamedPair(m: Model, inputs: set<string>, i: nat) returns (c: Node)
    requires i < |Conv1Names(m.nodes)| && forall c | c in m.nodes && OpensPair(c) :: Sole(m.nodes, c)
    ensures c in m.nodes && OpensPair(c) && c.name == Conv1Names(m.nodes)[i] && Named(m, Conv1Names(m.nodes)[i]) == Some(c)
  {
    var k := ListedIsPair(m.nodes, i);
    c := m.nodes[k];
    CalledIs(m.nodes, c);
  }

  lemma NamedSole(m: Model, c: Node)
    requires Sole(m.nodes, c)
    ensures Named(m, c.name) == Some(c)
  {
    CalledIs(m.nodes, c);
  }

  /** The list of names the pass goes through stands for these convolutions. */
  lemma CanStart(be: Backend, m: Model, inputs: Env, outputs: set<string>, e: Env)
    requires SafeModel(be, m, inputs, outputs, e)
    ensures Startable(be, m, inputs, Conv1Names(m.nodes), outputs, e)
  {
    hide Proper, Eval, Arrays, Outs, SafeTurn, Separate, Sole, OpensPair, Named, EndsInV, Conv1Names;
    var names := Conv1Names(m.nodes);
    forall i | 0 <= i < |names| ensures EndsInV(names[i]) { Conv1NamesEndInV(m.nodes, i); }
    forall i, j | 0 <= i < j < |names| ensures names[i] != names[j] { NamesDiffer(m, inputs.Keys, i, j); }
    forall i | 0 <= i < |names| && Named(m, names[i]).Some? ensures SafeTurn(m, inputs.Keys, Named(m, names[i]).value, outputs) {
      var c := NamedPair(m, inputs.Keys, i);
    }
    forall i, j | 0 <= i < |names| && 0 <= j < |names| && i != j && Named(m, names[i]).Some? && Named(m, names[j]).Some?
      ensures Separate(m, Named(m, names[i]).value, Named(m, names[j]).value)
    {
      var c := NamedPair(m, inputs.Keys, i);
      var d := NamedPair(m, inputs.Keys, j);
      if i < j { NamesDiffer(m, inputs.Keys, i, j); } else { NamesDiffer(m, inputs.Keys, j, i); }
    }
  }

  lemma NamesDiffer(m: Model, inputs: set<string>, i: nat, j: nat)
    requires Proper(m, inputs) && i < j < |Conv1Names(m.nodes)| && forall c | c in m.nodes && OpensPair(c) :: Sole(m.nodes, c)
    ensures Conv1Names(m.nodes)[i] != Conv1Names(m.nodes)[j]
  {
    hide Proper;
    var k, l := ListedApart(m.nodes, i, j);
    if m.nodes[k].name == m.nodes[l].name {
      assert Sole(m.nodes, m.nodes[k]);
      SamePlace(m, inputs, k, l);
    }
  }

  lemma BlockIsRipe(m: Model, given: set<string>, b: Block)
    requires SingleAssignment(m.nodes, given) && IsBlock(m, b) && OpensPair(b.conv1)
    ensures Ripe(m, b)
  {
    hide SingleAssignment, Sole, ReadOnce, ReadOnlyBy, Arrays, FindBlock, LowerPair, Lowered, ReplaceAll, First;
    BlockIsLowered(m, given, b);
    CalledIs(m.nodes, b.conv2);
    var name := b.conv1.name;
    assert name[|name| - 1] == name[|name| - 21..][20] == 'v';
    PairEndsInV(name);
  }

  /**
   * The whole pass on a safe model. It fails only if the turn of one of the convolutions would fail on the model as it is. If
   * it succeeds, every block wired as the search wants it is gone: no node has the name of either convolution, and both
   * matrices are constants. The result evaluates wherever the model does, with the same outputs.
   */
  lemma EveryBlockIsLowered(be: Backend, m: Model, inputs: Env, outputs: set<string>, e: Env)
    requires SafeModel(be, m, inputs, outputs, e)
    ensures var r := LowerNames(m, Conv1Names(m.nodes));
      && (r.Ok? <==> forall c | c in m.nodes && OpensPair(c) :: LowerPair(m, c).Ok?)
      && (r.Ok? ==> forall b | IsBlock(m, b) && OpensPair(b.conv1) :: Shaped(b) && IsLowered(r.value, b))
      && (r.Ok? ==> KeepsOutputs(be, m, r.value, inputs, outputs, e))
  {
    hide Proper, Eval, Arrays, Outs, SafeTurn, Separate, Sole, OpensPair, Named, Conv1Names, LowerPair, IsBlock, LowerNames, IsLowered, Ripe, Called,
      First, SingleAssignment, SafeTurns;
    var names := Conv1Names(m.nodes);
    CanStart(be, m, inputs, outputs, e);
    PassFailsExactly(be, m, inputs, names, outputs, e);
    SafeTurnsFollow(be, m, inputs, names, outputs, e);
    forall i: nat | i < |names|
      ensures OkNow(m, names[i]) <==> Named(m, names[i]).Some? && LowerPair(m, Named(m, names[i]).value).Ok?
      ensures Named(m, names[i]).Some? && Named(m, names[i]).value in m.nodes && OpensPair(Named(m, names[i]).value)
    {
      var c := NamedPair(m, inputs.Keys, i);
    }
    forall c | c in m.nodes && OpensPair(c) ensures c.name in names && Named(m, c.name) == Some(c) {
      PairIsListed(m.nodes, c);
      NamedSole(m, c);
    }
    if LowerNames(m, names).Ok? {
      forall b | IsBlock(m, b) && OpensPair(b.conv1) ensures Shaped(b) && IsLowered(LowerNames(m, names).value, b) {
        BlockWillGo(be, m, inputs, outputs, e, b);
      }
      PassKeepsOutputs(be, m, inputs, names, outputs, e);
    }
  }

  ghost predicate KeepsOutputs(be: Backend, m: Model, next: Model, inputs: Env, outputs: set<string>, e: Env) {
    var r := Eval(be, inputs + Arrays(next.inits), next.nodes);
    r.Some? && forall o | o in outputs :: o in r.value && o in e && r.value[o] == e[o]
  }

  lemma BlockWillGo(be: Backend, m: Model, inputs: Env, outputs: set<string>, e: Env, b: Block)
    requires SafeModel(be, m, inputs, outputs, e) && IsBlock(m, b) && OpensPair(b.conv1) && LowerNames(m, Conv1Names(m.nodes)).Ok?
    ensures Shaped(b) && IsLowered(LowerNames(m, Conv1Names(m.nodes)).value, b)
  {
    hide Eval, Arrays, Outs, SafeTurn, Separate, OpensPair, Named, Conv1Names, LowerPair, LowerNames, IsLowered, Ripe, SingleAssignment,
      OpensBlock, ClosesBlock, ReadOnce, Startable;
    CanStart(be, m, inputs, outputs, e);
    BlockIsRipe(m, inputs.Keys + Arrays(m.inits).Keys, b);
    PairIsListed(m.nodes, b.conv1);
    RestIsLowered(be, m, inputs, Conv1Names(m.nodes), outputs, e, b);
  }
}
