/** The smallest block of two pointwise convolutions, one reader of the split too many, and what the pass makes of it. */
module PairExample {
  import opened Wrappers
  import opened Tensors
  import opened OnnxGraph
  import opened AffineBlocks
  import opened AffineLowering
  import opened AffineRegions
  import opened GraphAgreement
  import opened PairLowering
  import opened PairMeaning
  import opened PairDeleting
  import opened PairTheorem
  import opened PairSearch
  import opened PairSeparate
  import opened PairComplete
  import opened PairLimits
  import M = AffineBlockMeaning
  import A = AffineTensors

  // ---------------------------------------------------------------- the graph

  /** Every tensor is called by one letter. */
  function Nm(c: char): (r: string)
    ensures |r| == 1 && r[0] == c
  {
    [c]
  }

  function Pointwise(name: string, input: char, kernel: char, output: char): Node {
    Node(name, Conv(1, false, [1], [1], [0, 0]), [Nm(input), Nm(kernel)], [Nm(output)])
  }

  function Gate(input: char, output: char): Node { Node("", Unary(Sigmoid), [Nm(input)], [Nm(output)]) }

  function Times(x: char, y: char, output: char): Node { Node("", Binary(Mul), [Nm(x), Nm(y)], [Nm(output)]) }

  function Turned(input: char, output: char): Node { NtcNode("", Nm(input), [Nm(output)]) }

  function Conv1(): Node { Pointwise(CONV1, 't', 'v', 'c') }

  function TheBlock(): Block {
    Block(Conv1(), Pointwise(CONV2, 'a', 'w', 'd'), Turned('x', 't'), Node("", Split(1, 2), [Nm('c')], [Nm('p'), Nm('q')]),
          Gate('q', 'k'), Times('p', 'k', 'g'), Times('b', 'u', 'a'), Gate('b', 'u'), Some(Turned('x', 'b')), Turned('d', 'y'))
  }

  function Nodes(): seq<Node> {
    var b := TheBlock();
    [b.before, b.conv1, b.split, b.sigmoid, b.glu, b.middle.value, b.gate, b.act, b.conv2, b.after]
  }

  function TheWires(): Wires {
    Wires(Nm('x'), Nm('t'), Nm('c'), Nm('p'), Nm('q'), Nm('k'), Nm('g'), Nm('x'), Nm('b'), Nm('u'), Nm('a'), Nm('d'), Nm('y'))
  }

  function Ones(c: nat, l: nat, k: nat): (r: Tensor)
    ensures r.shape == [c, l, k]
  {
    Make3(c, l, k, (i: int, j: int, h: int) => 1.0)
  }

  function TheInits(): seq<Initializer> {
    [Initializer(Nm('v'), Ones(2, 1, 1)), Initializer(Nm('w'), Ones(1, 1, 1))]
  }

  /** One channel, two positions. */
  function TheInputs(): Env { map[Nm('x') := Ones(1, 2, 1)] }

  function Clear(): Model { Model(Nodes(), TheInits()) }

  function Reader(): Node { Node("", Unary(Identity), [Nm('p')], [Nm('z')]) }

  // ---------------------------------------------------------------- names

  /** Which node produces the tensor of a letter. */
  function MakerAt(c: char): int {
    match c
    case 't' => 0 case 'c' => 1 case 'p' => 2 case 'q' => 2 case 'k' => 3 case 'g' => 4
    case 'b' => 5 case 'u' => 6 case 'a' => 7 case 'd' => 8 case 'y' => 9
    case _ => -1
  }

  function ReadersOf(c: char): set<int> {
    match c
    case 'x' => {0, 5} case 't' => {1} case 'v' => {1} case 'c' => {2} case 'q' => {3} case 'p' => {4} case 'k' => {4}
    case 'b' => {6, 7} case 'u' => {7} case 'a' => {8} case 'w' => {8} case 'd' => {9}
    case _ => {}
  }

  lemma ProducesAt(k: nat, x: string)
    requires k < 10
    ensures Produces(Nodes()[k], x) <==> |x| == 1 && MakerAt(x[0]) == k
    ensures DistinctOutputs(Nodes()[k])
  {
    if |x| == 1 { assert x == Nm(x[0]); }
  }

  lemma ReadsAt(k: nat, x: string)
    requires k < 10
    ensures Reads(Nodes()[k], x) <==> |x| == 1 && k in ReadersOf(x[0])
  {
    if |x| == 1 { assert x == Nm(x[0]); }
  }

  // ---------------------------------------------------------------- constants

  lemma TheArrays()
    ensures Arrays(TheInits()) == map[Nm('v') := Ones(2, 1, 1), Nm('w') := Ones(1, 1, 1)]
  {
    var inits := TheInits();
    assert inits[..1] == [inits[0]] && [inits[0]][..0] == [];
    assert Arrays([inits[0]]) == map[Nm('v') := Ones(2, 1, 1)];
  }

  // ---------------------------------------------------------------- proper form

  function TheGiven(): set<string> { {Nm('x'), Nm('v'), Nm('w')} }

  lemma ReadOnlyAt(c: char, readers: set<Node>)
    requires forall k: nat | k < 10 && k in ReadersOf(c) :: Nodes()[k] in readers
    ensures ReadOnlyBy(Nodes(), Nm(c), readers)
  {
    hide Nm;
    forall k: nat | k < 10 && Reads(Nodes()[k], Nm(c)) ensures Nodes()[k] in readers { ReadsAt(k, Nm(c)); }
  }

  lemma TheStrays()
    ensures NoStrays(Nodes(), TheBlock(), TheWires())
  {
    hide Nm, ReadOnlyBy;
    FirstStrays();
    LastStrays();
  }

  lemma FirstStrays()
    ensures var nodes, b := Nodes(), TheBlock();
      && ReadOnlyBy(nodes, Nm('t'), {b.conv1}) && ReadOnlyBy(nodes, Nm('c'), {b.split}) && ReadOnlyBy(nodes, Nm('p'), {b.glu})
      && ReadOnlyBy(nodes, Nm('q'), {b.sigmoid}) && ReadOnlyBy(nodes, Nm('k'), {b.glu}) && ReadOnlyBy(nodes, Nm('v'), {b.conv1})
  {
    hide Nm, ReadOnlyBy, Pointwise, Gate, Times, Turned;
    var b := TheBlock();
    ReadOnlyAt('t', {b.conv1});
    ReadOnlyAt('c', {b.split});
    ReadOnlyAt('p', {b.glu});
    ReadOnlyAt('q', {b.sigmoid});
    ReadOnlyAt('k', {b.glu});
    ReadOnlyAt('v', {b.conv1});
  }

  lemma LastStrays()
    ensures var nodes, b := Nodes(), TheBlock();
      && ReadOnlyBy(nodes, Nm('b'), {b.act, b.gate}) && ReadOnlyBy(nodes, Nm('u'), {b.act}) && ReadOnlyBy(nodes, Nm('a'), {b.conv2})
      && ReadOnlyBy(nodes, Nm('d'), {b.after}) && ReadOnlyBy(nodes, Nm('w'), {b.conv2})
  {
    hide Nm, ReadOnlyBy, Pointwise, Gate, Times, Turned;
    var b := TheBlock();
    ReadOnlyAt('b', {b.act, b.gate});
    ReadOnlyAt('u', {b.act});
    ReadOnlyAt('a', {b.conv2});
    ReadOnlyAt('d', {b.after});
    ReadOnlyAt('w', {b.conv2});
  }

  lemma TheMakers()
    ensures SingleAssignment(Nodes(), TheGiven()) && forall k | 0 <= k < 10 :: DistinctOutputs(Nodes()[k])
  {
    hide Produces, Nodes, DistinctOutputs;
    NodesAre();
    var nodes := Nodes();
    forall i, j, x | 0 <= i < 10 && 0 <= j < 10 && Produces(nodes[i], x) && Produces(nodes[j], x) ensures i == j {
      ProducesAt(i, x);
      ProducesAt(j, x);
    }
    forall k, x | 0 <= k < 10 && Produces(nodes[k], x) ensures x !in TheGiven() {
      ProducesAt(k, x);
      assert MakerAt(x[0]) == k;
    }
    forall k | 0 <= k < 10 ensures DistinctOutputs(nodes[k]) { ProducesAt(k, ""); }
  }

  lemma NodesAre()
    ensures |Nodes()| == 10
  {}

  lemma TheWiring()
    ensures Wired(TheBlock(), TheWires())
  {
    hide Nm;
  }

  lemma IsClean()
    ensures Clean(Nodes(), TheGiven(), TheBlock(), TheWires())
  {
    hide SingleAssignment, DistinctOutputs, NoStrays, Wired;
    TheMakers();
    TheStrays();
    TheWiring();
    var b := TheBlock();
    assert b.conv1.inputs[1] == Nm('v') && b.conv2.inputs[1] == Nm('w');
    assert b.before.outputs[0] == Nm('t') && b.middle.value.outputs[0] == Nm('b') && b.after.outputs[0] == Nm('y');
    assert CONV1[15] != CONV2[15];
  }

  lemma RhsIsLong(c: char)
    ensures |Nm(c) + "__matmul_rhs"| > 1
  {}

  lemma TheNames()
    ensures TheBlock().conv2.name == ReplaceAll(Conv1().name, CONV1, CONV2) && CONV1 != CONV2
  {
    assert "" + CONV1 == CONV1 && "" + CONV2 == CONV2;
    ReplacedAtEnd("", CONV1, CONV2);
    assert CONV1[15] != CONV2[15];
  }

  lemma AreTwins()
    ensures Twins(Clear(), TheBlock())
  {
    hide Nm, ReadOnlyBy, Arrays, Ones, ReplaceAll;
    TheArrays();
    TheNames();
    TheStrays();
    var nodes, b := Nodes(), TheBlock();
    assert nodes[1] == b.conv1 && nodes[8] == b.conv2;
    assert Sole(nodes, b.conv1) && Sole(nodes, b.conv2);
  }

  lemma IsOpen()
    ensures OpensBlock(Nodes(), TheBlock())
  {
    hide Nm, ReadOnlyBy;
    FirstStrays();
    var nodes, b := Nodes(), TheBlock();
    assert nodes[0] == b.before && nodes[1] == b.conv1 && nodes[2] == b.split && nodes[3] == b.sigmoid && nodes[4] == b.glu;
  }

  lemma IsClosed()
    ensures ClosesBlock(Nodes(), TheBlock())
  {
    hide Nm, ReadOnlyBy, Nodes;
    LastStrays();
    TheLastNodes();
    OneTurnsBack();
  }

  lemma TheLastNodes()
    ensures var b := TheBlock(); b.middle.value in Nodes() && b.gate in Nodes() && b.act in Nodes() && b.after in Nodes()
  {
    hide Nm, Pointwise, Gate, Times, Turned;
    var nodes, b := Nodes(), TheBlock();
    assert nodes[5] == b.middle.value && nodes[6] == b.gate && nodes[7] == b.act && nodes[9] == b.after;
  }

  lemma OneTurnsBack()
    ensures forall n | n in Nodes() && Produces(n, Nm('b')) :: n.op != Unary(Sigmoid)
  {
    hide Nm;
    forall n | n in Nodes() && Produces(n, Nm('b')) ensures n.op != Unary(Sigmoid) {
      var k: nat :| k < 10 && Nodes()[k] == n;
      ProducesAt(k, Nm('b'));
    }
  }

  lemma CanBeLowered()
    ensures |TheBlock().conv1.inputs| == |TheBlock().conv2.inputs| == 2 && !Collides(Arrays(TheInits()), TheBlock())
    ensures forall c | c in {TheBlock().conv1, TheBlock().conv2} :: c.inputs[1] in Arrays(TheInits()) && OneTap(Arrays(TheInits())[c.inputs[1]])
  {
    hide Nm, Arrays, Ones;
    TheArrays();
    RhsIsLong('v');
    RhsIsLong('w');
  }

  lemma TheTurn()
    ensures CanLower(Clear(), TheBlock()) && LowerPair(Clear(), Conv1()) == Ok(Some(Lowered(Clear(), TheBlock())))
    ensures FindBlock(Nodes(), Arrays(TheInits()), Conv1()) == Some(TheBlock())
  {
    hide FindBlock, Arrays, Lowered, Ones, Twins, OpensBlock, ClosesBlock, SingleAssignment;
    TheMakers();
    AreTwins();
    CanBeLowered();
    IsOpen();
    IsClosed();
    BlockIsLowered(Clear(), TheGiven(), TheBlock());
  }

  // ---------------------------------------------------------------- the run

  predicate Has(e: Env, c: char, shape: seq<nat>) { Nm(c) in e && e[Nm(c)].shape == shape }

  /** The other tensors are still there. */
  ghost predicate Kept(e: Env, r: Env, written: set<char>) {
    forall c, shape | c !in written && Has(e, c, shape) :: Has(r, c, shape)
  }

  lemma ConvRuns(be: Backend, e: Env, name: string, input: char, kernel: char, output: char, m: nat) returns (r: Env)
    requires Has(e, input, [1, 1, 2]) && Has(e, kernel, [m, 1, 1])
    ensures Step(be, e, Pointwise(name, input, kernel, output)) == Some(r)
    ensures Has(r, output, [1, m, 2]) && Kept(e, r, {output})
  {
    hide A.Conv, Nm;
    var n, x, w, win := Pointwise(name, input, kernel, output), e[Nm(input)], e[Nm(kernel)], A.Window(1, 1, 0, 0);
    A.ReachIs(1, win);
    assert Operands(e, n.inputs) == [Given(x), Given(w)];
    assert Third([Given(x), Given(w)]) == None;
    M.StepOf(be, e, n, Nm(output), A.Conv(x, w, None, win));
    r := e[Nm(output) := A.Conv(x, w, None, win)];
  }

  lemma TurnRuns(be: Backend, e: Env, input: char, output: char, c: nat, l: nat) returns (r: Env)
    requires Has(e, input, [1, l, c])
    ensures Step(be, e, Turned(input, output)) == Some(r)
    ensures Has(r, output, [1, c, l]) && Kept(e, r, {output})
  {
    hide Swap, Nm;
    M.TransposeStep(be, e, Turned(input, output), Nm(input), Nm(output));
    r := e[Nm(output) := Swap(e[Nm(input)])];
  }

  lemma GateRuns(be: Backend, e: Env, input: char, output: char) returns (r: Env)
    requires Has(e, input, [1, 1, 2])
    ensures Step(be, e, Gate(input, output)) == Some(r)
    ensures Has(r, output, [1, 1, 2]) && Kept(e, r, {output})
  {
    hide Map, Nm;
    var n, x := Gate(input, output), e[Nm(input)];
    assert Operands(e, n.inputs) == [Given(x)];
    r := e[Nm(output) := Map(UnaryOf(be, Sigmoid), x)];
    M.StepOf(be, e, n, Nm(output), Map(UnaryOf(be, Sigmoid), x));
  }

  lemma TimesRuns(be: Backend, e: Env, x: char, y: char, output: char) returns (r: Env)
    requires Has(e, x, [1, 1, 2]) && Has(e, y, [1, 1, 2])
    ensures Step(be, e, Times(x, y, output)) == Some(r)
    ensures Has(r, output, [1, 1, 2]) && Kept(e, r, {output})
  {
    hide Zip, Nm;
    assert JointShape([1, 1, 2], [1, 1, 2]) == [1, 1, 2];
    M.BinaryStep(be, e, Times(x, y, output), Mul, Nm(x), Nm(y), Nm(output));
    r := e[Nm(output) := Zip(BinaryOf(be, Mul), e[Nm(x)], e[Nm(y)])];
  }

  lemma BindBoth(e: Env, x: string, y: string, values: seq<Tensor>)
    requires |values| == 2 && x != "" && y != ""
    ensures Bind(e, [x, y], values) == e[x := values[0]][y := values[1]]
  {
    var first := e[x := values[0]];
    assert [x, y][1..] == [y] && [y][1..] == [] && values[1..] == [values[1]] && [values[1]][1..] == [];
    assert Bind(first[y := values[1]], [], []) == first[y := values[1]];
    assert Bind(first, [y], [values[1]]) == first[y := values[1]];
  }

  lemma HalvesHas(e: Env, x: Tensor)
    requires x.shape == [1, 2, 2]
    ensures var r := e[Nm('p') := Halves(x, 1, 1)[0]][Nm('q') := Halves(x, 1, 1)[1]];
      Has(r, 'p', [1, 1, 2]) && Has(r, 'q', [1, 1, 2]) && Kept(e, r, {'p', 'q'})
  {
    hide Nm;
    var halves := Halves(x, 1, 1);
    assert halves[0].shape == [1, 1, 2] && halves[1].shape == [1, 1, 2];
  }

  lemma SplitRuns(be: Backend, e: Env) returns (r: Env)
    requires Has(e, 'c', [1, 2, 2])
    ensures Step(be, e, TheBlock().split) == Some(r)
    ensures Has(r, 'p', [1, 1, 2]) && Has(r, 'q', [1, 1, 2]) && Kept(e, r, {'p', 'q'})
  {
    hide Nm, Halves, Kept;
    var n, x := TheBlock().split, e[Nm('c')];
    HalvesRank(x, 1);
    assert Operands(e, n.inputs) == [Given(x)];
    assert Run(be, n.op, [Given(x)]) == Some(Halves(x, 1, 1));
    r := e[Nm('p') := Halves(x, 1, 1)[0]][Nm('q') := Halves(x, 1, 1)[1]];
    BindBoth(e, Nm('p'), Nm('q'), Halves(x, 1, 1));
    HalvesHas(e, x);
  }

  /** One node further. */
  lemma Further(be: Backend, k: nat, n: Node, e: Env, r: Env)
    requires k < 10 && At(be, k, e) && Nodes()[k] == n && Step(be, e, n) == Some(r)
    ensures At(be, k + 1, r)
  {
    EvalPrefix(be, Start(), Nodes(), k);
  }

  function Start(): Env { TheInputs() + Arrays(TheInits()) }

  /** The values after the first `k` nodes. */
  ghost predicate At(be: Backend, k: nat, e: Env)
    requires k <= 10
  {
    Eval(be, Start(), Nodes()[..k]) == Some(e)
  }

  lemma AtStart(be: Backend)
    ensures At(be, 0, Start()) && Has(Start(), 'x', [1, 2, 1]) && Has(Start(), 'v', [2, 1, 1]) && Has(Start(), 'w', [1, 1, 1])
  {
    hide Ones, Arrays;
    TheArrays();
    assert Nodes()[..0] == [];
  }

  lemma FirstHalf(be: Backend) returns (e: Env)
    ensures At(be, 5, e) && Has(e, 'p', [1, 1, 2]) && Has(e, 'x', [1, 2, 1]) && Has(e, 'w', [1, 1, 1])
  {
    hide At, Has, Step, Start, Pointwise, Gate, Times, Turned, Nm;
    AtStart(be);
    var e1 := TurnRuns(be, Start(), 'x', 't', 1, 2);
    Further(be, 0, Turned('x', 't'), Start(), e1);
    var e2 := ConvRuns(be, e1, CONV1, 't', 'v', 'c', 2);
    Further(be, 1, Conv1(), e1, e2);
    var e3 := SplitRuns(be, e2);
    Further(be, 2, TheBlock().split, e2, e3);
    var e4 := GateRuns(be, e3, 'q', 'k');
    Further(be, 3, Gate('q', 'k'), e3, e4);
    e := TimesRuns(be, e4, 'p', 'k', 'g');
    Further(be, 4, Times('p', 'k', 'g'), e4, e);
  }

  lemma SecondHalf(be: Backend) returns (e: Env)
    ensures At(be, 10, e) && Has(e, 'p', [1, 1, 2])
  {
    hide At, Has, Step, Start, Pointwise, Gate, Times, Turned, Nm;
    var e5 := FirstHalf(be);
    var e6 := TurnRuns(be, e5, 'x', 'b', 1, 2);
    Further(be, 5, Turned('x', 'b'), e5, e6);
    var e7 := GateRuns(be, e6, 'b', 'u');
    Further(be, 6, Gate('b', 'u'), e6, e7);
    var e8 := TimesRuns(be, e7, 'b', 'u', 'a');
    Further(be, 7, Times('b', 'u', 'a'), e7, e8);
    var e9 := ConvRuns(be, e8, CONV2, 'a', 'w', 'd', 1);
    Further(be, 8, Pointwise(CONV2, 'a', 'w', 'd'), e8, e9);
    e := TurnRuns(be, e9, 'd', 'y', 2, 1);
    Further(be, 9, Turned('d', 'y'), e9, e);
  }

  /** The graph without the reader runs. */
  lemma TheRun(be: Backend) returns (e: Env)
    ensures Eval(be, Start(), Nodes()) == Some(e) && Has(e, 'p', [1, 1, 2])
  {
    hide Eval, Has;
    e := SecondHalf(be);
    assert Nodes()[..10] == Nodes();
  }

  // ---------------------------------------------------------------- the reader

  lemma OneLetter(e: Env, x: string)
    requires e.Keys == TheGiven() + Outs(Nodes(), 10) && x in e
    ensures |x| == 1 && x[0] != 'z'
  {
    if x in Outs(Nodes(), 10) {
      var k := OutsFrom(Nodes(), 10, x);
      ProducesAt(k, x);
    }
  }

  lemma MadeIsLong(x: string)
    requires x in Made(TheBlock(), TheWires())
    ensures |x| > 1
  {}

  lemma MadeDiffers()
    ensures AllDistinct(Made(TheBlock(), TheWires()))
  {
    var made := Made(TheBlock(), TheWires());
    assert made[0][0] == 'v' && made[1][0] == 'w' && made[2][0] == 'g' && made[3][0] == 'c' && made[4][0] == 'y';
  }

  lemma NamesAreFree(e: Env)
    requires e.Keys == TheGiven() + Outs(Nodes(), 10)
    ensures FreshNames(e, TheBlock(), TheWires()) && Unused(e, TheBlock(), TheWires(), Nm('z'))
  {
    hide Nodes, Outs, TheBlock, TheWires, Made, AllDistinct;
    assert |TheBlock().conv1.inputs| == 2 && |TheBlock().conv2.inputs| == 2 by { TheWiring(); TheInputsAre(); }
    MadeDiffers();
    forall x | x in Made(TheBlock(), TheWires()) ensures x !in e && x != "" && x != Nm('z') {
      MadeIsLong(x);
      if x in e { OneLetter(e, x); }
    }
    if Nm('z') in e { OneLetter(e, Nm('z')); }
  }

  lemma TheInputsAre()
    ensures |TheBlock().conv1.inputs| == 2 && |TheBlock().conv2.inputs| == 2
  {}

  lemma TheStart()
    ensures Start().Keys == TheGiven() && TheInputs().Keys !! Arrays(TheInits()).Keys
    ensures TheInputs().Keys + Arrays(TheInits()).Keys == TheGiven()
  {
    hide Arrays, Ones;
    TheArrays();
  }

  /** Everything the general statement about such readers asks for. */
  lemma IsLooking(be: Backend) returns (e: Env)
    ensures Looking(be, Clear(), TheInputs(), TheBlock(), TheWires(), e, Reader(), Nm('p'), Nm('z')) && Has(e, 'p', [1, 1, 2])
  {
    hide Eval, Arrays, FindBlock, LowerPair, Clean, CanLower, FreshNames, Unused, Nodes, Lowered, Outs, Nm, TheInits, TheInputs, Has;
    e := TheRun(be);
    TheStart();
    EvalWrites(be, Start(), Nodes());
    NodesAre();
    NamesAreFree(e);
    IsClean();
    TheTurn();
    KernelsGiven();
  }

  lemma KernelsGiven()
    ensures Shaped(TheBlock()) && {Weight1(TheBlock()), Weight2(TheBlock())} !! TheInputs().Keys
  {}

  /** The pass lowers the block, both graphs run, and the reader's output is not what it was. */
  lemma StrayReaderFails(be: Backend)
    ensures var m := With(Clear(), Reader());
      var next := LowerPair(m, Conv1());
      && next.Ok? && next.value.Some?
      && var was, now := Eval(be, Start(), m.nodes), Eval(be, TheInputs() + Arrays(next.value.value.inits), next.value.value.nodes);
      was.Some? && now.Some? && Nm('z') in was.value && Nm('z') in now.value && was.value[Nm('z')] != now.value[Nm('z')]
  {
    hide Looking, Eval, Arrays, LowerPair, TheInputs, TheInits, Nodes, Map, UnaryOf, Swap, Lowered;
    var e := IsLooking(be);
    StrayReaderIsTransposed(be, Clear(), TheInputs(), TheBlock(), TheWires(), e, Reader(), Nm('p'), Nm('z'));
  }
}
