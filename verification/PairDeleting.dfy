/** The variant of the pair lowering that deletes the two inner transposes: which values the rewritten block holds, and that
    every rewritten node agrees with them. */
module PairDeleting {
  import opened Wrappers
  import opened Tensors
  import opened OnnxGraph
  import opened AffineBlocks
  import opened AffineLowering
  import opened GraphAgreement
  import opened PairLowering
  import opened PairMeaning
  import A = AffineTensors

  // ---------------------------------------------------------------- the block

  predicate Out(n: Node, x: string) { n.outputs == [x] && x != "" }

  /** The wiring of a block: names are those of the tensors before the rewrite. */
  datatype Wires = Wires(
    x: string, t: string, c1: string, s0: string, s1: string, sg: string, g: string,
    h: string, base: string, gate: string, a: string, c2: string, y: string)

  function WiresOf(b: Block): Wires
    requires Shaped(b) && b.middle.Some? && b.sigmoid.outputs != [] && b.gate.outputs != [] && b.act.outputs != []
  {
    Wires(b.before.inputs[0], b.before.outputs[0], b.conv1.outputs[0], b.split.outputs[0], b.split.outputs[1],
          b.sigmoid.outputs[0], b.glu.outputs[0], b.middle.value.inputs[0], b.middle.value.outputs[0], b.gate.outputs[0],
          b.act.outputs[0], b.conv2.outputs[0], b.after.outputs[0])
  }

  predicate TwoInputs(n: Node, x: string, y: string) { n.inputs == [x, y] || n.inputs == [y, x] }

  predicate PointConv(n: Node, input: string, out: string) {
    && UnitConv(n) && 2 <= |n.inputs| <= 3 && n.inputs[0] == input && n.inputs[1] != "" && Out(n, out)
    && (|n.inputs| == 3 ==> n.inputs[2] != "")
  }

  predicate Turn(n: Node, input: string, out: string) {
    n.op == Transpose(NTC_PERM) && n.inputs == [input] && Out(n, out)
  }

  predicate Wired(b: Block, w: Wires) {
    && b.middle.Some? && Turn(b.before, w.x, w.t) && PointConv(b.conv1, w.t, w.c1)
    && b.split.op == Split(1, 2) && b.split.inputs != [] && b.split.inputs[0] == w.c1
    && b.split.outputs == [w.s0, w.s1] && w.s0 != "" && w.s1 != ""
    && b.sigmoid.op == Unary(Sigmoid) && b.sigmoid.inputs == [w.s1] && Out(b.sigmoid, w.sg)
    && b.glu.op == Binary(Mul) && TwoInputs(b.glu, w.s0, w.sg) && Out(b.glu, w.g)
    && Turn(b.middle.value, w.h, w.base)
    && b.gate.op == Unary(Sigmoid) && b.gate.inputs == [w.base] && Out(b.gate, w.gate)
    && b.act.op == Binary(Mul) && TwoInputs(b.act, w.base, w.gate) && Out(b.act, w.a)
    && PointConv(b.conv2, w.a, w.c2) && Turn(b.after, w.c2, w.y)
    && w.x != "" && w.h != ""
  }

  function Parts(b: Block): set<Node>
    requires b.middle.Some?
  {
    {b.conv1, b.conv2, b.before, b.split, b.sigmoid, b.glu, b.act, b.gate, b.middle.value, b.after}
  }

  function Swapped(w: Wires): set<string> { {w.c1, w.s0, w.s1, w.sg, w.g, w.gate, w.a} }

  function Gone(w: Wires): set<string> { {w.t, w.base, w.c2} }

  function Pre1(w: Wires): string { w.c1 + "__pre_bias" }

  function Pre2(w: Wires): string { w.y + "__pre_bias" }

  function Cf(w: Wires): string { w.g + "__channels_first" }

  /** The names the rewrite makes up. */
  function Made(b: Block, w: Wires): seq<string>
    requires |b.conv1.inputs| >= 2 && |b.conv2.inputs| >= 2
  {
    [Rhs(b.conv1.inputs[1]), Rhs(b.conv2.inputs[1]), Cf(w), Pre1(w), Pre2(w)]
  }

  ghost predicate AllDistinct(names: seq<string>) {
    forall i, j | 0 <= i < j < |names| :: names[i] != names[j]
  }

  predicate ReadOnlyBy(nodes: seq<Node>, x: string, readers: set<Node>) {
    forall k | 0 <= k < |nodes| :: Reads(nodes[k], x) ==> nodes[k] in readers
  }

  /** Nothing outside the block looks into it, except at the output of the gated linear unit. */
  predicate NoStrays(nodes: seq<Node>, b: Block, w: Wires)
    requires b.middle.Some? && |b.conv1.inputs| >= 2 && |b.conv2.inputs| >= 2
  {
    && ReadOnlyBy(nodes, w.t, {b.conv1}) && ReadOnlyBy(nodes, w.c1, {b.split})
    && ReadOnlyBy(nodes, w.s0, {b.glu}) && ReadOnlyBy(nodes, w.s1, {b.sigmoid}) && ReadOnlyBy(nodes, w.sg, {b.glu})
    && ReadOnlyBy(nodes, w.base, {b.act, b.gate}) && ReadOnlyBy(nodes, w.gate, {b.act})
    && ReadOnlyBy(nodes, w.a, {b.conv2}) && ReadOnlyBy(nodes, w.c2, {b.after})
    && ReadOnlyBy(nodes, b.conv1.inputs[1], {b.conv1}) && ReadOnlyBy(nodes, b.conv2.inputs[1], {b.conv2})
  }

  // ---------------------------------------------------------------- the new values

  function SwapIf(t: Tensor): Tensor { if Rank(t, 3) then Swap(t) else t }

  function Product(rows: Tensor, kernel: Tensor): Tensor {
    if Rank(kernel, 3) && A.CanMatMul3(rows, A.PointwiseMatrix(kernel)) then A.MatMul3(rows, A.PointwiseMatrix(kernel)) else rows
  }

  function MatrixIf(kernel: Tensor): Tensor { if Rank(kernel, 3) then A.PointwiseMatrix(kernel) else kernel }

  predicate Holds(e: Env, b: Block, w: Wires) {
    && Swapped(w) <= e.Keys && w.x in e
    && |b.conv1.inputs| >= 2 && b.conv1.inputs[1] in e && |b.conv2.inputs| >= 2 && b.conv2.inputs[1] in e
  }

  /** What each name holds after the rewrite. */
  function NewValue(e: Env, b: Block, w: Wires, x: string): Tensor
    requires Holds(e, b, w) && (x in e || x in Made(b, w))
  {
    if x == Rhs(b.conv1.inputs[1]) then MatrixIf(e[b.conv1.inputs[1]])
    else if x == Rhs(b.conv2.inputs[1]) then MatrixIf(e[b.conv2.inputs[1]])
    else if x == Cf(w) then e[w.g]
    else if x == Pre1(w) then Product(e[w.x], e[b.conv1.inputs[1]])
    else if x == Pre2(w) then Product(SwapIf(e[w.a]), e[b.conv2.inputs[1]])
    else if x in Swapped(w) then SwapIf(e[x])
    else e[x]
  }

  function NewValues(e: Env, b: Block, w: Wires): Env
    requires Holds(e, b, w)
  {
    map x | x in e.Keys + (set y | y in Made(b, w)) :: NewValue(e, b, w, x)
  }

  ghost predicate FreshNames(e: Env, b: Block, w: Wires)
    requires |b.conv1.inputs| >= 2 && |b.conv2.inputs| >= 2
  {
    AllDistinct(Made(b, w)) && forall x | x in Made(b, w) :: x !in e && x != ""
  }

  lemma MadeDiffer(e: Env, b: Block, w: Wires)
    requires |b.conv1.inputs| >= 2 && |b.conv2.inputs| >= 2 && FreshNames(e, b, w)
    ensures var made := Made(b, w);
      && made[0] != made[1] && made[0] != made[2] && made[0] != made[3] && made[0] != made[4]
      && made[1] != made[2] && made[1] != made[3] && made[1] != made[4]
      && made[2] != made[3] && made[2] != made[4] && made[3] != made[4]
      && made[0] !in e && made[1] !in e && made[2] !in e && made[3] !in e && made[4] !in e
      && made[0] != "" && made[1] != "" && made[2] != "" && made[3] != "" && made[4] != ""
  {
    hide Cf, Pre1, Pre2, Rhs;
    var made := Made(b, w);
    assert made[0] in made && made[1] in made && made[2] in made && made[3] in made && made[4] in made;
  }

  /** Old names keep their value, or hold it transposed. */
  lemma OldValue(e: Env, b: Block, w: Wires, x: string)
    requires Holds(e, b, w) && FreshNames(e, b, w) && x in e
    ensures x in NewValues(e, b, w)
    ensures NewValues(e, b, w)[x] == if x in Swapped(w) then SwapIf(e[x]) else e[x]
  {
    hide SwapIf, Product, MatrixIf, Cf, Pre1, Pre2, Rhs, Swapped;
    MadeDiffer(e, b, w);
    var made := Made(b, w);
    assert made[0] != x && made[1] != x && made[2] != x && made[3] != x && made[4] != x;
  }

  /** Made-up names hold what they are made for. */
  lemma MadeValues(e: Env, b: Block, w: Wires)
    requires Holds(e, b, w) && FreshNames(e, b, w)
    ensures var f := NewValues(e, b, w);
      && Rhs(b.conv1.inputs[1]) in f && f[Rhs(b.conv1.inputs[1])] == MatrixIf(e[b.conv1.inputs[1]])
      && Rhs(b.conv2.inputs[1]) in f && f[Rhs(b.conv2.inputs[1])] == MatrixIf(e[b.conv2.inputs[1]])
      && Cf(w) in f && f[Cf(w)] == e[w.g]
      && Pre1(w) in f && f[Pre1(w)] == Product(e[w.x], e[b.conv1.inputs[1]])
      && Pre2(w) in f && f[Pre2(w)] == Product(SwapIf(e[w.a]), e[b.conv2.inputs[1]])
  {
    hide SwapIf, Product, MatrixIf, Cf, Pre1, Pre2, Rhs, Swapped, FreshNames;
    MadeDiffer(e, b, w);
  }

  // ---------------------------------------------------------------- what the block computed

  ghost predicate Computed(be: Backend, e: Env, b: Block)
    requires b.middle.Some?
  {
    forall n | n in Parts(b) :: Agrees(be, e, n)
  }

  predicate Kernels(e: Env, b: Block) {
    && |b.conv1.inputs| >= 2 && |b.conv2.inputs| >= 2
    && b.conv1.inputs[1] in e && PointwiseKernel(e[b.conv1.inputs[1]])
    && b.conv2.inputs[1] in e && PointwiseKernel(e[b.conv2.inputs[1]])
  }

  /** One pointwise convolution, read off its input and output in the other layout. */
  lemma ConvIsLinear(be: Backend, e: Env, n: Node, input: string, out: string)
    requires PointConv(n, input, out) && Agrees(be, e, n) && n.inputs[1] in e && PointwiseKernel(e[n.inputs[1]])
    ensures input in e && out in e && Rank(e[input], 3) && Rank(e[out], 3)
    ensures A.CanMatMul3(Swap(e[input]), A.PointwiseMatrix(e[n.inputs[1]]))
    ensures BiasOf(e, n).Some? ==> BiasOf(e, n).value.shape == [A.PointwiseMatrix(e[n.inputs[1]]).shape[1]]
    ensures Swap(e[out]) == A.Linear(Swap(e[input]), A.PointwiseMatrix(e[n.inputs[1]]), BiasOf(e, n))
    ensures |n.inputs| == 3 ==> n.inputs[2] in e
  {
    hide A.Conv, A.Linear, Swap, A.PointwiseMatrix;
    ConvMeans(be, e, n);
    A.PointwiseIsMatMul(e[input], e[n.inputs[1]], BiasOf(e, n));
    if |n.inputs| == 3 { assert Ready(e, n.inputs); }
  }

  /** The same, with a transpose in front. */
  lemma OpeningIsLinear(be: Backend, e: Env, b: Block, w: Wires)
    requires Wired(b, w) && Computed(be, e, b) && Kernels(e, b)
    ensures w.x in e && w.c1 in e && Rank(e[w.x], 3) && Rank(e[w.c1], 3)
    ensures A.CanMatMul3(e[w.x], A.PointwiseMatrix(e[b.conv1.inputs[1]]))
    ensures BiasOf(e, b.conv1).Some? ==> BiasOf(e, b.conv1).value.shape == [A.PointwiseMatrix(e[b.conv1.inputs[1]]).shape[1]]
    ensures Swap(e[w.c1]) == A.Linear(e[w.x], A.PointwiseMatrix(e[b.conv1.inputs[1]]), BiasOf(e, b.conv1))
    ensures |b.conv1.inputs| == 3 ==> b.conv1.inputs[2] in e
  {
    hide A.Linear, Swap, A.PointwiseMatrix, Agrees, BiasOf;
    TransposeMeans(be, e, b.before);
    ConvIsLinear(be, e, b.conv1, w.t, w.c1);
    SwapSwap(e[w.x]);
  }

  lemma HalvesRank(t: Tensor, size: nat)
    requires Rank(t, 3)
    ensures var parts := Halves(t, 1, size); |parts| == 2 && Rank(parts[0], 3) && Rank(parts[1], 3)
  {}

  lemma SplitRan(be: Backend, e: Env, b: Block, w: Wires)
    requires Wired(b, w) && Computed(be, e, b) && Kernels(e, b)
    ensures CutsChannels(e, b.split) && w.s0 in e && w.s1 in e && Rank(e[w.s0], 3) && Rank(e[w.s1], 3)
  {
    hide A.Linear, Swap, A.PointwiseMatrix, BiasOf, FirstSize, Halves, A.CanMatMul3;
    OpeningIsLinear(be, e, b, w);
    var n := b.split;
    assert Agrees(be, e, n);
    var xs := Operands(e, n.inputs);
    assert xs[0] == Given(e[w.c1]);
    assert CutsChannels(e, n);
    SplitMeans(be, e, n);
    HalvesRank(e[w.c1], FirstSize(xs, e[w.c1].shape[1]).value);
  }

  lemma GateRan(be: Backend, e: Env, b: Block, w: Wires)
    requires Wired(b, w) && Computed(be, e, b) && Kernels(e, b)
    ensures w.sg in e && w.s1 in e && w.s0 in e && w.g in e
    ensures Rank(e[w.sg], 3) && Rank(e[w.g], 3) && Rank(e[w.s0], 3) && Rank(e[w.s1], 3)
    ensures e[w.sg] == Map(UnaryOf(be, Sigmoid), e[w.s1])
    ensures Broadcastable(e[b.glu.inputs[0]].shape, e[b.glu.inputs[1]].shape)
    ensures e[w.g] == Zip(BinaryOf(be, Mul), e[b.glu.inputs[0]], e[b.glu.inputs[1]])
  {
    hide Map, Zip, Broadcastable, Agrees, Kernels, CutsChannels, UnaryOf, BinaryOf;
    SplitRan(be, e, b, w);
    UnaryMeans(be, e, b.sigmoid);
    BinaryMeans(be, e, b.glu);
    ZipSwap(BinaryOf(be, Mul), e[b.glu.inputs[0]], e[b.glu.inputs[1]]);
  }

  lemma ActivationRan(be: Backend, e: Env, b: Block, w: Wires)
    requires Wired(b, w) && Computed(be, e, b)
    ensures w.h in e && w.base in e && w.gate in e && w.a in e
    ensures Rank(e[w.h], 3) && e[w.base] == Swap(e[w.h]) && Rank(e[w.gate], 3) && Rank(e[w.a], 3)
    ensures e[w.gate] == Map(UnaryOf(be, Sigmoid), e[w.base])
    ensures Broadcastable(e[b.act.inputs[0]].shape, e[b.act.inputs[1]].shape)
    ensures e[w.a] == Zip(BinaryOf(be, Mul), e[b.act.inputs[0]], e[b.act.inputs[1]])
  {
    hide Map, Zip, Broadcastable, Agrees, Swap, UnaryOf, BinaryOf;
    TransposeMeans(be, e, b.middle.value);
    UnaryMeans(be, e, b.gate);
    BinaryMeans(be, e, b.act);
    ZipSwap(BinaryOf(be, Mul), e[b.act.inputs[0]], e[b.act.inputs[1]]);
  }

  lemma ClosingIsLinear(be: Backend, e: Env, b: Block, w: Wires)
    requires Wired(b, w) && Computed(be, e, b) && Kernels(e, b)
    ensures w.a in e && w.y in e && Rank(e[w.a], 3)
    ensures A.CanMatMul3(Swap(e[w.a]), A.PointwiseMatrix(e[b.conv2.inputs[1]]))
    ensures BiasOf(e, b.conv2).Some? ==> BiasOf(e, b.conv2).value.shape == [A.PointwiseMatrix(e[b.conv2.inputs[1]]).shape[1]]
    ensures e[w.y] == A.Linear(Swap(e[w.a]), A.PointwiseMatrix(e[b.conv2.inputs[1]]), BiasOf(e, b.conv2))
    ensures |b.conv2.inputs| == 3 ==> b.conv2.inputs[2] in e
  {
    hide A.Linear, Swap, A.PointwiseMatrix, Agrees, BiasOf;
    ConvIsLinear(be, e, b.conv2, w.a, w.c2);
    TransposeMeans(be, e, b.after);
  }

  lemma BlockHolds(be: Backend, e: Env, b: Block, w: Wires)
    requires Wired(b, w) && Computed(be, e, b) && Kernels(e, b)
    ensures Holds(e, b, w) && forall x | x in Swapped(w) :: Rank(e[x], 3)
  {
    hide A.Linear, Swap, A.PointwiseMatrix, Agrees, BiasOf, Map, Zip, Broadcastable, A.CanMatMul3, CutsChannels;
    OpeningIsLinear(be, e, b, w);
    SplitRan(be, e, b, w);
    GateRan(be, e, b, w);
    ActivationRan(be, e, b, w);
  }

  // ---------------------------------------------------------------- what a caller can check

  /** The graph is in proper form, the block is a block of it, and nothing but the block looks into it. */
  ghost predicate Clean(nodes: seq<Node>, given: set<string>, b: Block, w: Wires) {
    && SingleAssignment(nodes, given) && "" !in given
    && (forall k | 0 <= k < |nodes| :: DistinctOutputs(nodes[k]))
    && Wired(b, w) && (forall n | n in Parts(b) :: n in nodes)
    && b.conv1 != b.conv2 && b.before != b.middle.value && b.before != b.after && b.middle.value != b.after
    && NoStrays(nodes, b, w) && w.h != w.g
    && b.conv1.inputs[1] in given && b.conv2.inputs[1] in given
    && (|b.conv1.inputs| == 3 ==> b.conv1.inputs[2] in given - {b.conv1.inputs[1], b.conv2.inputs[1]})
    && (|b.conv2.inputs| == 3 ==> b.conv2.inputs[2] in given - {b.conv1.inputs[1], b.conv2.inputs[1]})
  }

  /** Everything known about a run of the old graph. */
  ghost predicate Setting(be: Backend, nodes: seq<Node>, given: set<string>, b: Block, w: Wires, e: Env) {
    && Clean(nodes, given, b, w) && e.Keys == given + Outs(nodes, |nodes|)
    && (forall k | 0 <= k < |nodes| :: Agrees(be, e, nodes[k]))
    && Kernels(e, b) && FreshNames(e, b, w)
  }

  lemma Consequences(be: Backend, nodes: seq<Node>, given: set<string>, b: Block, w: Wires, e: Env)
    requires Setting(be, nodes, given, b, w, e)
    ensures Computed(be, e, b) && Wired(b, w) && Holds(e, b, w) && forall x | x in Swapped(w) :: Rank(e[x], 3)
  {
    hide Agrees, Kernels, FreshNames, NoStrays, SingleAssignment, DistinctOutputs;
    BlockHolds(be, e, b, w);
  }

  lemma OnlyMaker(nodes: seq<Node>, given: set<string>, p: Node, x: string)
    requires SingleAssignment(nodes, given) && p in nodes && Produces(p, x)
    ensures x !in given && forall q, z | q in nodes && q != p && z in q.outputs :: z != x
  {}

  lemma GluIsNotAct(nodes: seq<Node>, given: set<string>, b: Block, w: Wires)
    requires Clean(nodes, given, b, w)
    ensures b.glu != b.act
  {
    hide NoStrays, SingleAssignment, DistinctOutputs, UnitConv;
    OnlyMaker(nodes, given, b.middle.value, w.base);
    assert w.s0 in b.split.outputs && w.sg in b.sigmoid.outputs;
    assert w.base in b.act.inputs;
    assert w.base !in b.glu.inputs;
  }

  /** The names inside the block differ where the edits tell them apart. */
  lemma NamesApart(nodes: seq<Node>, given: set<string>, b: Block, w: Wires)
    requires Clean(nodes, given, b, w)
    ensures w.base !in Swapped(w) && w.g !in {w.c1, w.s0, w.s1, w.sg, w.gate, w.a} && w.h != w.base
    ensures w.y !in Swapped(w) && w.y !in Gone(w) && w.y != ""
  {
    hide SingleAssignment, DistinctOutputs, ReadOnlyBy;
    OnlyMaker(nodes, given, b.middle.value, w.base);
    OnlyMaker(nodes, given, b.glu, w.g);
    OnlyMaker(nodes, given, b.after, w.y);
    GluIsNotAct(nodes, given, b, w);
    assert w.c1 in b.conv1.outputs && w.s0 in b.split.outputs && w.s1 in b.split.outputs && w.sg in b.sigmoid.outputs;
    assert w.g in b.glu.outputs && w.gate in b.gate.outputs && w.a in b.act.outputs;
    assert w.t in b.before.outputs && w.base in b.middle.value.outputs && w.c2 in b.conv2.outputs;
    HIsNotBase(nodes, given, b, w);
  }

  lemma HIsNotBase(nodes: seq<Node>, given: set<string>, b: Block, w: Wires)
    requires Clean(nodes, given, b, w)
    ensures w.h != w.base
  {
    hide SingleAssignment, DistinctOutputs, UnitConv, ReadOnlyBy;
    assert b.middle.value in Parts(b) && Reads(b.middle.value, w.h);
    if w.h == w.base { ReaderIs(nodes, w.base, {b.act, b.gate}, b.middle.value); }
  }

  /** The node of the block that produces one of its tensors. */
  function MakerOf(b: Block, w: Wires, x: string): Node
    requires b.middle.Some?
  {
    if x == w.c1 then b.conv1 else if x == w.s0 || x == w.s1 then b.split else if x == w.sg then b.sigmoid
    else if x == w.g then b.glu else if x == w.gate then b.gate else if x == w.a then b.act
    else if x == w.t then b.before else if x == w.base then b.middle.value else b.conv2
  }

  lemma MakerMakes(b: Block, w: Wires, x: string)
    requires Wired(b, w) && (x in Swapped(w) || x in Gone(w))
    ensures b.middle.Some? && Produces(MakerOf(b, w, x), x) && MakerOf(b, w, x) in Parts(b)
  {
    hide UnitConv, TwoInputs;
  }

  lemma InsideIsMade(nodes: seq<Node>, given: set<string>, b: Block, w: Wires, x: string)
    requires Clean(nodes, given, b, w) && (x in Swapped(w) || x in Gone(w))
    ensures x !in given && x != ""
  {
    hide NoStrays, DistinctOutputs, UnitConv, SingleAssignment, Parts, MakerOf, Wired, Swapped, Gone;
    MakerMakes(b, w, x);
    OnlyMaker(nodes, given, MakerOf(b, w, x), x);
  }

  // ---------------------------------------------------------------- the rewritten nodes agree

  /** A node that reads from outside the block: not one of its inner nodes, or the split reading its sizes. */
  predicate Outside(b: Block, w: Wires, n: Node, x: string)
    requires b.middle.Some?
  {
    n !in Parts(b) - {b.before, b.middle.value, b.split} && (n == b.split ==> x != w.c1)
  }

  lemma ReaderIs(nodes: seq<Node>, x: string, readers: set<Node>, n: Node)
    requires ReadOnlyBy(nodes, x, readers) && n in nodes && Reads(n, x)
    ensures n in readers
  {}

  /** Such a node sees nothing of the block but the output of the gated linear unit. */
  lemma SeesOnlyGlu(nodes: seq<Node>, given: set<string>, b: Block, w: Wires, n: Node, x: string)
    requires Clean(nodes, given, b, w) && n in nodes && Reads(n, x) && Outside(b, w, n, x)
    ensures x !in Gone(w) && (x in Swapped(w) ==> x == w.g)
  {
    hide SingleAssignment, DistinctOutputs, ReadOnlyBy;
    if x == w.t { ReaderIs(nodes, x, {b.conv1}, n); }
    if x == w.c1 { ReaderIs(nodes, x, {b.split}, n); }
    if x == w.s0 || x == w.sg { ReaderIs(nodes, x, {b.glu}, n); }
    if x == w.s1 { ReaderIs(nodes, x, {b.sigmoid}, n); }
    if x == w.base { ReaderIs(nodes, x, {b.act, b.gate}, n); }
    if x == w.gate { ReaderIs(nodes, x, {b.act}, n); }
    if x == w.a { ReaderIs(nodes, x, {b.conv2}, n); }
    if x == w.c2 { ReaderIs(nodes, x, {b.after}, n); }
  }

  /** What such a node reads keeps its value, under its name or the one it was given. */
  lemma PlainRead(be: Backend, nodes: seq<Node>, given: set<string>, b: Block, w: Wires, e: Env, n: Node, x: string)
    requires Setting(be, nodes, given, b, w, e) && Holds(e, b, w) && Shaped(b)
    requires n in nodes && Reads(n, x) && x != "" && Outside(b, w, n, x)
    ensures x in e
    ensures var f, z := NewValues(e, b, w), EditedInput(b, n, x); z in f && f[z] == e[x] && z != ""
  {
    hide SingleAssignment, DistinctOutputs, UnitConv, SwapIf, Product, MatrixIf, FreshNames, Agrees, NewValues, Cf, Kernels, NoStrays;
    SeesOnlyGlu(nodes, given, b, w, n, x);
    var k :| 0 <= k < |nodes| && nodes[k] == n;
    assert Agrees(be, e, nodes[k]);
    ReadIsThere(be, e, n, x);
    OldValue(e, b, w, x);
    MadeValues(e, b, w);
    CfIsThere(e, b, w);
    assert EditedInput(b, n, x) == if x == w.g then Cf(w) else x by { CfIs(b, w); }
  }

  lemma CfIs(b: Block, w: Wires)
    requires Shaped(b) && Out(b.glu, w.g)
    ensures ChannelsFirst(b) == Cf(w)
  {}

  lemma CfIsThere(e: Env, b: Block, w: Wires)
    requires |b.conv1.inputs| >= 2 && |b.conv2.inputs| >= 2 && FreshNames(e, b, w)
    ensures Cf(w) != ""
  {
    MadeDiffer(e, b, w);
  }

  lemma ReadIsThere(be: Backend, e: Env, n: Node, x: string)
    requires Agrees(be, e, n) && Reads(n, x) && x != ""
    ensures x in e
  {}

  lemma BiasStays(be: Backend, nodes: seq<Node>, given: set<string>, b: Block, w: Wires, e: Env, conv: Node)
    requires Setting(be, nodes, given, b, w, e) && Holds(e, b, w) && (conv == b.conv1 || conv == b.conv2)
    requires |conv.inputs| == 3 ==> conv.inputs[2] in e
    ensures BiasOf(NewValues(e, b, w), conv) == BiasOf(e, conv)
    ensures |conv.inputs| == 3 ==> conv.inputs[2] != "" && conv.inputs[2] in NewValues(e, b, w)
  {
    hide SingleAssignment, DistinctOutputs, UnitConv, NewValues, FreshNames, Agrees, NoStrays;
    if |conv.inputs| == 3 {
      var x := conv.inputs[2];
      if x in Swapped(w) { InsideIsMade(nodes, given, b, w, x); }
      OldValue(e, b, w, x);
    }
  }

  lemma SwappedValue(be: Backend, nodes: seq<Node>, given: set<string>, b: Block, w: Wires, e: Env, x: string)
    requires Setting(be, nodes, given, b, w, e) && Holds(e, b, w) && x in Swapped(w) && Rank(e[x], 3)
    ensures x in NewValues(e, b, w) && NewValues(e, b, w)[x] == Swap(e[x]) && x != ""
  {
    hide SingleAssignment, DistinctOutputs, UnitConv, NewValues, FreshNames, Agrees, NoStrays, Swap;
    OldValue(e, b, w, x);
    InsideIsMade(nodes, given, b, w, x);
  }

  ghost predicate AllAgree(be: Backend, f: Env, nodes: seq<Node>) {
    forall k | 0 <= k < |nodes| :: Agrees(be, f, nodes[k])
  }

  lemma OpeningAgrees(be: Backend, nodes: seq<Node>, given: set<string>, b: Block, w: Wires, e: Env)
    requires Setting(be, nodes, given, b, w, e) && Holds(e, b, w) && Shaped(b)
    ensures AllAgree(be, NewValues(e, b, w), DeletingPiece(b, b.before))
  {
    hide SingleAssignment, DistinctOutputs, UnitConv, NewValues, FreshNames, Agrees, NoStrays, Swap, A.Linear, A.MatMul3,
      A.PointwiseMatrix, A.CanMatMul3, EditedInput, Swapped;
    var f := NewValues(e, b, w);
    Consequences(be, nodes, given, b, w, e);
    PlainRead(be, nodes, given, b, w, e, b.before, w.x);
    OpeningIsLinear(be, e, b, w);
    MadeValues(e, b, w);
    assert w.c1 in Swapped(w) by { AllSwapped(w); }
    SwappedValue(be, nodes, given, b, w, e, w.c1);
    BiasStays(be, nodes, given, b, w, e, b.conv1);
    RhsNamed(e, b, w);
    LinearAgrees(be, f, b.conv1, EditedInput(b, b.before, w.x), Rhs(b.conv1.inputs[1]), w.c1, Pre1(w));
    assert Edited(b, b.before).inputs[0] == EditedInput(b, b.before, w.x);
    assert b.conv1.outputs == [w.c1];
  }

  lemma AllSwapped(w: Wires)
    ensures w.c1 in Swapped(w) && w.s0 in Swapped(w) && w.s1 in Swapped(w) && w.sg in Swapped(w) && w.g in Swapped(w)
    ensures w.gate in Swapped(w) && w.a in Swapped(w)
  {}

  lemma RhsNamed(e: Env, b: Block, w: Wires)
    requires |b.conv1.inputs| >= 2 && |b.conv2.inputs| >= 2 && FreshNames(e, b, w)
    ensures Rhs(b.conv1.inputs[1]) != "" && Rhs(b.conv2.inputs[1]) != "" && Pre1(w) != "" && Pre2(w) != ""
  {
    MadeDiffer(e, b, w);
  }

  lemma InnerReads(b: Block, w: Wires, n: Node, x: string)
    requires Wired(b, w) && Shaped(b) && x != w.base && (x != w.g || !Reads(n, w.g))
    ensures EditedInput(b, n, x) == x
  {}

  lemma ClosingAgrees(be: Backend, nodes: seq<Node>, given: set<string>, b: Block, w: Wires, e: Env)
    requires Setting(be, nodes, given, b, w, e) && Holds(e, b, w) && Shaped(b)
    ensures AllAgree(be, NewValues(e, b, w), DeletingPiece(b, b.conv2))
  {
    hide SingleAssignment, DistinctOutputs, NewValues, FreshNames, Agrees, NoStrays, Swap, A.Linear, A.MatMul3,
      A.PointwiseMatrix, A.CanMatMul3, EditedInput, Swapped;
    var f := NewValues(e, b, w);
    Consequences(be, nodes, given, b, w, e);
    NamesApart(nodes, given, b, w);
    AllSwapped(w);
    InnerReads(b, w, b.conv2, w.a);
    ClosingIsLinear(be, e, b, w);
    MadeValues(e, b, w);
    SwappedValue(be, nodes, given, b, w, e, w.a);
    OldValue(e, b, w, w.y);
    BiasStays(be, nodes, given, b, w, e, b.conv2);
    RhsNamed(e, b, w);
    LinearAgrees(be, f, b.conv2, w.a, Rhs(b.conv2.inputs[1]), w.y, Pre2(w));
    assert Edited(b, b.conv2).inputs[0] == EditedInput(b, b.conv2, w.a);
    assert b.after.outputs == [w.y];
  }

  lemma SigmoidAgrees(be: Backend, nodes: seq<Node>, given: set<string>, b: Block, w: Wires, e: Env)
    requires Setting(be, nodes, given, b, w, e) && Holds(e, b, w) && Shaped(b)
    ensures Agrees(be, NewValues(e, b, w), Edited(b, b.sigmoid))
  {
    hide SingleAssignment, DistinctOutputs, NewValues, FreshNames, Agrees, NoStrays, Swap, EditedInput, Swapped, Map, UnaryOf, Zip,
      Broadcastable, BinaryOf;
    var f := NewValues(e, b, w);
    Consequences(be, nodes, given, b, w, e);
    NamesApart(nodes, given, b, w);
    AllSwapped(w);
    InnerReads(b, w, b.sigmoid, w.s1);
    GateRan(be, e, b, w);
    SwappedValue(be, nodes, given, b, w, e, w.s1);
    SwappedValue(be, nodes, given, b, w, e, w.sg);
    MapSwap(UnaryOf(be, Sigmoid), e[w.s1]);
    assert Edited(b, b.sigmoid).inputs == [w.s1];
    UnaryAgrees(be, f, Edited(b, b.sigmoid), w.s1, w.sg);
  }

  lemma GluItselfAgrees(be: Backend, nodes: seq<Node>, given: set<string>, b: Block, w: Wires, e: Env)
    requires Setting(be, nodes, given, b, w, e) && Holds(e, b, w) && Shaped(b)
    ensures Agrees(be, NewValues(e, b, w), Edited(b, b.glu))
  {
    hide SingleAssignment, DistinctOutputs, NewValues, FreshNames, Agrees, NoStrays, Swap, EditedInput, Swapped, Map, UnaryOf, Zip,
      Broadcastable, BinaryOf, Kernels;
    var f, x, y := NewValues(e, b, w), b.glu.inputs[0], b.glu.inputs[1];
    Consequences(be, nodes, given, b, w, e);
    NamesApart(nodes, given, b, w);
    AllSwapped(w);
    InnerReads(b, w, b.glu, x);
    InnerReads(b, w, b.glu, y);
    GateRan(be, e, b, w);
    SwappedValue(be, nodes, given, b, w, e, x);
    SwappedValue(be, nodes, given, b, w, e, y);
    SwappedValue(be, nodes, given, b, w, e, w.g);
    ZipSwap(BinaryOf(be, Mul), e[x], e[y]);
    assert Edited(b, b.glu).inputs == [x, y];
    BinaryAgrees(be, f, Edited(b, b.glu), x, y, w.g);
  }

  /** The transpose behind the unit gives the readers of its output what they read before. */
  lemma GluAgrees(be: Backend, nodes: seq<Node>, given: set<string>, b: Block, w: Wires, e: Env)
    requires Setting(be, nodes, given, b, w, e) && Holds(e, b, w) && Shaped(b)
    ensures AllAgree(be, NewValues(e, b, w), DeletingPiece(b, b.glu))
  {
    hide SingleAssignment, DistinctOutputs, NewValues, FreshNames, Agrees, NoStrays, Swap, EditedInput, Swapped, Edited, Kernels;
    var f := NewValues(e, b, w);
    Consequences(be, nodes, given, b, w, e);
    AllSwapped(w);
    GluItselfAgrees(be, nodes, given, b, w, e);
    SwappedValue(be, nodes, given, b, w, e, w.g);
    MadeValues(e, b, w);
    SwapSwap(e[w.g]);
    CfIs(b, w);
    TransposeAgrees(be, f, b.conv1.name + "/TransposeForDepthwise", w.g, Cf(w));
  }

  lemma GateAgrees(be: Backend, nodes: seq<Node>, given: set<string>, b: Block, w: Wires, e: Env)
    requires Setting(be, nodes, given, b, w, e) && Holds(e, b, w) && Shaped(b)
    ensures Agrees(be, NewValues(e, b, w), Edited(b, b.gate))
  {
    hide SingleAssignment, DistinctOutputs, NewValues, FreshNames, Agrees, NoStrays, Swap, Swapped, Map, UnaryOf, Zip,
      Broadcastable, BinaryOf, Kernels;
    var f := NewValues(e, b, w);
    Consequences(be, nodes, given, b, w, e);
    NamesApart(nodes, given, b, w);
    AllSwapped(w);
    ActivationRan(be, e, b, w);
    HStays(be, nodes, given, b, w, e);
    SwappedValue(be, nodes, given, b, w, e, w.gate);
    MapSwap(UnaryOf(be, Sigmoid), e[w.base]);
    SwapSwap(e[w.h]);
    assert Edited(b, b.gate).inputs == [w.h];
    UnaryAgrees(be, f, Edited(b, b.gate), w.h, w.gate);
  }

  /** The tensor in front of the removed transpose stays as it was. */
  lemma HStays(be: Backend, nodes: seq<Node>, given: set<string>, b: Block, w: Wires, e: Env)
    requires Setting(be, nodes, given, b, w, e) && Holds(e, b, w) && Shaped(b)
    ensures w.h in e && w.h in NewValues(e, b, w) && NewValues(e, b, w)[w.h] == e[w.h]
  {
    hide SingleAssignment, DistinctOutputs, NewValues, FreshNames, Agrees, NoStrays;
    PlainRead(be, nodes, given, b, w, e, b.middle.value, w.h);
    SeesOnlyGlu(nodes, given, b, w, b.middle.value, w.h);
    OldValue(e, b, w, w.h);
  }

  lemma ActAgrees(be: Backend, nodes: seq<Node>, given: set<string>, b: Block, w: Wires, e: Env)
    requires Setting(be, nodes, given, b, w, e) && Holds(e, b, w) && Shaped(b)
    ensures Agrees(be, NewValues(e, b, w), Edited(b, b.act))
  {
    hide SingleAssignment, DistinctOutputs, NewValues, FreshNames, Agrees, NoStrays, Swap, Swapped, Map, UnaryOf, Zip,
      Broadcastable, BinaryOf, Kernels;
    var f, mul := NewValues(e, b, w), BinaryOf(be, Mul);
    Consequences(be, nodes, given, b, w, e);
    NamesApart(nodes, given, b, w);
    AllSwapped(w);
    ActivationRan(be, e, b, w);
    HStays(be, nodes, given, b, w, e);
    SwappedValue(be, nodes, given, b, w, e, w.gate);
    SwappedValue(be, nodes, given, b, w, e, w.a);
    SwapSwap(e[w.h]);
    ZipSwap(mul, e[b.act.inputs[0]], e[b.act.inputs[1]]);
    var x := if b.act.inputs[0] == w.base then w.h else w.gate;
    var y := if b.act.inputs[1] == w.base then w.h else w.gate;
    assert Edited(b, b.act).inputs == [x, y];
    BinaryAgrees(be, f, Edited(b, b.act), x, y, w.a);
  }

  lemma SizesAreElsewhere(e: Env, n: Node, i: nat)
    requires CutsChannels(e, n) && 1 <= i < |n.inputs| && n.inputs[i] != ""
    ensures n.inputs[i] != n.inputs[0]
  {
    var xs := Operands(e, n.inputs);
    if |xs| == 2 { assert xs[1] == Given(e[n.inputs[1]]); }
  }

  lemma MovedSplitAgrees(be: Backend, nodes: seq<Node>, given: set<string>, b: Block, w: Wires, e: Env)
    requires Setting(be, nodes, given, b, w, e) && Holds(e, b, w) && Shaped(b)
    ensures Agrees(be, NewValues(e, b, w), Edited(b, b.split))
  {
    hide SingleAssignment, DistinctOutputs, NewValues, FreshNames, Agrees, NoStrays, Swap, Swapped, EditedInput, FirstSize, Kernels;
    var f, n := NewValues(e, b, w), b.split;
    Consequences(be, nodes, given, b, w, e);
    NamesApart(nodes, given, b, w);
    AllSwapped(w);
    SplitRan(be, e, b, w);
    InnerReads(b, w, n, w.c1);
    SwappedValue(be, nodes, given, b, w, e, w.c1);
    SwappedValue(be, nodes, given, b, w, e, w.s0);
    SwappedValue(be, nodes, given, b, w, e, w.s1);
    SizesStay(be, nodes, given, b, w, e);
    SplitAgrees(be, e, f, n, Edited(b, n));
  }

  lemma SizesStay(be: Backend, nodes: seq<Node>, given: set<string>, b: Block, w: Wires, e: Env)
    requires Setting(be, nodes, given, b, w, e) && Holds(e, b, w) && Shaped(b) && CutsChannels(e, b.split)
    requires w.c1 in NewValues(e, b, w) && EditedInput(b, b.split, w.c1) == w.c1
    ensures var f, n' := NewValues(e, b, w), Edited(b, b.split);
      Ready(f, n'.inputs) && |n'.inputs| == |b.split.inputs| && Sizes(f, n') == Sizes(e, b.split)
  {
    hide SingleAssignment, DistinctOutputs, NewValues, FreshNames, Agrees, NoStrays, Swap, Swapped, EditedInput, FirstSize, Kernels,
      CutsChannels;
    var f, n, n' := NewValues(e, b, w), b.split, Edited(b, b.split);
    forall i | 1 <= i < |n.inputs| && n.inputs[i] != ""
      ensures n'.inputs[i] != "" && n'.inputs[i] in f && n.inputs[i] in e && f[n'.inputs[i]] == e[n.inputs[i]]
    {
      SizesAreElsewhere(e, n, i);
      assert Reads(n, n.inputs[i]);
      PlainRead(be, nodes, given, b, w, e, n, n.inputs[i]);
    }
    forall i | 1 <= i < |n.inputs| && n.inputs[i] == "" ensures n'.inputs[i] == "" { NothingStays(b, w, n); }
  }

  lemma NothingStays(b: Block, w: Wires, n: Node)
    requires Wired(b, w) && Shaped(b)
    ensures EditedInput(b, n, "") == ""
  {}

  /** Any other node reads, under the edited names, exactly what it read before. */
  lemma OtherAgrees(be: Backend, nodes: seq<Node>, given: set<string>, b: Block, w: Wires, e: Env, n: Node)
    requires Setting(be, nodes, given, b, w, e) && Holds(e, b, w) && Shaped(b) && n in nodes && n !in Parts(b)
    ensures Agrees(be, NewValues(e, b, w), Edited(b, n))
  {
    hide SingleAssignment, DistinctOutputs, NewValues, FreshNames, NoStrays, Swapped, EditedInput, Kernels, Run;
    var f, n' := NewValues(e, b, w), Edited(b, n);
    var k :| 0 <= k < |nodes| && nodes[k] == n;
    assert Agrees(be, e, nodes[k]);
    forall i | 0 <= i < |n.inputs| && n.inputs[i] != ""
      ensures n'.inputs[i] != "" && n'.inputs[i] in f && n.inputs[i] in e && f[n'.inputs[i]] == e[n.inputs[i]]
    {
      assert Reads(n, n.inputs[i]);
      PlainRead(be, nodes, given, b, w, e, n, n.inputs[i]);
    }
    forall i | 0 <= i < |n.inputs| && n.inputs[i] == "" ensures n'.inputs[i] == "" { NothingStays(b, w, n); }
    assert Operands(f, n'.inputs) == Operands(e, n.inputs);
    forall i | 0 <= i < |n.outputs| && n.outputs[i] != "" ensures n.outputs[i] in f && f[n.outputs[i]] == e[n.outputs[i]] {
      OtherOutput(nodes, given, b, w, n, n.outputs[i]);
      OldValue(e, b, w, n.outputs[i]);
    }
  }

  lemma OtherOutput(nodes: seq<Node>, given: set<string>, b: Block, w: Wires, n: Node, x: string)
    requires Clean(nodes, given, b, w) && n in nodes && n !in Parts(b) && Produces(n, x)
    ensures x !in Swapped(w)
  {
    hide NoStrays, DistinctOutputs, UnitConv;
    OnlyMaker(nodes, given, n, x);
    assert w.c1 in b.conv1.outputs && w.s0 in b.split.outputs && w.s1 in b.split.outputs && w.sg in b.sigmoid.outputs;
    assert w.g in b.glu.outputs && w.gate in b.gate.outputs && w.a in b.act.outputs;
  }

  /** Every node that takes the place of a node of the old list agrees with the new values. */
  lemma PieceAgrees(be: Backend, nodes: seq<Node>, given: set<string>, b: Block, w: Wires, e: Env, n: Node)
    requires Setting(be, nodes, given, b, w, e) && Holds(e, b, w) && Shaped(b) && n in nodes
    ensures AllAgree(be, NewValues(e, b, w), DeletingPiece(b, n))
  {
    hide SingleAssignment, DistinctOutputs, NewValues, FreshNames, NoStrays, Swapped, Agrees, Kernels, Edited, LinearPart;
    if n == b.before {
      OpeningAgrees(be, nodes, given, b, w, e);
    } else if n == b.glu {
      GluAgrees(be, nodes, given, b, w, e);
    } else if n == b.conv2 {
      ClosingAgrees(be, nodes, given, b, w, e);
    } else if n == b.split {
      MovedSplitAgrees(be, nodes, given, b, w, e);
    } else if n == b.sigmoid {
      SigmoidAgrees(be, nodes, given, b, w, e);
    } else if n == b.gate {
      GateAgrees(be, nodes, given, b, w, e);
    } else if n == b.act {
      ActAgrees(be, nodes, given, b, w, e);
    } else if n !in Parts(b) {
      OtherAgrees(be, nodes, given, b, w, e, n);
    }
  }
}
