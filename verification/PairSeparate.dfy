/** Blocks that keep out of each other's way: the search for one looks at nothing that lowering another changes, so that a
    condition on the graph at the start is enough for every turn of the pass. */
module PairSeparate {
  import opened Wrappers
  import opened Tensors
  import opened OnnxGraph
  import opened AffineBlocks
  import opened AffineLowering
  import opened Lookups
  import opened AffineRegions
  import opened GraphAgreement
  import opened PairLowering
  import opened PairMeaning
  import opened PairDeleting
  import opened PairTheorem
  import opened PairKeeping
  import opened PairSearch
  import opened PairPasses
  import A = AffineTensors

  // ---------------------------------------------------------------- what lowering a block changes

  predicate Changes(b: Block, n: Node)
    requires Ready1(b)
  {
    Piece1(b, n) != [n]
  }

  function Mentions(n: Node): set<string> { (set x | x in n.inputs) + (set x | x in n.outputs) }

  function MentionedBy(nodes: seq<Node>): set<string> {
    if nodes == [] then {} else MentionedBy(nodes[..|nodes| - 1]) + Mentions(nodes[|nodes| - 1])
  }

  /** The tensors that a changed node reads or produces, before or after. */
  function Affected(nodes: seq<Node>, b: Block): set<string>
    requires Ready1(b)
  {
    if nodes == [] then {}
    else
      var n := nodes[|nodes| - 1];
      Affected(nodes[..|nodes| - 1], b) + if Changes(b, n) then Mentions(n) + MentionedBy(Piece1(b, n)) else {}
  }

  lemma {:induction false} MentionedIn(nodes: seq<Node>, k: nat)
    requires k < |nodes|
    ensures Mentions(nodes[k]) <= MentionedBy(nodes)
  {
    if k < |nodes| - 1 { MentionedIn(nodes[..|nodes| - 1], k); }
  }

  lemma {:induction false} ChangedIsAffected(nodes: seq<Node>, b: Block, n: Node)
    requires Ready1(b) && n in nodes && Changes(b, n)
    ensures Mentions(n) <= Affected(nodes, b) && MentionedBy(Piece1(b, n)) <= Affected(nodes, b)
  {
    hide Changes, Piece1, Mentions, MentionedBy;
    var m := |nodes| - 1;
    if n != nodes[m] {
      assert n in nodes[..m];
      ChangedIsAffected(nodes[..m], b, n);
    }
  }

  lemma {:induction false} AffectedFrom(nodes: seq<Node>, b: Block, x: string) returns (n: Node)
    requires Ready1(b) && x in Affected(nodes, b)
    ensures n in nodes && Changes(b, n) && x in Mentions(n) + MentionedBy(Piece1(b, n))
  {
    hide Changes, Piece1, Mentions, MentionedBy;
    var m := |nodes| - 1;
    if x in Affected(nodes[..m], b) { n := AffectedFrom(nodes[..m], b, x); } else { n := nodes[m]; }
  }

  /** A changed node reads or produces something. */
  lemma ChangedMentions(b: Block, n: Node)
    requires Ready1(b) && Changes(b, n)
    ensures Mentions(n) != {}
  {
    if n.inputs == [] && n.outputs == [] {
      if b.middle.Some? { EditsNothing(b, n); }
    } else if n.inputs != [] {
      assert n.inputs[0] in Mentions(n);
    } else {
      assert n.outputs[0] in Mentions(n);
    }
  }

  lemma EditsNothing(b: Block, n: Node)
    requires Ready1(b) && b.middle.Some? && n.inputs == [] && n != b.split
    ensures Edited(b, n) == n
  {}

  // ---------------------------------------------------------------- lookups of other tensors stay

  lemma {:induction false} ProducerAppend(ns: seq<Node>, ms: seq<Node>, x: string)
    ensures Producer(ns + ms, x) == if Producer(ms, x).Some? then Producer(ms, x) else Producer(ns, x)
    decreases |ms|
  {
    if ms == [] {
      assert ns + ms == ns;
    } else {
      assert (ns + ms)[..|ns + ms| - 1] == ns + ms[..|ms| - 1];
      ProducerAppend(ns, ms[..|ms| - 1], x);
    }
  }

  lemma {:induction false} ConsumersAppend(ns: seq<Node>, ms: seq<Node>, x: string)
    ensures Consumers(ns + ms, x) == Consumers(ns, x) + Consumers(ms, x)
    decreases |ms|
  {
    if ms == [] {
      assert ns + ms == ns;
    } else {
      assert (ns + ms)[..|ns + ms| - 1] == ns + ms[..|ms| - 1];
      ConsumersAppend(ns, ms[..|ms| - 1], x);
    }
  }

  lemma {:induction false} NotMentioned(nodes: seq<Node>, x: string)
    requires x !in MentionedBy(nodes)
    ensures Producer(nodes, x).None? && Consumers(nodes, x) == []
  {
    if nodes != [] {
      NotMentioned(nodes[..|nodes| - 1], x);
      UsesNothing(nodes[|nodes| - 1].inputs, x);
    }
  }

  lemma MentionedByOne(n: Node)
    ensures MentionedBy([n]) == Mentions(n)
  {
    assert [n][..0] == [];
  }

  lemma {:induction false} LookupsStay(nodes: seq<Node>, b: Block, k: nat, x: string)
    requires Ready1(b) && k <= |nodes| && x !in Affected(nodes[..k], b)
    ensures Producer(Rebuilt(b, nodes, k), x) == Producer(nodes[..k], x)
    ensures Consumers(Rebuilt(b, nodes, k), x) == Consumers(nodes[..k], x)
  {
    hide Piece1, Mentions, MentionedBy, Producer, Consumers;
    if k == 0 {
      assert nodes[..0] == [] && Rebuilt(b, nodes, 0) == [];
    } else {
      var n := nodes[k - 1];
      assert nodes[..k][..k - 1] == nodes[..k - 1];
      assert nodes[..k] == nodes[..k - 1] + [n];
      LookupsStay(nodes, b, k - 1, x);
      ProducerAppend(Rebuilt(b, nodes, k - 1), Piece1(b, n), x);
      ConsumersAppend(Rebuilt(b, nodes, k - 1), Piece1(b, n), x);
      ProducerAppend(nodes[..k - 1], [n], x);
      ConsumersAppend(nodes[..k - 1], [n], x);
      if Changes(b, n) {
        MentionedByOne(n);
        NotMentioned([n], x);
        NotMentioned(Piece1(b, n), x);
      }
    }
  }

  ghost predicate SameLookups(a: seq<Node>, b: seq<Node>, names: set<string>) {
    forall x | x in names :: Producer(a, x) == Producer(b, x) && Consumers(a, x) == Consumers(b, x)
  }

  lemma LoweredLookups(m: Model, b: Block, names: set<string>)
    requires CanLower(m, b) && names !! Affected(m.nodes, b)
    ensures SameLookups(m.nodes, Lowered(m, b).nodes, names)
  {
    hide Producer, Consumers, Affected, CanLower, Piece1, NewInits;
    LowerReady(m, b);
    assert m.nodes[..|m.nodes|] == m.nodes;
    forall x | x in names
      ensures Producer(m.nodes, x) == Producer(Lowered(m, b).nodes, x) && Consumers(m.nodes, x) == Consumers(Lowered(m, b).nodes, x)
    {
      LookupsStay(m.nodes, b, |m.nodes|, x);
    }
  }

  lemma LowerReady(m: Model, b: Block)
    requires CanLower(m, b)
    ensures Ready1(b) && Lowered(m, b).nodes == Rebuilt(b, m.nodes, |m.nodes|)
  {}

  // ---------------------------------------------------------------- names of nodes

  /** The names the search asks for end like this, and no made-up name of a node does. */
  predicate EndsInV(s: string) { s != "" && s[|s| - 1] == 'v' }

  lemma {:induction false} ReplacedEndsInV(s: string, from: string, to: string)
    requires EndsInV(s) && EndsInV(from) && EndsInV(to)
    ensures EndsInV(ReplaceAll(s, from, to))
    decreases |s|
  {
    if from <= s {
      var rest := s[|from|..];
      if rest != "" { ReplacedEndsInV(rest, from, to); }
    } else {
      var rest := s[1..];
      if rest != "" { ReplacedEndsInV(rest, from, to); }
    }
  }

  lemma PairEndsInV(name: string)
    requires EndsInV(name)
    ensures EndsInV(ReplaceAll(name, CONV1, CONV2))
  {
    ReplacedEndsInV(name, CONV1, CONV2);
  }

  lemma {:induction false} FirstAppend(ns: seq<Node>, ms: seq<Node>, p: Node -> bool)
    ensures First(ns + ms, p) == if First(ns, p).Some? then First(ns, p) else First(ms, p)
    decreases |ns|
  {
    if ns == [] {
      assert ns + ms == ms;
    } else {
      assert (ns + ms)[1..] == ns[1..] + ms;
      FirstAppend(ns[1..], ms, p);
    }
  }

  lemma OneCalled(n: Node, x: string)
    ensures First([n], Called(x)) == if n.name == x then Some(n) else None
  {}

  lemma MadeUpName(prefix: string, suffix: string, x: string)
    requires EndsInV(x) && suffix != "" && suffix[|suffix| - 1] != 'v'
    ensures prefix + suffix != x
  {
    var s := prefix + suffix;
    assert s[|s| - 1] == suffix[|suffix| - 1];
  }

  predicate NoneCalled(nodes: seq<Node>, x: string) { forall k | 0 <= k < |nodes| :: nodes[k].name != x }

  lemma {:induction false} NoneFound(nodes: seq<Node>, x: string)
    requires NoneCalled(nodes, x)
    ensures First(nodes, Called(x)).None?
  {
    if nodes != [] { NoneFound(nodes[1..], x); }
  }

  lemma LinearNames(conv: Node, input: string, rhs: string, outputs: seq<string>, pre: string, x: string)
    requires |conv.inputs| >= 2 && outputs != [] && EndsInV(x)
    ensures NoneCalled(LinearPart(conv, input, rhs, outputs, pre), x)
  {
    MadeUpName(conv.name, "/MatMul", x);
    MadeUpName(conv.name, "/BiasAdd", x);
  }

  /** The replacement of a node of another name has no node of that name. */
  lemma PieceNames(b: Block, n: Node, x: string)
    requires Ready1(b) && EndsInV(x) && n.name != x
    ensures NoneCalled(Piece1(b, n), x)
  {
    hide LinearPart, EditedInput;
    MadeUpName(b.conv1.name, "/MatMul", x);
    MadeUpName(b.conv1.name, "/BiasAdd", x);
    MadeUpName(b.conv2.name, "/MatMul", x);
    MadeUpName(b.conv2.name, "/BiasAdd", x);
    MadeUpName(b.conv1.name, "/TransposeForDepthwise", x);
    MadeUpName(b.conv2.name, "/TransposeForMatMul", x);
    if b.middle.Some? {
      if n == b.before {
        LinearNames(b.conv1, Edited(b, b.before).inputs[0], Rhs(Weight1(b)), b.conv1.outputs, b.conv1.outputs[0] + "__pre_bias", x);
      } else if n == b.conv2 {
        LinearNames(b.conv2, Edited(b, b.conv2).inputs[0], Rhs(Weight2(b)), b.after.outputs, b.after.outputs[0] + "__pre_bias", x);
      }
    }
  }

  lemma {:induction false} FirstOfPrefix(nodes: seq<Node>, k: nat, p: Node -> bool)
    requires k <= |nodes| && First(nodes[..k], p).Some?
    ensures First(nodes, p) == First(nodes[..k], p)
  {
    assert nodes == nodes[..k] + nodes[k..];
    FirstAppend(nodes[..k], nodes[k..], p);
  }

  /** Looking up a node by such a name finds the same node, if that node is not changed. */
  lemma {:induction false} FirstStays(nodes: seq<Node>, b: Block, k: nat, x: string)
    requires Ready1(b) && k <= |nodes| && EndsInV(x)
    requires First(nodes, Called(x)).Some? ==> !Changes(b, First(nodes, Called(x)).value)
    ensures First(Rebuilt(b, nodes, k), Called(x)) == First(nodes[..k], Called(x))
  {
    hide Piece1, First, Called;
    if k == 0 {
      assert nodes[..0] == [] && Rebuilt(b, nodes, 0) == [];
    } else {
      var n := nodes[k - 1];
      FirstStays(nodes, b, k - 1, x);
      assert nodes[..k] == nodes[..k - 1] + [n];
      FirstAppend(nodes[..k - 1], [n], Called(x));
      FirstAppend(Rebuilt(b, nodes, k - 1), Piece1(b, n), Called(x));
      OneCalled(n, x);
      if First(nodes[..k - 1], Called(x)).None? {
        if n.name == x {
          FirstOfPrefix(nodes, k, Called(x));
        } else {
          PieceNames(b, n, x);
          NoneFound(Piece1(b, n), x);
        }
      }
    }
  }

  // ---------------------------------------------------------------- what the search looks at

  function Set(names: seq<string>): set<string> { set x | x in names }

  /** What a node looked up by name is known by: its outputs, its signal and its kernel. */
  function Core(n: Node): set<string> {
    if n.outputs == [] then Mentions(n)
    else Set(n.outputs) + (if n.inputs == [] then {} else {n.inputs[0]}) + (if |n.inputs| < 2 then {} else {n.inputs[1], Rhs(n.inputs[1])})
  }

  function LooksGlu(nodes: seq<Node>, conv1: Node): set<string> {
    if conv1.outputs == [] then {} else
    var readers := Consumers(nodes, conv1.outputs[0]);
    if |readers| != 1 || !readers[0].op.Split? then {} else
    var split := readers[0];
    if split.op.along != 1 || |split.outputs| != 2 then {} else
    var sigmoid := First(Consumers(nodes, split.outputs[1]), (n: Node) => n.op == Unary(Sigmoid) && |n.outputs| == 1);
    Set(split.outputs) + (if sigmoid.None? then {} else Set(sigmoid.value.outputs)) + LooksGluOut(nodes, conv1)
  }

  function LooksGluOut(nodes: seq<Node>, conv1: Node): set<string> {
    var glu := FindGlu(nodes, conv1);
    if glu.None? then {} else Set(glu.value.2.outputs)
  }

  function LooksActivation(nodes: seq<Node>, conv2: Node): set<string> {
    if conv2.inputs == [] then {} else
    var act := Producer(nodes, conv2.inputs[0]);
    if act.None? || act.value.op != Binary(Mul) then {} else
    var gate := SigmoidInput(nodes, act.value.inputs);
    Set(act.value.inputs) + Set(act.value.outputs)
      + (if gate.None? || gate.value.inputs == [] then {} else {gate.value.inputs[0]} + Set(gate.value.outputs))
  }

  function Second(nodes: seq<Node>, conv1: Node): Option<Node> { First(nodes, Called(ReplaceAll(conv1.name, CONV1, CONV2))) }

  /** The tensors whose producers and readers the search for a block looks up, and those the block is read through. */
  function Looks(nodes: seq<Node>, conv1: Node): set<string> {
    var before := if conv1.inputs == [] then None else Producer(nodes, conv1.inputs[0]);
    var second := Second(nodes, conv1);
    Core(conv1) + (if before.None? then {} else Set(before.value.outputs)) + LooksGlu(nodes, conv1)
      + (if second.None? then {} else Core(second.value) + LooksActivation(nodes, second.value))
  }

  lemma {:induction false} SigmoidInputSame(a: seq<Node>, b: seq<Node>, inputs: seq<string>)
    requires SameLookups(a, b, Set(inputs))
    ensures SigmoidInput(a, inputs) == SigmoidInput(b, inputs)
  {
    hide Producer, Consumers;
    if inputs != [] {
      assert Set(inputs[1..]) <= Set(inputs);
      assert inputs[0] in Set(inputs);
      SigmoidInputSame(a, b, inputs[1..]);
    }
  }

  lemma GluSame(a: seq<Node>, b: seq<Node>, conv1: Node)
    requires SameLookups(a, b, LooksGlu(a, conv1) + Core(conv1))
    ensures FindGlu(a, conv1) == FindGlu(b, conv1) && LooksGlu(a, conv1) == LooksGlu(b, conv1)
  {
    hide Producer, Consumers, First, Mentions;
    if conv1.outputs != [] {
      assert conv1.outputs[0] in Core(conv1);
      var readers := Consumers(a, conv1.outputs[0]);
      if |readers| == 1 && readers[0].op.Split? && readers[0].op.along == 1 && |readers[0].outputs| == 2 {
        var split := readers[0];
        assert split.outputs[0] in Set(split.outputs) && split.outputs[1] in Set(split.outputs);
      }
    }
  }

  lemma ActivationSame(a: seq<Node>, b: seq<Node>, conv2: Node)
    requires SameLookups(a, b, LooksActivation(a, conv2) + Core(conv2))
    ensures FindActivation(a, conv2) == FindActivation(b, conv2) && LooksActivation(a, conv2) == LooksActivation(b, conv2)
  {
    hide Producer, Consumers, SigmoidInput;
    if conv2.inputs != [] {
      assert conv2.inputs[0] in Core(conv2);
      var act := Producer(a, conv2.inputs[0]);
      if act.Some? && act.value.op == Binary(Mul) { SigmoidInputSame(a, b, act.value.inputs); }
    }
  }

  /** Whether a convolution's constants are there does not change. */
  predicate SameConstants(a: Env, b: Env, n: Node) {
    forall i | 1 <= i < |n.inputs| :: n.inputs[i] in a <==> n.inputs[i] in b
  }

  /** The search finds the same block, and looks at the same tensors. */
  lemma FindSame(a: seq<Node>, b: seq<Node>, x: Env, y: Env, conv1: Node)
    requires SameLookups(a, b, Looks(a, conv1)) && Second(a, conv1) == Second(b, conv1)
    requires SameConstants(x, y, conv1) && (Second(a, conv1).Some? ==> SameConstants(x, y, Second(a, conv1).value))
    ensures FindBlock(a, x, conv1) == FindBlock(b, y, conv1) && Looks(a, conv1) == Looks(b, conv1)
  {
    hide Producer, Consumers, First, FindGlu, FindActivation, LooksGlu, LooksActivation, Mentions, ReplaceAll;
    GluSame(a, b, conv1);
    if conv1.inputs != [] { BeforeSame(a, b, conv1); }
    if Second(a, conv1).Some? {
      var conv2 := Second(a, conv1).value;
      ActivationSame(a, b, conv2);
      if FindActivation(a, conv2).Some? { BaseSame(a, b, conv2); }
      if conv2.outputs != [] { assert conv2.outputs[0] in Core(conv2); }
    }
  }

  lemma BeforeSame(a: seq<Node>, b: seq<Node>, conv1: Node)
    requires SameLookups(a, b, Looks(a, conv1)) && conv1.inputs != []
    ensures Producer(a, conv1.inputs[0]) == Producer(b, conv1.inputs[0])
    ensures var before := Producer(a, conv1.inputs[0]);
      before.Some? && before.value.outputs != [] ==> Consumers(a, before.value.outputs[0]) == Consumers(b, before.value.outputs[0])
  {
    hide Producer, Consumers, First, LooksGlu, LooksActivation;
    assert conv1.inputs[0] in Core(conv1);
  }

  /** What is looked up about the activation's own input. */
  lemma BaseSame(a: seq<Node>, b: seq<Node>, conv2: Node)
    requires SameLookups(a, b, LooksActivation(a, conv2) + Core(conv2)) && FindActivation(a, conv2).Some?
    ensures var gate := FindActivation(a, conv2).value.1;
      Producer(a, gate.inputs[0]) == Producer(b, gate.inputs[0]) && Consumers(a, gate.inputs[0]) == Consumers(b, gate.inputs[0])
  {
    hide Producer, Consumers, SigmoidInput;
  }

  /** What a found block says about the search. */
  lemma FoundBy(nodes: seq<Node>, arrays: Env, conv1: Node, b: Block)
    requires FindBlock(nodes, arrays, conv1) == Some(b)
    ensures b.conv1 == conv1 && Second(nodes, conv1) == Some(b.conv2) && b.before in nodes
    ensures conv1.inputs != [] && Producer(nodes, conv1.inputs[0]) == Some(b.before)
    ensures FindGlu(nodes, conv1) == Some((b.split, b.sigmoid, b.glu)) && FindActivation(nodes, b.conv2) == Some((b.act, b.gate))
  {
    hide Producer, Consumers, First, FindGlu, FindActivation, ReplaceAll;
    var glu, activation := FindGlu(nodes, conv1).value, FindActivation(nodes, b.conv2).value;
    assert glu == (glu.0, glu.1, glu.2) && activation == (activation.0, activation.1);
    Produced(nodes, conv1.inputs[0]);
  }

  // ---------------------------------------------------------------- constants of other blocks stay

  predicate Kinds(b: Block) { b.before.op.Transpose? && b.conv1.op.Conv? && b.conv2.op.Conv? }

  lemma ConvsChange(b: Block)
    requires Ready1(b) && Kinds(b)
    ensures Changes(b, b.before) && Changes(b, b.conv1) && Changes(b, b.conv2)
  {}

  lemma {:induction false} MentionedBySplit(nodes: seq<Node>, x: string)
    requires x in MentionedBy(nodes)
    ensures exists k: nat :: k < |nodes| && x in Mentions(nodes[k])
  {
    hide Mentions;
    var m := |nodes| - 1;
    if x in Mentions(nodes[m]) {
    } else {
      MentionedBySplit(nodes[..m], x);
      var k: nat :| k < m && x in Mentions(nodes[..m][k]);
      assert nodes[k] == nodes[..m][k];
    }
  }

  /** The first node of a linear part reads the new constant. */
  lemma LinearMentions(conv: Node, input: string, rhs: string, outputs: seq<string>, pre: string)
    requires |conv.inputs| >= 2 && outputs != []
    ensures rhs in MentionedBy(LinearPart(conv, input, rhs, outputs, pre))
  {
    var part := LinearPart(conv, input, rhs, outputs, pre);
    MentionedIn(part, 0);
    assert part[0].inputs[1] == rhs;
  }

  lemma RhsMentioned(b: Block)
    requires Ready1(b) && b.conv2 != b.conv1 && b.conv2 != b.before && b.conv2 != b.after
    requires b.middle.Some? ==> b.conv2 != b.middle.value && b.conv2 != b.glu
    ensures Rhs(Weight1(b)) in MentionedBy(Piece1(b, b.before)) && Rhs(Weight2(b)) in MentionedBy(Piece1(b, b.conv2))
  {
    hide LinearPart, Edited, MentionedBy;
    if b.middle.None? {
      var one, two := KeepingPiece(b, b.before), KeepingPiece(b, b.conv2);
      MentionedIn(one, 0);
      MentionedIn(two, 1);
      assert one[0].inputs[1] == Rhs(Weight1(b)) && two[1].inputs[1] == Rhs(Weight2(b));
    } else {
      IsDeleting(b, b.before);
      IsDeleting(b, b.conv2);
      EditedLength(b, b.before);
      EditedLength(b, b.conv2);
      LinearMentions(b.conv1, Edited(b, b.before).inputs[0], Rhs(Weight1(b)), b.conv1.outputs, b.conv1.outputs[0] + "__pre_bias");
      LinearMentions(b.conv2, Edited(b, b.conv2).inputs[0], Rhs(Weight2(b)), b.after.outputs, b.after.outputs[0] + "__pre_bias");
    }
  }

  lemma EditedLength(b: Block, n: Node)
    requires Shaped(b) && b.middle.Some?
    ensures |Edited(b, n).inputs| == |n.inputs|
  {}

  /** A block that a turn lowers. */
  ghost predicate Lowers(be: Backend, m: Model, inputs: Env, b: Block, e: Env) {
    && Running(be, m, inputs, e) && Found(be, m, inputs.Keys + Arrays(m.inits).Keys, b.conv1, b, e) && Free(e, b) && CanLower(m, b)
  }

  lemma KernelsAffected(nodes: seq<Node>, b: Block)
    requires Ready1(b) && Kinds(b) && b.before in nodes && b.conv1 in nodes && b.conv2 in nodes
    requires b.conv2 != b.conv1 && b.conv2 != b.before && b.conv2 != b.after
    requires b.middle.Some? ==> b.conv2 != b.middle.value && b.conv2 != b.glu
    ensures {Weight1(b), Weight2(b), Rhs(Weight1(b)), Rhs(Weight2(b))} <= Affected(nodes, b)
  {
    hide Affected, Mentions, MentionedBy, Piece1, Rhs, Changes;
    ConvsChange(b);
    RhsMentioned(b);
    ChangedIsAffected(nodes, b, b.before);
    ChangedIsAffected(nodes, b, b.conv1);
    ChangedIsAffected(nodes, b, b.conv2);
    MentionsInput(b.conv1, 1);
    MentionsInput(b.conv2, 1);
  }

  /** Its two kernels and the two matrices in their place are affected. */
  lemma ConstantsAffected(be: Backend, m: Model, inputs: Env, b: Block, e: Env)
    requires Lowers(be, m, inputs, b, e)
    ensures Kinds(b) && {Weight1(b), Weight2(b), Rhs(Weight1(b)), Rhs(Weight2(b))} <= Affected(m.nodes, b)
  {
    hide Affected, Running, Found, Free, Rhs, PointwiseKernel, Arrays;
    BlockKinds(be, m, inputs.Keys + Arrays(m.inits).Keys, b, e);
    KernelsAffected(m.nodes, b);
  }

  lemma MentionsInput(n: Node, i: nat)
    requires i < |n.inputs|
    ensures n.inputs[i] in Mentions(n)
  {}

  lemma BlockKinds(be: Backend, m: Model, given: set<string>, b: Block, e: Env)
    requires Found(be, m, given, b.conv1, b, e)
    ensures Kinds(b) && b.before in m.nodes && b.conv1 in m.nodes && b.conv2 in m.nodes && b.after in m.nodes
    ensures b.conv2 != b.conv1 && b.conv2 != b.before && b.conv2 != b.after
    ensures b.middle.Some? ==> b.conv2 != b.middle.value && b.conv2 != b.glu
  {
    hide Regular, Producer, Consumers, LowerPair, Arrays, ReadOnlyBy, FindBlock;
    EndsFound(be, m, given, b.conv1, b, e);
    if b.middle.Some? {
      GluFound(be, m, given, b.conv1, b, e);
      ActivationFound(be, m, given, b.conv1, b, e);
    }
  }

  /** The constants after the turn: nothing changes outside what is affected. */
  lemma ConstantsStay(be: Backend, m: Model, inputs: Env, b: Block, e: Env, x: string)
    requires Lowers(be, m, inputs, b, e) && x !in {Weight1(b), Weight2(b), Rhs(Weight1(b)), Rhs(Weight2(b))}
    ensures var before, after := Arrays(m.inits), Arrays(Lowered(m, b).inits);
      (x in before <==> x in after) && (x in before ==> before[x] == after[x])
  {
    hide Running, Found, Free, Rhs, PointwiseKernel, Arrays, NewInits, A.PointwiseMatrix;
    KernelRanks(m, b);
    NewArrays(m.inits, b, Arrays(m.inits)[Weight1(b)], Arrays(m.inits)[Weight2(b)]);
  }

  lemma KernelRanks(m: Model, b: Block)
    requires CanLower(m, b)
    ensures Rank(Arrays(m.inits)[Weight1(b)], 3) && Rank(Arrays(m.inits)[Weight2(b)], 3)
  {}

  /** Who reads the kernels, and that the made-up names of the matrices are free. */
  lemma KernelReaders(be: Backend, m: Model, inputs: Env, b: Block, e: Env)
    requires Lowers(be, m, inputs, b, e)
    ensures Ready1(b) && Changes(b, b.conv1) && Changes(b, b.conv2)
    ensures ReadOnlyBy(m.nodes, Weight1(b), {b.conv1}) && ReadOnlyBy(m.nodes, Weight2(b), {b.conv2})
    ensures {Rhs(Weight1(b)), Rhs(Weight2(b))} !! e.Keys + {""}
  {
    hide Running, Found, Free, Rhs, PointwiseKernel, Arrays, ReadOnlyBy, Changes;
    var given := inputs.Keys + Arrays(m.inits).Keys;
    BlockKinds(be, m, given, b, e);
    ConvsChange(b);
    WeightsFound(be, m, given, b.conv1, b, e);
    NewConstants(be, m, inputs, b.conv1, b, e);
    RhsIsNamed(b);
  }

  /** What another node reads is neither a kernel of the block nor a made-up name. */
  lemma ReadsNoKernel(be: Backend, m: Model, inputs: Env, b: Block, e: Env, n: Node, i: nat)
    requires Lowers(be, m, inputs, b, e) && n in m.nodes && i < |n.inputs|
    requires Ready1(b) && !Changes(b, n)
    ensures n.inputs[i] !in {Weight1(b), Weight2(b), Rhs(Weight1(b)), Rhs(Weight2(b))}
  {
    hide Lowers, Rhs, Changes, Ready1;
    KernelReaders(be, m, inputs, b, e);
    var x := n.inputs[i];
    assert Reads(n, x);
    assert Running(be, m, inputs, e) by { LowersCan(be, m, inputs, b, e); }
    if x != "" { ReadIsKnown(be, m, inputs, e, n, x); }
  }

  lemma RhsIsNamed(b: Block)
    requires Shaped(b)
    ensures Rhs(Weight1(b)) != "" && Rhs(Weight2(b)) != ""
  {
    LongName(Weight1(b), "__matmul_rhs");
    LongName(Weight2(b), "__matmul_rhs");
  }

  lemma ReadIsKnown(be: Backend, m: Model, inputs: Env, e: Env, n: Node, x: string)
    requires Running(be, m, inputs, e) && n in m.nodes && Reads(n, x) && x != ""
    ensures x in e
  {
    hide Run, SingleAssignment, DistinctOutputs;
    var k :| 0 <= k < |m.nodes| && m.nodes[k] == n;
    EvalNeeds(be, inputs + Arrays(m.inits), m.nodes, k, x);
    EvalWrites(be, inputs + Arrays(m.inits), m.nodes);
  }

  lemma SameConstantsAfter(be: Backend, m: Model, inputs: Env, b: Block, e: Env, n: Node)
    requires Lowers(be, m, inputs, b, e) && CanLower(m, b) && n in m.nodes && !Changes(b, n)
    ensures SameConstants(Arrays(m.inits), Arrays(Lowered(m, b).inits), n)
  {
    hide Lowers, Changes, Arrays, Lowered, CanLower;
    LowersCan(be, m, inputs, b, e);
    forall i | 1 <= i < |n.inputs| ensures n.inputs[i] in Arrays(m.inits) <==> n.inputs[i] in Arrays(Lowered(m, b).inits) {
      ReadsNoKernel(be, m, inputs, b, e, n, i);
      ConstantsStay(be, m, inputs, b, e, n.inputs[i]);
    }
  }

  lemma LowersCan(be: Backend, m: Model, inputs: Env, b: Block, e: Env)
    requires Lowers(be, m, inputs, b, e)
    ensures CanLower(m, b) && Ready1(b) && Running(be, m, inputs, e)
  {}

  // ---------------------------------------------------------------- the turn of another block stays

  lemma Unchanged(nodes: seq<Node>, b: Block, n: Node)
    requires Ready1(b) && n in nodes && Core(n) !! Affected(nodes, b)
    ensures !Changes(b, n)
  {
    hide Changes, Affected;
    if Changes(b, n) {
      ChangedIsAffected(nodes, b, n);
      ChangedMentions(b, n);
      CoreMentions(n);
    }
  }

  lemma CoreMentions(n: Node)
    requires Mentions(n) != {}
    ensures Core(n) * Mentions(n) != {}
  {
    if n.outputs == [] {
      assert Core(n) * Mentions(n) == Mentions(n);
    } else {
      assert n.outputs[0] in Core(n) * Mentions(n);
    }
  }

  /** The turn for `c` looks at nothing that lowering `b` changes. */
  ghost predicate KeepsClear(m: Model, c: Node, b: Block)
    requires Ready1(b)
  {
    Looks(m.nodes, c) !! Affected(m.nodes, b)
  }

  lemma {:induction false} FirstIsIn(nodes: seq<Node>, p: Node -> bool)
    ensures First(nodes, p).Some? ==> First(nodes, p).value in nodes
  {}

  /** The second convolution is found again. */
  lemma SecondStays(m: Model, b: Block, c: Node)
    requires CanLower(m, b) && Ready1(b) && KeepsClear(m, c, b) && EndsInV(c.name)
    ensures Second(m.nodes, c) == Second(Lowered(m, b).nodes, c)
    ensures Second(m.nodes, c).Some? ==> Second(m.nodes, c).value in m.nodes && !Changes(b, Second(m.nodes, c).value)
  {
    hide Affected, Changes, Core, First, ReplaceAll, LooksGlu, LooksActivation, CanLower, Lowered, Called;
    var name2 := ReplaceAll(c.name, CONV1, CONV2);
    PairEndsInV(c.name);
    FirstIsIn(m.nodes, Called(name2));
    if Second(m.nodes, c).Some? { Unchanged(m.nodes, b, Second(m.nodes, c).value); }
    FirstStays(m.nodes, b, |m.nodes|, name2);
    LowerReady(m, b);
    assert m.nodes[..|m.nodes|] == m.nodes;
  }

  lemma SearchStays(be: Backend, m: Model, inputs: Env, b: Block, e: Env, c: Node)
    requires Lowers(be, m, inputs, b, e) && CanLower(m, b) && Ready1(b) && c in m.nodes && EndsInV(c.name) && KeepsClear(m, c, b)
    ensures var next := Lowered(m, b);
      && FindBlock(next.nodes, Arrays(next.inits), c) == FindBlock(m.nodes, Arrays(m.inits), c)
      && Looks(next.nodes, c) == Looks(m.nodes, c)
  {
    hide Lowers, Affected, Changes, FindBlock, Lowered, CanLower, SameConstants, Arrays, LooksGlu, LooksActivation, Second, SameLookups, Core;
    var next := Lowered(m, b);
    SecondStays(m, b, c);
    LoweredLookups(m, b, Looks(m.nodes, c));
    assert Core(c) <= Looks(m.nodes, c);
    Unchanged(m.nodes, b, c);
    SameConstantsAfter(be, m, inputs, b, e, c);
    if Second(m.nodes, c).Some? { SameConstantsAfter(be, m, inputs, b, e, Second(m.nodes, c).value); }
    FindSame(m.nodes, next.nodes, Arrays(m.inits), Arrays(next.inits), c);
  }

  /** What the turn for a found block goes by, besides the block: its kernels, their names, and who reads the activation's input. */
  ghost predicate SameTurn(m: Model, next: Model, d: Block)
    requires Shaped(d)
  {
    var x, y := Arrays(m.inits), Arrays(next.inits);
    && (OnlyActivation(m.nodes, d) <==> OnlyActivation(next.nodes, d))
    && (forall w | w in {Weight1(d), Weight2(d)} ::
          && |Consumers(m.nodes, w)| == |Consumers(next.nodes, w)|
          && (w in x <==> w in y) && (w in x ==> x[w] == y[w]) && (Rhs(w) in x <==> Rhs(w) in y))
  }

  lemma LowerSame(m: Model, next: Model, c: Node)
    requires FindBlock(m.nodes, Arrays(m.inits), c) == FindBlock(next.nodes, Arrays(next.inits), c)
    requires var d := FindBlock(m.nodes, Arrays(m.inits), c); d.Some? && Shaped(d.value) ==> SameTurn(m, next, d.value)
    ensures LowerPair(m, c).Ok? <==> LowerPair(next, c).Ok?
    ensures LowerPair(m, c).Ok? ==> (LowerPair(m, c).value.Some? <==> LowerPair(next, c).value.Some?)
    ensures LowerPair(m, c).Err? ==> LowerPair(m, c).error == LowerPair(next, c).error
  {
    hide FindBlock, Arrays, Consumers, Rhs, OnlyActivation, Lowered, PointwiseKernel;
  }

  lemma WeightsLooked(nodes: seq<Node>, arrays: Env, c: Node, d: Block)
    requires FindBlock(nodes, arrays, c) == Some(d) && Shaped(d)
    ensures {Weight1(d), Weight2(d), Rhs(Weight1(d)), Rhs(Weight2(d)), d.gate.inputs[0]} <= Looks(nodes, c)
  {
    hide FindBlock, Consumers, First, FindGlu, LooksGlu, ReplaceAll;
    FoundBy(nodes, arrays, c, d);
    CoreKernel(d.conv1);
    CoreKernel(d.conv2);
    GateLooked(nodes, d.conv2);
  }

  lemma CoreKernel(n: Node)
    requires |n.inputs| >= 2 && n.outputs != []
    ensures {n.inputs[1], Rhs(n.inputs[1])} <= Core(n)
  {}

  lemma GateLooked(nodes: seq<Node>, conv2: Node)
    requires FindActivation(nodes, conv2).Some?
    ensures FindActivation(nodes, conv2).value.1.inputs != []
    ensures FindActivation(nodes, conv2).value.1.inputs[0] in LooksActivation(nodes, conv2)
    ensures Set(FindActivation(nodes, conv2).value.1.outputs) <= LooksActivation(nodes, conv2)
    ensures Set(FindActivation(nodes, conv2).value.0.outputs) <= LooksActivation(nodes, conv2)
  {
    hide Producer, SigmoidInput;
  }

  lemma TurnStays(be: Backend, m: Model, inputs: Env, b: Block, e: Env, c: Node)
    requires Lowers(be, m, inputs, b, e) && CanLower(m, b) && Ready1(b) && c in m.nodes && EndsInV(c.name) && KeepsClear(m, c, b)
    ensures var next := Lowered(m, b);
      && (LowerPair(m, c).Ok? <==> LowerPair(next, c).Ok?)
      && (LowerPair(m, c).Ok? ==> (LowerPair(m, c).value.Some? <==> LowerPair(next, c).value.Some?))
      && (LowerPair(m, c).Err? ==> LowerPair(m, c).error == LowerPair(next, c).error)
  {
    hide Lowers, Affected, FindBlock, Lowered, CanLower, Arrays, Looks, Consumers, LowerPair, Rhs;
    var next := Lowered(m, b);
    SearchStays(be, m, inputs, b, e, c);
    var d := FindBlock(m.nodes, Arrays(m.inits), c);
    if d.Some? && Shaped(d.value) { OtherKernels(be, m, inputs, b, e, c, d.value); }
    LowerSame(m, next, c);
  }

  lemma OtherKernels(be: Backend, m: Model, inputs: Env, b: Block, e: Env, c: Node, d: Block)
    requires Lowers(be, m, inputs, b, e) && CanLower(m, b) && Ready1(b) && KeepsClear(m, c, b)
    requires FindBlock(m.nodes, Arrays(m.inits), c) == Some(d) && Shaped(d)
    ensures SameTurn(m, Lowered(m, b), d)
  {
    hide Lowers, Affected, FindBlock, Lowered, CanLower, Arrays, Looks, Consumers, Producer, Rhs;
    WeightsLooked(m.nodes, Arrays(m.inits), c, d);
    LoweredLookups(m, b, Looks(m.nodes, c));
    ConstantsAffected(be, m, inputs, b, e);
    forall w | w in {Weight1(d), Weight2(d)}
      ensures var x, y := Arrays(m.inits), Arrays(Lowered(m, b).inits);
        && |Consumers(m.nodes, w)| == |Consumers(Lowered(m, b).nodes, w)|
        && (w in x <==> w in y) && (w in x ==> x[w] == y[w]) && (Rhs(w) in x <==> Rhs(w) in y)
    {
      ConstantsStay(be, m, inputs, b, e, w);
      ConstantsStay(be, m, inputs, b, e, Rhs(w));
    }
  }

  // ---------------------------------------------------------------- and stays safe

  lemma ReadersSame(a: seq<Node>, b: seq<Node>, x: string, readers: set<Node>)
    requires Consumers(a, x) == Consumers(b, x) && ReadOnlyBy(a, x, readers)
    ensures ReadOnlyBy(b, x, readers)
  {
    hide Consumers;
    forall k | 0 <= k < |b| && Reads(b[k], x) ensures b[k] in readers {
      ReaderIsConsumer(b, k, x);
      ConsumerReads(a, x, b[k]);
    }
  }

  lemma GluLooked(nodes: seq<Node>, conv1: Node)
    requires FindGlu(nodes, conv1).Some?
    ensures var parts := FindGlu(nodes, conv1).value;
      Set(parts.0.outputs) + Set(parts.1.outputs) + Set(parts.2.outputs) <= LooksGlu(nodes, conv1) && |parts.0.outputs| == 2
  {
    hide Consumers, First;
  }

  /** Everything a found block is read through is looked at. */
  lemma BlockLooked(nodes: seq<Node>, arrays: Env, c: Node, d: Block)
    requires FindBlock(nodes, arrays, c) == Some(d)
    ensures Set(d.before.outputs) + Set(d.split.outputs) + Set(d.sigmoid.outputs) + Set(d.glu.outputs) <= Looks(nodes, c)
    ensures Set(d.gate.outputs) + Set(d.act.outputs) + Core(d.conv1) + Core(d.conv2) <= Looks(nodes, c)
    ensures d.gate.inputs != [] && d.gate.inputs[0] in Looks(nodes, c) && |d.split.outputs| == 2
  {
    hide FindBlock, Consumers, First, FindGlu, LooksGlu, ReplaceAll, LooksActivation, FindActivation;
    FoundBy(nodes, arrays, c, d);
    GluLooked(nodes, c);
    GateLooked(nodes, d.conv2);
  }

  lemma InSet(names: seq<string>, i: nat)
    requires i < |names|
    ensures names[i] in Set(names)
  {}

  lemma UndisturbedStays(m: Model, b: Block, c: Node, d: Block)
    requires CanLower(m, b) && Ready1(b) && KeepsClear(m, c, b)
    requires FindBlock(m.nodes, Arrays(m.inits), c) == Some(d) && Shaped(d) && Undisturbed(m.nodes, d)
    ensures Undisturbed(Lowered(m, b).nodes, d)
  {
    hide Affected, FindBlock, Lowered, CanLower, Arrays, Looks, Consumers, Producer, ReadOnlyBy, UnitConv;
    BlockLooked(m.nodes, Arrays(m.inits), c, d);
    LoweredLookups(m, b, Looks(m.nodes, c));
    if d.middle.Some? {
      var next := Lowered(m, b).nodes;
      InSet(d.split.outputs, 0);
      InSet(d.split.outputs, 1);
      InSet(d.sigmoid.outputs, 0);
      InSet(d.gate.outputs, 0);
      InSet(d.act.outputs, 0);
      ReadersSame(m.nodes, next, d.split.outputs[0], {d.glu});
      ReadersSame(m.nodes, next, d.split.outputs[1], {d.sigmoid});
      ReadersSame(m.nodes, next, d.sigmoid.outputs[0], {d.glu});
      ReadersSame(m.nodes, next, d.gate.outputs[0], {d.act});
      ReadersSame(m.nodes, next, d.act.outputs[0], {d.conv2});
    }
  }

  /** The names that lowering a block makes up. */
  function MadeNames(b: Block): set<string>
    requires Shaped(b)
  {
    if b.middle.Some? then
      if b.sigmoid.outputs == [] || b.gate.outputs == [] || b.act.outputs == [] then {} else Set(Made(b, WiresOf(b)))
    else if Joined(b, EndsOf(b)) then Set(Names6(b, EndsOf(b))) else {}
  }

  lemma FreeStays(names: set<string>, more: set<string>, d: Block)
    requires Shaped(d) && FreeIn(names, d) && MadeNames(d) !! more
    ensures FreeIn(names + more, d)
  {
    hide Made, Names6, Joined, WiresOf, EndsOf, AllDistinct;
  }

  lemma FreeShrinks(names: set<string>, less: set<string>, d: Block)
    requires Shaped(d) && FreeIn(names, d) && less <= names
    ensures FreeIn(less, d)
  {
    hide Made, Names6, Joined, WiresOf, EndsOf, AllDistinct;
  }

  lemma {:induction false} OutsMentioned(nodes: seq<Node>, k: nat)
    requires k <= |nodes|
    ensures Outs(nodes, k) <= MentionedBy(nodes)
  {
    if k > 0 {
      OutsMentioned(nodes, k - 1);
      MentionedIn(nodes, k - 1);
    }
  }

  lemma {:induction false} OutsGrow(nodes: seq<Node>, b: Block, k: nat)
    requires Ready1(b) && k <= |nodes|
    ensures Made1(b, nodes, k) <= Outs(nodes, k) + Affected(nodes[..k], b)
  {
    hide Piece1, Mentions, MentionedBy, Made1;
    if k == 0 {
      assert Made1(b, nodes, 0) == {} by { NothingMade(b, nodes); }
    } else {
      var n := nodes[k - 1];
      assert nodes[..k][..k - 1] == nodes[..k - 1];
      OutsGrow(nodes, b, k - 1);
      MadeStep(b, nodes, k - 1);
      if Changes(b, n) { OutsMentioned(Piece1(b, n), |Piece1(b, n)|); } else { OutsOfOne(n); }
    }
  }

  lemma NothingMade(b: Block, nodes: seq<Node>)
    requires Ready1(b)
    ensures Made1(b, nodes, 0) == {}
  {}

  lemma OutsOfOne(n: Node)
    ensures Outs([n], 1) == Names(n.outputs)
  {
    assert Outs([n], 0) == {};
  }

  lemma TensorsGrow(be: Backend, m: Model, inputs: Env, b: Block, e: Env)
    requires Lowers(be, m, inputs, b, e) && CanLower(m, b) && Ready1(b)
    ensures TensorsOf(Lowered(m, b), inputs.Keys) <= TensorsOf(m, inputs.Keys) + Affected(m.nodes, b)
  {
    hide Lowers, Affected, CanLower, Outs, Arrays, NewInits, Rhs, Rebuilt, Made1;
    var next := Lowered(m, b);
    OutsGrow(m.nodes, b, |m.nodes|);
    assert m.nodes[..|m.nodes|] == m.nodes;
    MadeIsOuts(m, b);
    ConstantsAffected(be, m, inputs, b, e);
    forall x | x in Arrays(next.inits) ensures x in Arrays(m.inits).Keys + Affected(m.nodes, b) {
      if x !in {Weight1(b), Weight2(b), Rhs(Weight1(b)), Rhs(Weight2(b))} { ConstantsStay(be, m, inputs, b, e, x); }
    }
  }

  lemma MadeIsOuts(m: Model, b: Block)
    requires CanLower(m, b) && Ready1(b)
    ensures Outs(Lowered(m, b).nodes, |Lowered(m, b).nodes|) == Made1(b, m.nodes, |m.nodes|)
  {}

  lemma SafeTurnStays(be: Backend, m: Model, inputs: Env, b: Block, e: Env, c: Node, outputs: set<string>)
    requires Lowers(be, m, inputs, b, e) && CanLower(m, b) && Ready1(b) && c in m.nodes && EndsInV(c.name) && KeepsClear(m, c, b)
    requires SafeTurn(m, inputs.Keys, c, outputs)
    requires var d := FindBlock(m.nodes, Arrays(m.inits), c);
      LowerPair(m, c).Ok? && LowerPair(m, c).value.Some? && d.Some? && Shaped(d.value) ==> MadeNames(d.value) !! Affected(m.nodes, b)
    ensures SafeTurn(Lowered(m, b), inputs.Keys, c, outputs)
  {
    hide Lowers, Affected, FindBlock, Lowered, CanLower, Arrays, Looks, LowerPair, Undisturbed, FreeIn, Touched, TensorsOf, Shaped, MadeNames;
    var next := Lowered(m, b);
    TurnStays(be, m, inputs, b, e, c);
    SearchStays(be, m, inputs, b, e, c);
    if LowerPair(m, c).Ok? && LowerPair(m, c).value.Some? {
      var d := FindBlock(m.nodes, Arrays(m.inits), c).value;
      UndisturbedStays(m, b, c, d);
      TensorsGrow(be, m, inputs, b, e);
      FreeStays(TensorsOf(m, inputs.Keys), Affected(m.nodes, b), d);
      FreeShrinks(TensorsOf(m, inputs.Keys) + Affected(m.nodes, b), TensorsOf(next, inputs.Keys), d);
    }
  }

  // ---------------------------------------------------------------- and what it changes stays

  /** The edits in place leave a node alone that reads neither of two tensors, unless it is the split. */
  lemma EditsNoOther(d: Block, n: Node)
    requires Shaped(d) && d.middle.Some? && n != d.split
    requires !Reads(n, d.middle.value.outputs[0]) && !Reads(n, d.glu.outputs[0])
    ensures Edited(d, n) == n
  {
    assert forall i | 0 <= i < |n.inputs| :: EditedInput(d, n, n.inputs[i]) == n.inputs[i];
    assert Edited(d, n).inputs == n.inputs;
  }

  /** The nodes that lowering a block changes. */
  lemma ChangedNodes(d: Block, n: Node)
    requires Ready1(d) && Changes(d, n)
    ensures n in {d.before, d.conv1, d.conv2, d.after}
      || (d.middle.Some? && (n in {d.glu, d.split, d.middle.value} || Reads(n, d.middle.value.outputs[0]) || Reads(n, d.glu.outputs[0])))
  {
    if d.middle.Some? && n !in {d.before, d.conv1, d.conv2, d.after, d.glu, d.split, d.middle.value} {
      IsDeleting(d, n);
      if !Reads(n, d.middle.value.outputs[0]) && !Reads(n, d.glu.outputs[0]) { EditsNoOther(d, n); }
    }
  }

  lemma Meets(a: set<string>, b: set<string>, x: string)
    requires x in a && x in b
    ensures a * b != {}
  {
    assert x in a * b;
  }

  /** Each of them mentions a tensor that the search for the block looks at. */
  lemma ChangedIsLooked(be: Backend, m: Model, given: set<string>, d: Block, e: Env, n: Node)
    requires Found(be, m, given, d.conv1, d, e) && Ready1(d) && Changes(d, n)
    ensures Mentions(n) * Looks(m.nodes, d.conv1) != {}
  {
    LooksOfBlock(be, m, given, d, e);
    hide Found, Changes, Looks, Shaped, Ready1;
    var looks := Looks(m.nodes, d.conv1);
    ChangedNodes(d, n);
    ShapedOutputs(d);
    if n == d.before { Meets(Mentions(n), looks, n.outputs[0]); }
    else if n == d.conv1 { Meets(Mentions(n), looks, n.outputs[0]); }
    else if n == d.conv2 || n == d.after { Meets(Mentions(n), looks, d.conv2.outputs[0]); }
    else if n == d.glu || Reads(n, d.glu.outputs[0]) { Meets(Mentions(n), looks, d.glu.outputs[0]); }
    else if n == d.split { Meets(Mentions(n), looks, n.outputs[0]); }
    else { Meets(Mentions(n), looks, d.gate.inputs[0]); }
  }

  lemma ShapedOutputs(d: Block)
    requires Ready1(d)
    ensures Shaped(d) && d.before.outputs != [] && d.conv1.outputs != [] && d.conv2.outputs != [] && d.glu.outputs != []
    ensures |d.split.outputs| == 2 && (d.middle.Some? ==> d.middle.value.outputs != [])
  {}

  lemma LooksOfBlock(be: Backend, m: Model, given: set<string>, d: Block, e: Env)
    requires Found(be, m, given, d.conv1, d, e) && Ready1(d)
    ensures var looks := Looks(m.nodes, d.conv1);
      && d.before.outputs[0] in looks && d.conv1.outputs[0] in looks && d.conv2.outputs[0] in looks && d.conv2.outputs[0] in d.after.inputs
      && d.split.outputs[0] in looks && d.glu.outputs[0] in looks && d.gate.inputs != [] && d.gate.inputs[0] in looks
      && (d.middle.Some? ==> d.middle.value.outputs == [d.gate.inputs[0]])
  {
    hide Regular, FindBlock, LowerPair, Looks, Undisturbed, Arrays, ReadOnlyBy, UnitConv;
    BlockLooked(m.nodes, Arrays(m.inits), d.conv1, d);
    EndsFound(be, m, given, d.conv1, d, e);
    if d.middle.Some? { ActivationFound(be, m, given, d.conv1, d, e); }
    InSet(d.before.outputs, 0);
    InSet(d.split.outputs, 0);
    InSet(d.glu.outputs, 0);
    CoreOutput(d.conv1);
    CoreOutput(d.conv2);
  }

  lemma CoreOutput(n: Node)
    requires n.outputs != []
    ensures n.outputs[0] in Core(n)
  {}

  lemma {:induction false} FromPiece(nodes: seq<Node>, b: Block, k: nat, n: Node) returns (o: Node)
    requires Ready1(b) && k <= |nodes| && n in Rebuilt(b, nodes, k)
    ensures o in nodes && n in Piece1(b, o)
  {
    hide Piece1;
    if n in Rebuilt(b, nodes, k - 1) { o := FromPiece(nodes, b, k - 1, n); } else { o := nodes[k - 1]; }
  }

  lemma InPieceMentioned(piece: seq<Node>, n: Node)
    requires n in piece
    ensures Mentions(n) <= MentionedBy(piece)
  {
    var k :| 0 <= k < |piece| && piece[k] == n;
    MentionedIn(piece, k);
  }

  /** After a turn, another block affects no tensor that it did not affect before. */
  lemma AffectedStays(be: Backend, m: Model, given: set<string>, b: Block, d: Block, e: Env)
    requires CanLower(m, b) && Ready1(b) && Found(be, m, given, d.conv1, d, e) && Ready1(d) && KeepsClear(m, d.conv1, b)
    ensures Affected(Lowered(m, b).nodes, d) <= Affected(m.nodes, d)
  {
    hide Found, Affected, Changes, Looks, Mentions, MentionedBy, Piece1, Ready1, CanLower;
    LowerReady(m, b);
    forall x | x in Affected(Lowered(m, b).nodes, d) ensures x in Affected(m.nodes, d) {
      var n := AffectedFrom(Lowered(m, b).nodes, d, x);
      var o := FromPiece(m.nodes, b, |m.nodes|, n);
      ChangedIsLooked(be, m, given, d, e, n);
      if Changes(b, o) {
        ChangedIsAffected(m.nodes, b, o);
        InPieceMentioned(Piece1(b, o), n);
      } else {
        OnlyItself(b, o, n);
        ChangedIsAffected(m.nodes, d, n);
      }
    }
  }

  lemma OnlyItself(b: Block, o: Node, n: Node)
    requires Ready1(b) && !Changes(b, o) && n in Piece1(b, o)
    ensures n == o
  {}

  // ---------------------------------------------------------------- one condition at the start

  function BlockOf(m: Model, c: Node): Option<Block> {
    if LowerPair(m, c).Ok? && LowerPair(m, c).value.Some? then FindBlock(m.nodes, Arrays(m.inits), c) else None
  }

  /** Lowering the block of `other`, if it is lowered, changes nothing that the turn for `c` looks at or makes up. */
  ghost predicate Separate(m: Model, c: Node, other: Node) {
    var b, d := BlockOf(m, other), BlockOf(m, c);
    b.Some? && Ready1(b.value) ==>
      KeepsClear(m, c, b.value) && (d.Some? && Shaped(d.value) ==> MadeNames(d.value) !! Affected(m.nodes, b.value))
  }

  function Named(m: Model, name: string): Option<Node> { First(m.nodes, Called(name)) }

  /**
   * What a caller can check of the model at the start, for the convolutions of these names: the names differ; each
   * block that is found is looked into by nothing else, makes up free names and changes no output; and blocks are separate.
   */
  ghost predicate SafeStart(m: Model, inputs: set<string>, names: seq<string>, outputs: set<string>) {
    && (forall i, j | 0 <= i < j < |names| :: names[i] != names[j])
    && (forall i | 0 <= i < |names| && Named(m, names[i]).Some? :: SafeTurn(m, inputs, Named(m, names[i]).value, outputs))
    && (forall i, j | 0 <= i < |names| && 0 <= j < |names| && i != j && Named(m, names[i]).Some? && Named(m, names[j]).Some? ::
          Separate(m, Named(m, names[i]).value, Named(m, names[j]).value))
  }

  lemma SafeRest(m: Model, inputs: set<string>, names: seq<string>, outputs: set<string>)
    requires SafeStart(m, inputs, names, outputs) && names != []
    ensures SafeStart(m, inputs, names[1..], outputs)
  {
    hide SafeTurn, Separate, Named;
    var rest := names[1..];
    assert forall i | 0 <= i < |rest| :: rest[i] == names[i + 1];
  }

  lemma NamedIs(m: Model, name: string)
    requires Named(m, name).Some?
    ensures Named(m, name).value in m.nodes && Named(m, name).value.name == name
  {
    FirstIsIn(m.nodes, Called(name));
    FirstSatisfies(m.nodes, Called(name));
  }

  lemma {:induction false} FirstSatisfies(nodes: seq<Node>, p: Node -> bool)
    requires First(nodes, p).Some?
    ensures p(First(nodes, p).value)
  {}

  /** A convolution of another name is found again. */
  lemma NamedStays(m: Model, b: Block, name: string)
    requires CanLower(m, b) && Ready1(b) && EndsInV(name) && (Named(m, name).Some? ==> KeepsClear(m, Named(m, name).value, b))
    ensures Named(Lowered(m, b), name) == Named(m, name)
  {
    hide Affected, Changes, Core, First, LooksGlu, LooksActivation, CanLower, Called;
    if Named(m, name).Some? {
      NamedIs(m, name);
      Unchanged(m.nodes, b, Named(m, name).value);
    }
    FirstStays(m.nodes, b, |m.nodes|, name);
    LowerReady(m, b);
    assert m.nodes[..|m.nodes|] == m.nodes;
  }

  lemma SeparateStays(be: Backend, m: Model, inputs: Env, b: Block, e: Env, c: Node, other: Node, outputs: set<string>)
    requires Lowers(be, m, inputs, b, e) && CanLower(m, b) && Ready1(b) && c in m.nodes && other in m.nodes
    requires EndsInV(c.name) && EndsInV(other.name) && KeepsClear(m, c, b) && KeepsClear(m, other, b)
    requires SafeTurn(m, inputs.Keys, other, outputs) && Separate(m, c, other)
    ensures Separate(Lowered(m, b), c, other)
  {
    hide Lowers, FindBlock, Lowered, CanLower, Arrays, Looks, LowerPair, Undisturbed, FreeIn, Touched, TensorsOf, MadeNames, Affected, Ready1;
    TurnStays(be, m, inputs, b, e, c);
    TurnStays(be, m, inputs, b, e, other);
    SearchStays(be, m, inputs, b, e, c);
    SearchStays(be, m, inputs, b, e, other);
    var d := BlockOf(m, other);
    if d.Some? && Ready1(d.value) {
      OtherIsFound(be, m, inputs, b, e, other, outputs);
      AffectedStays(be, m, inputs.Keys + Arrays(m.inits).Keys, b, d.value, e);
    }
  }

  lemma OtherIsFound(be: Backend, m: Model, inputs: Env, b: Block, e: Env, other: Node, outputs: set<string>)
    requires Lowers(be, m, inputs, b, e) && other in m.nodes && SafeTurn(m, inputs.Keys, other, outputs) && BlockOf(m, other).Some?
    ensures var d := BlockOf(m, other).value;
      d.conv1 == other && Found(be, m, inputs.Keys + Arrays(m.inits).Keys, d.conv1, d, e)
  {
    hide FindBlock, Arrays, Looks, LowerPair, Undisturbed, FreeIn, Touched, TensorsOf, Regular, CanLower, Free;
    FoundBy(m.nodes, Arrays(m.inits), other, BlockOf(m, other).value);
    RunningIsRegular(be, m, inputs, e);
  }

  /** The condition holds again after the first turn, for the names that are left. */
  lemma StartStays(be: Backend, m: Model, inputs: Env, b: Block, e: Env, names: seq<string>, outputs: set<string>)
    requires Lowers(be, m, inputs, b, e) && CanLower(m, b) && Ready1(b) && SafeStart(m, inputs.Keys, names, outputs)
    requires names != [] && Named(m, names[0]) == Some(b.conv1) && BlockOf(m, b.conv1) == Some(b)
    requires forall i | 0 <= i < |names| :: EndsInV(names[i])
    ensures SafeStart(Lowered(m, b), inputs.Keys, names[1..], outputs)
  {
    hide Lowers, Lowered, CanLower, SafeTurn, Separate, Named, KeepsClear, Ready1, BlockOf;
    var next, rest := Lowered(m, b), names[1..];
    assert forall i | 0 <= i < |rest| :: rest[i] == names[i + 1];
    forall i | 0 <= i < |rest| && Named(m, rest[i]).Some? ensures KeepsClear(m, Named(m, rest[i]).value, b) {
      ClearOfFirst(m, b, Named(m, rest[i]).value);
    }
    forall i | 0 <= i < |rest| ensures Named(next, rest[i]) == Named(m, rest[i]) { NamedStays(m, b, rest[i]); }
    forall i | 0 <= i < |rest| && Named(m, rest[i]).Some? ensures SafeTurn(next, inputs.Keys, Named(m, rest[i]).value, outputs) {
      var c := Named(m, rest[i]).value;
      NamedIs(m, rest[i]);
      MadeClear(m, b, c);
      SafeTurnStays(be, m, inputs, b, e, c, outputs);
    }
    forall i, j | 0 <= i < |rest| && 0 <= j < |rest| && i != j && Named(m, rest[i]).Some? && Named(m, rest[j]).Some?
      ensures Separate(next, Named(m, rest[i]).value, Named(m, rest[j]).value)
    {
      NamedIs(m, rest[i]);
      NamedIs(m, rest[j]);
      SeparateStays(be, m, inputs, b, e, Named(m, rest[i]).value, Named(m, rest[j]).value, outputs);
    }
  }

  lemma ClearOfFirst(m: Model, b: Block, c: Node)
    requires Ready1(b) && BlockOf(m, b.conv1) == Some(b) && Separate(m, c, b.conv1)
    ensures KeepsClear(m, c, b)
  {}

  lemma MadeClear(m: Model, b: Block, c: Node)
    requires Ready1(b) && BlockOf(m, b.conv1) == Some(b) && Separate(m, c, b.conv1)
    ensures var d := FindBlock(m.nodes, Arrays(m.inits), c);
      LowerPair(m, c).Ok? && LowerPair(m, c).value.Some? && d.Some? && Shaped(d.value) ==> MadeNames(d.value) !! Affected(m.nodes, b)
  {}

  // ---------------------------------------------------------------- the whole pass

  lemma LowersNow(be: Backend, m: Model, inputs: Env, c: Node, e: Env, outputs: set<string>)
    requires Running(be, m, inputs, e) && c in m.nodes && SafeTurn(m, inputs.Keys, c, outputs)
    requires LowerPair(m, c).Ok? && LowerPair(m, c).value.Some?
    ensures BlockOf(m, c).Some?
    ensures var b := BlockOf(m, c).value;
      b.conv1 == c && Lowers(be, m, inputs, b, e) && CanLower(m, b) && Ready1(b) && LowerPair(m, c).value == Some(Lowered(m, b))
  {
    hide FindBlock, Arrays, LowerPair, Undisturbed, FreeIn, Touched, TensorsOf, Regular, CanLower, Lowered, Running;
    var b := FindBlock(m.nodes, Arrays(m.inits), c).value;
    FoundBy(m.nodes, Arrays(m.inits), c, b);
    RunningIsRegular(be, m, inputs, e);
    SafeTurnIsSafe(be, m, inputs, c, e, outputs);
    LowerFacts(be, m, inputs.Keys + Arrays(m.inits).Keys, c, b, e);
    LowerReady(m, b);
  }

  ghost predicate Startable(be: Backend, m: Model, inputs: Env, names: seq<string>, outputs: set<string>, e: Env) {
    && Proper(m, inputs.Keys) && SafeStart(m, inputs.Keys, names, outputs) && (forall i | 0 <= i < |names| :: EndsInV(names[i]))
    && Eval(be, inputs + Arrays(m.inits), m.nodes) == Some(e) && outputs <= inputs.Keys + Outs(m.nodes, |m.nodes|)
  }

  lemma StartRest(be: Backend, m: Model, inputs: Env, names: seq<string>, outputs: set<string>, e: Env)
    requires Startable(be, m, inputs, names, outputs, e) && names != []
    ensures Startable(be, m, inputs, names[1..], outputs, e)
  {
    hide Proper, SafeStart, Eval, Arrays, Outs, EndsInV;
    SafeRest(m, inputs.Keys, names, outputs);
    assert forall i | 0 <= i < |names[1..]| :: names[1..][i] == names[i + 1];
  }

  /** After a turn that lowers a block the rest of the names can be started from the lowered model. */
  lemma AfterTurn(be: Backend, m: Model, inputs: Env, names: seq<string>, outputs: set<string>, e: Env) returns (r: Env)
    requires Startable(be, m, inputs, names, outputs, e) && names != [] && Named(m, names[0]).Some?
    requires var c := Named(m, names[0]).value; LowerPair(m, c).Ok? && LowerPair(m, c).value.Some?
    ensures var c := Named(m, names[0]).value;
      Running(be, m, inputs, e) && c in m.nodes && c.name == names[0] && BlockOf(m, c).Some?
    ensures var c := Named(m, names[0]).value; var b := BlockOf(m, c).value;
      && b.conv1 == c && Lowers(be, m, inputs, b, e) && CanLower(m, b) && Ready1(b) && LowerPair(m, c).value == Some(Lowered(m, b))
      && Startable(be, Lowered(m, b), inputs, names[1..], outputs, r)
  {
    hide LowerPair, Running, Safe, SafeTurn, Eval, Arrays, Proper, Outs, Lowers, CanLower, Ready1, Separate, BlockOf, Lowered, First, Called;
    RunningIsProper(be, m, inputs, e);
    assert forall i | 0 <= i < |names[1..]| :: names[1..][i] == names[i + 1];
    var c := Named(m, names[0]).value;
    NamedIs(m, names[0]);
    LowersNow(be, m, inputs, c, e, outputs);
    var b, next := BlockOf(m, c).value, LowerPair(m, c).value.value;
    SafeTurnIsSafe(be, m, inputs, c, e, outputs);
    PairPreserves(be, m, inputs, c, e, outputs);
    TurnStaysProper(be, m, inputs, c, e, outputs);
    StartStays(be, m, inputs, b, e, names, outputs);
    OutputsAreNoConstants(be, m, inputs, c, e, outputs);
    r := Eval(be, inputs + Arrays(next.inits), next.nodes).value;
    StillProduced(be, m, next, inputs, e, r, outputs);
  }

  lemma FirstIsSafe(be: Backend, m: Model, inputs: Env, names: seq<string>, outputs: set<string>, e: Env)
    requires Startable(be, m, inputs, names, outputs, e) && names != [] && Named(m, names[0]).Some?
    ensures SafeTurn(m, inputs.Keys, Named(m, names[0]).value, outputs)
  {
    hide SafeTurn, Separate, Named, Proper, Eval, Arrays, Outs;
  }

  /** The condition at the start makes every turn of the loop safe. */
  lemma {:induction false} SafeTurnsFollow(be: Backend, m: Model, inputs: Env, names: seq<string>, outputs: set<string>, e: Env)
    requires Startable(be, m, inputs, names, outputs, e)
    ensures SafeTurns(m, inputs.Keys, names, outputs)
    decreases names
  {
    hide LowerPair, Running, SafeTurn, Startable, Lowers, CanLower, Ready1, BlockOf, Lowered, First, Called, Eval, Arrays;
    if names != [] {
      var found := Named(m, names[0]);
      if found.Some? { FirstIsSafe(be, m, inputs, names, outputs, e); }
      if found.None? || (LowerPair(m, found.value).Ok? && LowerPair(m, found.value).value.None?) {
        StartRest(be, m, inputs, names, outputs, e);
        SafeTurnsFollow(be, m, inputs, names[1..], outputs, e);
      } else if LowerPair(m, found.value).Ok? {
        var r := AfterTurn(be, m, inputs, names, outputs, e);
        SafeTurnsFollow(be, LowerPair(m, found.value).value.value, inputs, names[1..], outputs, r);
      }
    }
  }

  predicate OkNow(m: Model, name: string) { Named(m, name).Some? ==> LowerPair(m, Named(m, name).value).Ok? }

  /** None of the convolutions of these names fails its turn on the model as it is. */
  ghost predicate NoneFails(m: Model, names: seq<string>) { forall i | 0 <= i < |names| :: OkNow(m, names[i]) }

  lemma SeparateFromFirst(m: Model, inputs: set<string>, names: seq<string>, outputs: set<string>, i: nat)
    requires SafeStart(m, inputs, names, outputs) && 0 < i < |names| && Named(m, names[0]).Some? && Named(m, names[i]).Some?
    ensures Separate(m, Named(m, names[i]).value, Named(m, names[0]).value)
  {
    hide SafeTurn, Separate, Named;
  }

  /** One of the other turns: it finds the same convolution, and fails or not as before. */
  lemma OtherFails(be: Backend, m: Model, inputs: Env, names: seq<string>, outputs: set<string>, e: Env, b: Block, i: nat)
    requires Startable(be, m, inputs, names, outputs, e) && names != [] && Named(m, names[0]) == Some(b.conv1) && BlockOf(m, b.conv1) == Some(b)
    requires Lowers(be, m, inputs, b, e) && CanLower(m, b) && Ready1(b) && 0 < i < |names|
    ensures OkNow(m, names[i]) <==> OkNow(Lowered(m, b), names[i])
  {
    hide LowerPair, Lowers, CanLower, Ready1, BlockOf, Lowered, Named, Eval, Arrays, Separate, KeepsClear, Proper, SafeStart, Outs;
    if Named(m, names[i]).Some? {
      var c := Named(m, names[i]).value;
      NamedIs(m, names[i]);
      SeparateFromFirst(m, inputs.Keys, names, outputs, i);
      ClearOfFirst(m, b, c);
      TurnStays(be, m, inputs, b, e, c);
    }
    NamedStays(m, b, names[i]);
  }

  lemma NoneFailsNext(be: Backend, m: Model, inputs: Env, names: seq<string>, outputs: set<string>, e: Env, b: Block)
    requires Startable(be, m, inputs, names, outputs, e) && names != [] && Named(m, names[0]) == Some(b.conv1) && BlockOf(m, b.conv1) == Some(b)
    requires Lowers(be, m, inputs, b, e) && CanLower(m, b) && Ready1(b)
    ensures NoneFails(m, names) <==> NoneFails(Lowered(m, b), names[1..])
  {
    hide Startable, Lowers, CanLower, Ready1, BlockOf, Lowered, OkNow, LowerPair, Named;
    var next, rest := Lowered(m, b), names[1..];
    forall i: nat | i < |rest| ensures rest[i] == names[i + 1] && (OkNow(m, names[i + 1]) <==> OkNow(next, rest[i])) {
      OtherFails(be, m, inputs, names, outputs, e, b, i + 1);
    }
    assert forall i: nat | 0 < i < |names| :: names[i] == rest[i - 1];
    assert OkNow(m, names[0]) by { FirstIsOk(m, names[0], b); }
  }

  lemma FirstIsOk(m: Model, name: string, b: Block)
    requires Named(m, name) == Some(b.conv1) && BlockOf(m, b.conv1) == Some(b)
    ensures OkNow(m, name)
  {}

  /** The pass fails exactly when some convolution would fail its turn on the model at the start. */
  lemma {:induction false} PassFailsExactly(be: Backend, m: Model, inputs: Env, names: seq<string>, outputs: set<string>, e: Env)
    requires Startable(be, m, inputs, names, outputs, e)
    ensures LowerNames(m, names).Ok? <==> NoneFails(m, names)
    decreases names
  {
    hide LowerPair, Running, SafeTurn, Startable, Lowers, CanLower, Ready1, BlockOf, Lowered, First, Called, Eval, Arrays;
    if names != [] {
      var found, rest := Named(m, names[0]), names[1..];
      assert forall i | 0 <= i < |rest| :: rest[i] == names[i + 1];
      assert forall i | 0 < i < |names| :: names[i] == rest[i - 1];
      if found.None? || (LowerPair(m, found.value).Ok? && LowerPair(m, found.value).value.None?) {
        StartRest(be, m, inputs, names, outputs, e);
        PassFailsExactly(be, m, inputs, rest, outputs, e);
        assert NoneFails(m, names) <==> NoneFails(m, rest);
      } else if LowerPair(m, found.value).Ok? {
        var r := AfterTurn(be, m, inputs, names, outputs, e);
        var b := BlockOf(m, found.value).value;
        NoneFailsNext(be, m, inputs, names, outputs, e, b);
        PassFailsExactly(be, Lowered(m, b), inputs, rest, outputs, r);
      }
    }
  }

  lemma {:induction false} Conv1NamesEndInV(nodes: seq<Node>, i: nat)
    requires i < |Conv1Names(nodes)|
    ensures EndsInV(Conv1Names(nodes)[i])
  {
    var m := |nodes| - 1;
    if i < |Conv1Names(nodes[..m])| {
      Conv1NamesEndInV(nodes[..m], i);
    } else {
      var name := nodes[m].name;
      assert name == Conv1Names(nodes)[i] && name[|name| - |CONV1|..] == CONV1;
      assert name[|name| - 1] == CONV1[|CONV1| - 1];
    }
  }

  /**
   * The pass over all pairs of a model, on a condition on that model alone: it succeeds unless some pair of the model as it is
   * would fail; the result is in proper form, evaluates on every input the model evaluates on, and keeps every output.
   */
  lemma ConformerPassKeepsOutputs(be: Backend, m: Model, inputs: Env, outputs: set<string>, e: Env)
    requires Proper(m, inputs.Keys) && SafeStart(m, inputs.Keys, Conv1Names(m.nodes), outputs)
    requires Eval(be, inputs + Arrays(m.inits), m.nodes) == Some(e) && outputs <= inputs.Keys + Outs(m.nodes, |m.nodes|)
    ensures var lowered := LowerNames(m, Conv1Names(m.nodes));
      && (lowered.Ok? <==> NoneFails(m, Conv1Names(m.nodes)))
      && (lowered.Ok? ==>
            var next := lowered.value;
            var r := Eval(be, inputs + Arrays(next.inits), next.nodes);
            Proper(next, inputs.Keys) && r.Some? && forall o | o in outputs :: o in r.value && o in e && r.value[o] == e[o])
  {
    hide Proper, SafeStart, SafeTurns, Conv1Names, Eval, LowerNames, Arrays, Outs, NoneFails;
    var names := Conv1Names(m.nodes);
    forall i | 0 <= i < |names| ensures EndsInV(names[i]) { Conv1NamesEndInV(m.nodes, i); }
    assert Startable(be, m, inputs, names, outputs, e);
    SafeTurnsFollow(be, m, inputs, names, outputs, e);
    PassFailsExactly(be, m, inputs, names, outputs, e);
    if LowerNames(m, names).Ok? { PassKeepsOutputs(be, m, inputs, names, outputs, e); }
  }
}
