/** The in-place side of the pair lowering, and what it does to the number of transposes. */
module PairGraph {
  import opened Wrappers
  import opened Tensors
  import opened OnnxGraph
  import opened AffineBlocks
  import opened AffineLowering
  import opened GraphAgreement
  import opened PairLowering
  import opened PairMeaning
  import opened PairDeleting
  import opened PairTheorem
  import opened PairComplete
  import A = AffineTensors

  /** The loop over the nodes that swaps a block for its replacement. */
  method RebuildNodes(nodes: seq<Node>, b: Block) returns (rebuilt: seq<Node>)
    requires Ready1(b)
    ensures rebuilt == Rebuilt(b, nodes, |nodes|)
  {
    rebuilt := [];
    for k := 0 to |nodes|
      invariant rebuilt == Rebuilt(b, nodes, k)
    {
      rebuilt := rebuilt + Piece1(b, nodes[k]);
    }
  }

  method RetainInitializers(inits: seq<Initializer>, dropped: set<string>) returns (kept: seq<Initializer>)
    ensures kept == Without(inits, dropped)
  {
    kept := [];
    for k := 0 to |inits|
      invariant kept == Without(inits[..k], dropped)
    {
      assert inits[..k + 1][..k] == inits[..k];
      if inits[k].name !in dropped { kept := kept + [inits[k]]; }
    }
    assert inits[..|inits|] == inits;
  }

  class ConformerGraph {
    var nodes: seq<Node>
    var initializers: seq<Initializer>

    constructor (nodes: seq<Node>, initializers: seq<Initializer>)
      ensures this.nodes == nodes && this.initializers == initializers
    {
      this.nodes, this.initializers := nodes, initializers;
    }

    /** Lowers one block in place. */
    method LowerBlock(b: Block)
      requires CanLower(Model(nodes, initializers), b)
      modifies this
      ensures Model(nodes, initializers) == Lowered(old(Model(nodes, initializers)), b)
    {
      var arrays := Arrays(initializers);
      var rhs1 := Initializer(Rhs(Weight1(b)), A.PointwiseMatrix(arrays[Weight1(b)]));
      var rhs2 := Initializer(Rhs(Weight2(b)), A.PointwiseMatrix(arrays[Weight2(b)]));
      var rebuilt := RebuildNodes(nodes, b);
      var retained := RetainInitializers(initializers, {Weight1(b), Weight2(b)});
      nodes, initializers := rebuilt, retained + [rhs1, rhs2];
    }

    /** Lowers every pair that can be lowered, in the order of the first convolutions. */
    method LowerPairs() returns (r: Result<(), PairError>)
      modifies this
      ensures var m := old(Model(nodes, initializers)); var names := Conv1Names(m.nodes);
        && (r.Ok? <==> LowerNames(m, names).Ok?)
        && (r.Ok? ==> Model(nodes, initializers) == LowerNames(m, names).value)
        && (r.Err? ==> r.error == LowerNames(m, names).error)
      ensures var m, next := old(Model(nodes, initializers)), Model(nodes, initializers);
        forall be, inputs, outputs, e | SafeModel(be, m, inputs, outputs, e) ::
          && (r.Ok? <==> forall c | c in m.nodes && OpensPair(c) :: LowerPair(m, c).Ok?)
          && (r.Ok? ==> KeepsOutputs(be, m, next, inputs, outputs, e))
          && (r.Ok? ==> forall b | IsBlock(m, b) && OpensPair(b.conv1) :: Shaped(b) && IsLowered(next, b))
    {
      ghost var m := Model(nodes, initializers);
      var names, i := Conv1Names(nodes), 0;
      while i < |names|
        invariant 0 <= i <= |names| && LowerNames(m, names) == LowerNames(Model(nodes, initializers), names[i..])
      {
        hide LowerPair, Lowered, Conv1Names, SafeModel, KeepsOutputs, IsBlock, OpensPair, IsLowered;
        var name := names[i];
        assert names[i..][0] == name && names[i..][1..] == names[i + 1..];
        var found := First(nodes, Called(name));
        if found.Some? {
          var turn := LowerPair(Model(nodes, initializers), found.value);
          if turn.Err? {
            PassComesTo(m);
            return Err(turn.error);
          }
          if turn.value.Some? {
            var b := LoweredBlock(Model(nodes, initializers), found.value);
            LowerBlock(b);
          }
        }
        i := i + 1;
      }
      PassComesTo(m);
      r := Ok(());
    }
  }

  /** What the pass comes to on every safe run of the model. */
  lemma PassComesTo(m: Model)
    ensures var r := LowerNames(m, Conv1Names(m.nodes));
      forall be, inputs, outputs, e | SafeModel(be, m, inputs, outputs, e) ::
        && (r.Ok? <==> forall c | c in m.nodes && OpensPair(c) :: LowerPair(m, c).Ok?)
        && (r.Ok? ==> KeepsOutputs(be, m, r.value, inputs, outputs, e))
        && (r.Ok? ==> forall b | IsBlock(m, b) && OpensPair(b.conv1) :: Shaped(b) && IsLowered(r.value, b))
  {
    hide SafeModel, LowerNames, Conv1Names, LowerPair, KeepsOutputs, IsBlock, OpensPair, IsLowered, Shaped;
    forall be, inputs, outputs, e | SafeModel(be, m, inputs, outputs, e)
      ensures var r := LowerNames(m, Conv1Names(m.nodes));
        && (r.Ok? <==> forall c | c in m.nodes && OpensPair(c) :: LowerPair(m, c).Ok?)
        && (r.Ok? ==> KeepsOutputs(be, m, r.value, inputs, outputs, e))
        && (r.Ok? ==> forall b | IsBlock(m, b) && OpensPair(b.conv1) :: Shaped(b) && IsLowered(r.value, b))
    {
      EveryBlockIsLowered(be, m, inputs, outputs, e);
    }
  }

  function LoweredBlock(m: Model, conv1: Node): (b: Block)
    requires LowerPair(m, conv1).Ok? && LowerPair(m, conv1).value.Some?
    ensures CanLower(m, b) && LowerPair(m, conv1).value.value == Lowered(m, b)
  {
    FindBlock(m.nodes, Arrays(m.inits), conv1).value
  }

  // ---------------------------------------------------------------- counting transposes

  function Turns(nodes: seq<Node>): nat {
    if nodes == [] then 0 else Turns(nodes[..|nodes| - 1]) + if nodes[|nodes| - 1].op == Transpose(NTC_PERM) then 1 else 0
  }

  lemma {:induction false} TurnsAppend(a: seq<Node>, b: seq<Node>)
    ensures Turns(a + b) == Turns(a) + Turns(b)
    decreases |b|
  {
    if b == [] {
      assert a + b == a;
    } else {
      assert (a + b)[..|a + b| - 1] == a + b[..|b| - 1];
      TurnsAppend(a, b[..|b| - 1]);
    }
  }

  function Seen(nodes: seq<Node>, k: nat, n: Node): int
    requires k <= |nodes|
  {
    if n in nodes[..k] then 1 else 0
  }

  lemma SeenNext(nodes: seq<Node>, given: set<string>, k: nat, n: Node, x: string)
    requires SingleAssignment(nodes, given) && k < |nodes| && Produces(n, x)
    ensures Seen(nodes, k + 1, n) == Seen(nodes, k, n) + if nodes[k] == n then 1 else 0
  {
    assert nodes[..k + 1] == nodes[..k] + [nodes[k]];
    assert nodes[k] == n ==> n !in nodes[..k];
  }

  function TurnOf(n: Node): nat { if n.op == Transpose(NTC_PERM) then 1 else 0 }

  lemma TurnsOne(n: Node)
    ensures Turns([n]) == TurnOf(n)
  {
    assert [n][..0] == [];
  }

  lemma TurnsOfLinear(conv: Node, input: string, rhs: string, outputs: seq<string>, pre: string)
    requires |conv.inputs| >= 2 && outputs != []
    ensures Turns(LinearPart(conv, input, rhs, outputs, pre)) == 0
  {
    var part := LinearPart(conv, input, rhs, outputs, pre);
    if |part| == 2 {
      assert part == [part[0]] + [part[1]];
      TurnsAppend([part[0]], [part[1]]);
      TurnsOne(part[1]);
    }
    TurnsOne(part[0]);
  }

  /** How a node's replacement changes the count. */
  lemma DeletingTurns(nodes: seq<Node>, given: set<string>, b: Block, w: Wires, n: Node)
    requires Clean(nodes, given, b, w) && Shaped(b) && n in nodes
    ensures Turns(DeletingPiece(b, n)) == TurnOf(n)
      - (if n == b.before then 1 else 0) - (if n == b.middle.value then 1 else 0) - (if n == b.after then 1 else 0)
      + (if n == b.glu then 1 else 0)
  {
    hide NoStrays, SingleAssignment, DistinctOutputs, LinearPart, Turns;
    if n == b.before {
      TurnsOfLinear(b.conv1, Edited(b, b.before).inputs[0], Rhs(Weight1(b)), b.conv1.outputs, b.conv1.outputs[0] + "__pre_bias");
    } else if n == b.conv2 {
      TurnsOfLinear(b.conv2, Edited(b, b.conv2).inputs[0], Rhs(Weight2(b)), b.after.outputs, b.after.outputs[0] + "__pre_bias");
    } else if n == b.glu {
      var post := NtcNode(b.conv1.name + "/TransposeForDepthwise", b.glu.outputs[0], [ChannelsFirst(b)]);
      assert DeletingPiece(b, n) == [Edited(b, n)] + [post];
      TurnsAppend([Edited(b, n)], [post]);
      TurnsOne(Edited(b, n));
      TurnsOne(post);
    } else if n == b.conv1 || n == b.middle.value || n == b.after {
      NoTurns();
    } else {
      TurnsOne(Edited(b, n));
    }
  }

  lemma NoTurns()
    ensures Turns([]) == 0
  {}

  lemma {:induction false} RebuiltTurns(nodes: seq<Node>, given: set<string>, b: Block, w: Wires, k: nat)
    requires Clean(nodes, given, b, w) && Shaped(b) && Ready1(b) && k <= |nodes|
    ensures Turns(Rebuilt(b, nodes, k))
         == Turns(nodes[..k]) - Seen(nodes, k, b.before) - Seen(nodes, k, b.middle.value) - Seen(nodes, k, b.after)
            + Seen(nodes, k, b.glu)
  {
    hide NoStrays, DistinctOutputs, Turns, Seen, DeletingPiece, TurnOf;
    if k == 0 {
      NoTurns();
      assert nodes[..0] == [];
      NothingSeen(nodes, b.before);
      NothingSeen(nodes, b.middle.value);
      NothingSeen(nodes, b.after);
      NothingSeen(nodes, b.glu);
    } else {
      var n := nodes[k - 1];
      RebuiltTurns(nodes, given, b, w, k - 1);
      TurnsAppend(Rebuilt(b, nodes, k - 1), Piece1(b, n));
      DeletingTurns(nodes, given, b, w, n);
      assert nodes[..k] == nodes[..k - 1] + [n];
      TurnsAppend(nodes[..k - 1], [n]);
      TurnsOne(n);
      SeenNext(nodes, given, k - 1, b.before, w.t);
      SeenNext(nodes, given, k - 1, b.middle.value, w.base);
      SeenNext(nodes, given, k - 1, b.after, w.y);
      SeenNext(nodes, given, k - 1, b.glu, w.g);
    }
  }

  lemma NothingSeen(nodes: seq<Node>, n: Node)
    ensures Seen(nodes, 0, n) == 0
  {}

  lemma AllSeen(nodes: seq<Node>, n: Node)
    requires n in nodes
    ensures Seen(nodes, |nodes|, n) == 1
  {
    assert nodes[..|nodes|] == nodes;
  }

  /** The reported saving is exact: the variant removes two transposes from the graph, net of the one it adds. */
  lemma DeletingSavesTwo(nodes: seq<Node>, given: set<string>, b: Block, w: Wires)
    requires Clean(nodes, given, b, w) && Shaped(b) && Ready1(b)
    ensures Turns(Rebuilt(b, nodes, |nodes|)) == Turns(nodes) - 2
  {
    hide NoStrays, DistinctOutputs, Turns, Seen, SingleAssignment;
    RebuiltTurns(nodes, given, b, w, |nodes|);
    AllSeen(nodes, b.before);
    AllSeen(nodes, b.middle.value);
    AllSeen(nodes, b.after);
    AllSeen(nodes, b.glu);
    assert nodes[..|nodes|] == nodes;
  }
}
