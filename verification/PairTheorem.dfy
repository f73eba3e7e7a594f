/** Lowering a pair keeps the order of the graph and every value outside the block. */
module PairTheorem {
  import opened Wrappers
  import opened Tensors
  import opened OnnxGraph
  import opened AffineBlocks
  import opened AffineLowering
  import opened GraphAgreement
  import opened PairLowering
  import opened PairMeaning
  import opened PairDeleting
  import A = AffineTensors

  // ---------------------------------------------------------------- order

  lemma {:induction false} OutsTake(ns: seq<Node>, ms: seq<Node>, k: nat)
    requires k <= |ns|
    ensures Outs(ns + ms, k) == Outs(ns, k)
  {
    if k > 0 { OutsTake(ns, ms, k - 1); }
  }

  lemma {:induction false} OutsAcross(ns: seq<Node>, ms: seq<Node>, i: nat)
    requires i <= |ms|
    ensures Outs(ns + ms, |ns| + i) == Outs(ns, |ns|) + Outs(ms, i)
  {
    if i == 0 {
      OutsTake(ns, ms, |ns|);
    } else {
      OutsAcross(ns, ms, i - 1);
    }
  }

  /** What a node reads is given, produced before, or produced earlier in its own piece. */
  ghost predicate ReadsWithin(n: Node, names: set<string>) {
    forall x | Reads(n, x) && x != "" :: x in names
  }

  lemma OrderedAppend(ns: seq<Node>, ms: seq<Node>, given: set<string>)
    requires Ordered(ns, given)
    requires forall i | 0 <= i < |ms| :: ReadsWithin(ms[i], given + Outs(ns, |ns|) + Outs(ms, i))
    ensures Ordered(ns + ms, given)
  {
    hide Outs, ReadsWithin, OrderedAt;
    var all := ns + ms;
    forall k | 0 <= k < |all| ensures OrderedAt(all, given, k) {
      if k < |ns| {
        assert OrderedAt(ns, given, k);
        FrontOrdered(ns, ms, given, k);
      } else {
        assert ReadsWithin(ms[k - |ns|], given + Outs(ns, |ns|) + Outs(ms, k - |ns|));
        BackOrdered(ns, ms, given, k - |ns|);
      }
    }
  }

  lemma FrontOrdered(ns: seq<Node>, ms: seq<Node>, given: set<string>, k: nat)
    requires k < |ns| && OrderedAt(ns, given, k)
    ensures OrderedAt(ns + ms, given, k)
  {
    hide Outs;
    OutsTake(ns, ms, k);
  }

  lemma BackOrdered(ns: seq<Node>, ms: seq<Node>, given: set<string>, i: nat)
    requires i < |ms| && ReadsWithin(ms[i], given + Outs(ns, |ns|) + Outs(ms, i))
    ensures OrderedAt(ns + ms, given, |ns| + i)
  {
    hide Outs;
    OutsAcross(ns, ms, i);
    assert (ns + ms)[|ns| + i] == ms[i];
  }

  lemma {:induction false} RebuiltAgrees(be: Backend, f: Env, b: Block, nodes: seq<Node>, k: nat)
    requires Ready1(b) && k <= |nodes| && forall j | 0 <= j < |nodes| :: AllAgree(be, f, Piece1(b, nodes[j]))
    ensures AllAgree(be, f, Rebuilt(b, nodes, k))
  {
    hide Agrees, Piece1;
    if k > 0 {
      RebuiltAgrees(be, f, b, nodes, k - 1);
      assert AllAgree(be, f, Piece1(b, nodes[k - 1]));
    }
  }

  ghost function Made1(b: Block, nodes: seq<Node>, k: nat): set<string>
    requires Ready1(b) && k <= |nodes|
  {
    Outs(Rebuilt(b, nodes, k), |Rebuilt(b, nodes, k)|)
  }

  lemma MadeStep(b: Block, nodes: seq<Node>, k: nat)
    requires Ready1(b) && k < |nodes|
    ensures Made1(b, nodes, k + 1) == Made1(b, nodes, k) + Outs(Piece1(b, nodes[k]), |Piece1(b, nodes[k])|)
  {
    hide Piece1;
    OutsAcross(Rebuilt(b, nodes, k), Piece1(b, nodes[k]), |Piece1(b, nodes[k])|);
  }

  lemma {:induction false} MadeOfPiece(b: Block, nodes: seq<Node>, j: nat, k: nat)
    requires Ready1(b) && j < k <= |nodes|
    ensures Outs(Piece1(b, nodes[j]), |Piece1(b, nodes[j])|) <= Made1(b, nodes, k)
    decreases k
  {
    hide Piece1;
    MadeStep(b, nodes, k - 1);
    if j < k - 1 { MadeOfPiece(b, nodes, j, k - 1); }
  }

  // ---------------------------------------------------------------- constants

  lemma ArraysSnoc(inits: seq<Initializer>, i: Initializer)
    ensures Arrays(inits + [i]) == Arrays(inits)[i.name := i.value]
  {
    assert (inits + [i])[..|inits|] == inits;
  }

  lemma {:induction false} ArraysWithout(inits: seq<Initializer>, dropped: set<string>)
    ensures Arrays(Without(inits, dropped)) == Arrays(inits) - dropped
  {
    hide Arrays;
    if inits == [] {
      NoArrays();
    } else {
      var n := |inits| - 1;
      var front, last := inits[..n], inits[n];
      ArraysWithout(front, dropped);
      assert inits == front + [last];
      ArraysSnoc(front, last);
      ArraysSnoc(Without(front, dropped), last);
      if last.name in dropped { assert Without(inits, dropped) == Without(front, dropped); }
    }
  }

  lemma NoArrays()
    ensures Arrays([]) == map[]
  {}

  lemma ArraysPlusTwo(inits: seq<Initializer>, p: Initializer, q: Initializer)
    ensures Arrays(inits + [p, q]) == Arrays(inits)[p.name := p.value][q.name := q.value]
  {
    var all := inits + [p, q];
    assert all[..|all| - 1] == inits + [p] && (inits + [p])[..|inits|] == inits;
  }

  lemma NewArrays(inits: seq<Initializer>, b: Block, w1: Tensor, w2: Tensor)
    requires Shaped(b) && Rank(w1, 3) && Rank(w2, 3)
    ensures Arrays(NewInits(inits, b, w1, w2))
         == (Arrays(inits) - {Weight1(b), Weight2(b)})[Rhs(Weight1(b)) := A.PointwiseMatrix(w1)][Rhs(Weight2(b)) := A.PointwiseMatrix(w2)]
  {
    hide A.PointwiseMatrix;
    ArraysWithout(inits, {Weight1(b), Weight2(b)});
    ArraysPlusTwo(Without(inits, {Weight1(b), Weight2(b)}),
      Initializer(Rhs(Weight1(b)), A.PointwiseMatrix(w1)), Initializer(Rhs(Weight2(b)), A.PointwiseMatrix(w2)));
  }

  // ---------------------------------------------------------------- what the deleting variant has available

  /** What is given after the rewrite. */
  function NewGiven(given: set<string>, b: Block): set<string>
    requires Shaped(b)
  {
    given - {Weight1(b), Weight2(b)} + {Rhs(Weight1(b)), Rhs(Weight2(b))}
  }

  ghost predicate InOrder(nodes: seq<Node>, given: set<string>, b: Block, w: Wires) {
    Clean(nodes, given, b, w) && Shaped(b) && Ordered(nodes, given)
  }

  /** The position of a node of the list that produces a name read at `k`. */
  lemma EarlierMaker(nodes: seq<Node>, given: set<string>, p: Node, x: string, k: nat) returns (j: nat)
    requires SingleAssignment(nodes, given) && Ordered(nodes, given) && k < |nodes|
    requires p in nodes && Produces(p, x) && Reads(nodes[k], x)
    ensures j < k && nodes[j] == p
  {
    OnlyMaker(nodes, given, p, x);
    assert OrderedAt(nodes, given, k);
    j := OutsFrom(nodes, k, x);
    assert x in nodes[j].outputs && nodes[j] in nodes;
  }

  lemma {:induction false} OutsOf(ns: seq<Node>, j: nat, x: string)
    requires j < |ns| && Produces(ns[j], x)
    ensures x in Outs(ns, |ns|)
  {
    OutsIn(ns, |ns|, j, x);
  }

  lemma LinearPartMakes(conv: Node, input: string, rhs: string, outputs: seq<string>, pre: string)
    requires |conv.inputs| >= 2 && |outputs| == 1 && outputs[0] != ""
    ensures var part := LinearPart(conv, input, rhs, outputs, pre); outputs[0] in Outs(part, |part|)
  {
    var part := LinearPart(conv, input, rhs, outputs, pre);
    OutsOf(part, |part| - 1, outputs[0]);
  }

  /** Everything an old node produced is there after its piece, or was there before, except what the rewrite removes. */
  lemma {:induction false} Present(nodes: seq<Node>, given: set<string>, b: Block, w: Wires, k: nat, x: string)
    requires InOrder(nodes, given, b, w) && k <= |nodes| && x in Outs(nodes, k) && x !in Gone(w)
    ensures x in Made1(b, nodes, k) && (x == w.g ==> Cf(w) in Made1(b, nodes, k))
    decreases k
  {
    hide NoStrays, SingleAssignment, DistinctOutputs, Ordered, LinearPart, Piece1;
    var n := nodes[k - 1];
    MadeStep(b, nodes, k - 1);
    if Produces(n, x) {
      PieceMakes(nodes, given, b, w, k - 1, x);
    } else {
      Present(nodes, given, b, w, k - 1, x);
    }
  }

  lemma PieceMakes(nodes: seq<Node>, given: set<string>, b: Block, w: Wires, k: nat, x: string)
    requires InOrder(nodes, given, b, w) && k < |nodes| && Produces(nodes[k], x) && x !in Gone(w)
    ensures x in Made1(b, nodes, k + 1) && (x == w.g ==> Cf(w) in Made1(b, nodes, k + 1))
  {
    hide InOrder, Piece1, DeletingPiece, Made1, Cf;
    var n := nodes[k];
    Facts(nodes, given, b, w);
    if n == b.conv1 {
      FirstMoves(nodes, given, b, w, k);
    } else if n == b.after {
      LastMoves(nodes, given, b, w, k);
    } else {
      MadeOfPiece(b, nodes, k, k + 1);
      IsDeleting(b, n);
      OrdinaryMakes(nodes, given, b, w, n, x);
    }
  }

  lemma Facts(nodes: seq<Node>, given: set<string>, b: Block, w: Wires)
    requires InOrder(nodes, given, b, w)
    ensures Clean(nodes, given, b, w) && Ready1(b)
    ensures b.conv1.outputs == [w.c1] && b.after.outputs == [w.y] && w.c1 != w.g && w.y != w.g && w.y !in Gone(w)
  {
    hide NoStrays, SingleAssignment, DistinctOutputs, Ordered;
    NamesApart(nodes, given, b, w);
  }

  lemma IsDeleting(b: Block, n: Node)
    requires Ready1(b) && b.middle.Some?
    ensures Piece1(b, n) == DeletingPiece(b, n)
  {}

  /** The first linear part stands where the transpose in front of conv1 was. */
  lemma FirstMoves(nodes: seq<Node>, given: set<string>, b: Block, w: Wires, k: nat)
    requires InOrder(nodes, given, b, w) && k < |nodes| && nodes[k] == b.conv1
    ensures w.c1 in Made1(b, nodes, k + 1)
  {
    hide NoStrays, DistinctOutputs, LinearPart, Ordered, SingleAssignment, Made1;
    var j := EarlierMaker(nodes, given, b.before, w.t, k);
    MadeOfPiece(b, nodes, j, k + 1);
    LinearPartMakes(b.conv1, Edited(b, b.before).inputs[0], Rhs(Weight1(b)), b.conv1.outputs, b.conv1.outputs[0] + "__pre_bias");
  }

  /** The second one stands where conv2 was. */
  lemma LastMoves(nodes: seq<Node>, given: set<string>, b: Block, w: Wires, k: nat)
    requires InOrder(nodes, given, b, w) && k < |nodes| && nodes[k] == b.after
    ensures w.y in Made1(b, nodes, k + 1)
  {
    hide NoStrays, DistinctOutputs, LinearPart, Ordered, SingleAssignment, Made1;
    var j := EarlierMaker(nodes, given, b.conv2, w.c2, k);
    MadeOfPiece(b, nodes, j, k + 1);
    LinearPartMakes(b.conv2, Edited(b, b.conv2).inputs[0], Rhs(Weight2(b)), b.after.outputs, b.after.outputs[0] + "__pre_bias");
  }

  lemma OrdinaryMakes(nodes: seq<Node>, given: set<string>, b: Block, w: Wires, n: Node, x: string)
    requires Clean(nodes, given, b, w) && Shaped(b) && n in nodes && Produces(n, x) && x !in Gone(w)
    requires n != b.conv1 && n != b.after
    ensures var piece := DeletingPiece(b, n); x in Outs(piece, |piece|) && (x == w.g ==> Cf(w) in Outs(piece, |piece|))
  {
    hide NoStrays, SingleAssignment, DistinctOutputs, LinearPart;
    var piece := DeletingPiece(b, n);
    assert n != b.before && n != b.conv2 && n != b.middle.value;
    OutsOf(piece, 0, x);
    if x == w.g {
      OnlyMaker(nodes, given, b.glu, w.g);
      assert x in n.outputs;
      CfIs(b, w);
      assert Cf(w) != "" by { assert Cf(w)[|w.g|] == '_'; }
      OutsOf(piece, 1, Cf(w));
    }
  }

  /** An edited input is available: given, or made by the pieces before. */
  lemma EditedThere(nodes: seq<Node>, given: set<string>, b: Block, w: Wires, k: nat, x: string)
    requires InOrder(nodes, given, b, w) && k < |nodes| && Reads(nodes[k], x) && x != "" && x !in {w.t, w.c2}
    requires x !in {Weight1(b), Weight2(b)}
    ensures EditedInput(b, nodes[k], x) in NewGiven(given, b) + Made1(b, nodes, k)
  {
    hide NoStrays, DistinctOutputs, SingleAssignment, Made1, Cf, Ordered, EditedInput;
    var n := nodes[k];
    NamesApart(nodes, given, b, w);
    if x == w.base {
      BaseEdited(nodes, given, b, w, n);
      var j := EarlierMaker(nodes, given, b.middle.value, w.base, k);
      HThere(nodes, given, b, w, j, k);
    } else {
      NotBaseEdited(b, w, n, x);
      OldThere(nodes, given, b, w, k, x);
    }
  }

  lemma BaseEdited(nodes: seq<Node>, given: set<string>, b: Block, w: Wires, n: Node)
    requires Clean(nodes, given, b, w) && Shaped(b)
    ensures EditedInput(b, n, w.base) == w.h
  {}

  lemma NotBaseEdited(b: Block, w: Wires, n: Node, x: string)
    requires Wired(b, w) && Shaped(b) && x != w.base && Reads(n, x)
    ensures EditedInput(b, n, x) == if x == w.g then Cf(w) else x
  {
    CfIs(b, w);
  }

  lemma OldThere(nodes: seq<Node>, given: set<string>, b: Block, w: Wires, k: nat, x: string)
    requires InOrder(nodes, given, b, w) && k < |nodes| && Reads(nodes[k], x) && x != "" && x !in Gone(w)
    requires x !in {Weight1(b), Weight2(b)}
    ensures (if x == w.g then Cf(w) else x) in NewGiven(given, b) + Made1(b, nodes, k)
  {
    hide NoStrays, DistinctOutputs, SingleAssignment, Made1, Cf;
    assert OrderedAt(nodes, given, k);
    if x in given {
      assert x != w.g by { InsideIsMade(nodes, given, b, w, w.g); }
    } else {
      Present(nodes, given, b, w, k, x);
    }
  }

  lemma HThere(nodes: seq<Node>, given: set<string>, b: Block, w: Wires, j: nat, k: nat)
    requires InOrder(nodes, given, b, w) && j < k < |nodes| && nodes[j] == b.middle.value
    ensures w.h in NewGiven(given, b) + Made1(b, nodes, k)
  {
    hide NoStrays, DistinctOutputs, SingleAssignment, Made1, Cf, Ordered;
    NamesApart(nodes, given, b, w);
    assert Reads(nodes[j], w.h);
    HIsPlain(nodes, given, b, w);
    OldThere(nodes, given, b, w, j, w.h);
    MadeGrows(b, nodes, j, k);
  }

  lemma HIsPlain(nodes: seq<Node>, given: set<string>, b: Block, w: Wires)
    requires Clean(nodes, given, b, w) && Shaped(b)
    ensures w.h !in Gone(w) && w.h != w.g && w.h !in {Weight1(b), Weight2(b)}
  {
    hide DistinctOutputs, SingleAssignment, ReadOnlyBy;
    SeesOnlyGlu(nodes, given, b, w, b.middle.value, w.h);
    if w.h == Weight1(b) { ReaderIs(nodes, w.h, {b.conv1}, b.middle.value); }
    if w.h == Weight2(b) { ReaderIs(nodes, w.h, {b.conv2}, b.middle.value); }
  }

  lemma {:induction false} MadeGrows(b: Block, nodes: seq<Node>, j: nat, k: nat)
    requires Ready1(b) && j <= k <= |nodes|
    ensures Made1(b, nodes, j) <= Made1(b, nodes, k)
    decreases k - j
  {
    hide Made1, Piece1;
    if j < k {
      MadeGrows(b, nodes, j, k - 1);
      MadeStep(b, nodes, k - 1);
    }
  }

  ghost predicate PieceWithin(piece: seq<Node>, names: set<string>) {
    forall i | 0 <= i < |piece| :: ReadsWithin(piece[i], names + Outs(piece, i))
  }

  lemma LinearReads(conv: Node, input: string, rhs: string, outputs: seq<string>, pre: string, names: set<string>)
    requires |conv.inputs| >= 2 && outputs != [] && input in names && rhs in names && pre != ""
    requires |conv.inputs| > 2 ==> conv.inputs[2] in names
    ensures PieceWithin(LinearPart(conv, input, rhs, outputs, pre), names)
  {
    var part := LinearPart(conv, input, rhs, outputs, pre);
    forall i | 0 <= i < |part| ensures ReadsWithin(part[i], names + Outs(part, i)) {
      if i == 1 { OutsIn(part, 1, 0, pre); }
    }
  }

  lemma EditedReads(nodes: seq<Node>, given: set<string>, b: Block, w: Wires, k: nat)
    requires InOrder(nodes, given, b, w) && k < |nodes| && nodes[k] != b.conv1 && nodes[k] != b.conv2 && nodes[k] != b.after
    ensures ReadsWithin(Edited(b, nodes[k]), NewGiven(given, b) + Made1(b, nodes, k))
  {
    hide DistinctOutputs, SingleAssignment, Made1, Ordered, EditedInput, ReadOnlyBy;
    var n, names := nodes[k], NewGiven(given, b) + Made1(b, nodes, k);
    forall i | 0 <= i < |n.inputs| && Edited(b, n).inputs[i] != "" ensures Edited(b, n).inputs[i] in names {
      var x := n.inputs[i];
      if x == "" { NothingStays(b, w, n); }
      assert Reads(n, x);
      if x == w.t { ReaderIs(nodes, x, {b.conv1}, n); }
      if x == w.c2 { ReaderIs(nodes, x, {b.after}, n); }
      if x == Weight1(b) { ReaderIs(nodes, x, {b.conv1}, n); }
      if x == Weight2(b) { ReaderIs(nodes, x, {b.conv2}, n); }
      EditedThere(nodes, given, b, w, k, x);
    }
  }

  lemma PieceOrdered(nodes: seq<Node>, given: set<string>, b: Block, w: Wires, k: nat)
    requires InOrder(nodes, given, b, w) && k < |nodes|
    ensures PieceWithin(Piece1(b, nodes[k]), NewGiven(given, b) + Made1(b, nodes, k))
  {
    hide DistinctOutputs, SingleAssignment, Made1, Ordered, NoStrays, LinearPart, Edited, ReadsWithin;
    var n, names := nodes[k], NewGiven(given, b) + Made1(b, nodes, k);
    if n == b.before {
      BeforeOrdered(nodes, given, b, w, k);
    } else if n == b.conv2 {
      Conv2Ordered(nodes, given, b, w, k);
    } else if n == b.glu {
      EditedReads(nodes, given, b, w, k);
      GluOrdered(b, w, names);
    } else if n != b.conv1 && n != b.middle.value && n != b.after {
      EditedReads(nodes, given, b, w, k);
      assert Piece1(b, n) == [Edited(b, n)] && Outs([Edited(b, n)], 0) == {};
      assert names + {} == names;
    }
  }

  lemma GluOrdered(b: Block, w: Wires, names: set<string>)
    requires Wired(b, w) && Shaped(b) && ReadsWithin(Edited(b, b.glu), names)
    ensures PieceWithin(DeletingPiece(b, b.glu), names)
  {
    hide Edited;
    var piece := DeletingPiece(b, b.glu);
    forall i | 0 <= i < |piece| ensures ReadsWithin(piece[i], names + Outs(piece, i)) {
      if i == 1 { EditedOutputs(b, b.glu); OutsIn(piece, 1, 0, w.g); }
    }
  }

  lemma EditedOutputs(b: Block, n: Node)
    requires Shaped(b) && b.middle.Some?
    ensures Edited(b, n).outputs == n.outputs
  {}

  lemma BeforeOrdered(nodes: seq<Node>, given: set<string>, b: Block, w: Wires, k: nat)
    requires InOrder(nodes, given, b, w) && k < |nodes| && nodes[k] == b.before
    ensures PieceWithin(DeletingPiece(b, b.before), NewGiven(given, b) + Made1(b, nodes, k))
  {
    hide DistinctOutputs, SingleAssignment, Made1, Ordered, LinearPart, EditedInput, ReadOnlyBy, PieceWithin;
    var names := NewGiven(given, b) + Made1(b, nodes, k);
    var x := w.x;
    assert Reads(b.before, x);
    if x == w.t { ReaderIs(nodes, x, {b.conv1}, b.before); }
    if x == w.c2 { ReaderIs(nodes, x, {b.after}, b.before); }
    if x == Weight1(b) { ReaderIs(nodes, x, {b.conv1}, b.before); }
    if x == Weight2(b) { ReaderIs(nodes, x, {b.conv2}, b.before); }
    EditedThere(nodes, given, b, w, k, x);
    assert Edited(b, b.before).inputs[0] == EditedInput(b, b.before, x);
    LinearReads(b.conv1, Edited(b, b.before).inputs[0], Rhs(Weight1(b)), b.conv1.outputs, b.conv1.outputs[0] + "__pre_bias", names);
  }

  lemma Conv2Ordered(nodes: seq<Node>, given: set<string>, b: Block, w: Wires, k: nat)
    requires InOrder(nodes, given, b, w) && k < |nodes| && nodes[k] == b.conv2
    ensures PieceWithin(DeletingPiece(b, b.conv2), NewGiven(given, b) + Made1(b, nodes, k))
  {
    hide DistinctOutputs, SingleAssignment, Made1, Ordered, LinearPart, EditedInput, NoStrays, PieceWithin;
    var names := NewGiven(given, b) + Made1(b, nodes, k);
    AIsApart(nodes, given, b, w);
    assert Reads(b.conv2, w.a);
    EditedThere(nodes, given, b, w, k, w.a);
    assert Edited(b, b.conv2).inputs[0] == EditedInput(b, b.conv2, w.a);
    LinearReads(b.conv2, Edited(b, b.conv2).inputs[0], Rhs(Weight2(b)), b.after.outputs, b.after.outputs[0] + "__pre_bias", names);
  }

  lemma AIsApart(nodes: seq<Node>, given: set<string>, b: Block, w: Wires)
    requires Clean(nodes, given, b, w) && Shaped(b)
    ensures w.a !in {w.t, w.c2, Weight1(b), Weight2(b)} && w.a != ""
  {
    hide DistinctOutputs, NoStrays, SingleAssignment;
    OnlyMaker(nodes, given, b.act, w.a);
    assert w.t in b.before.outputs && w.c2 in b.conv2.outputs;
  }

  lemma {:induction false} RebuiltOrdered(nodes: seq<Node>, given: set<string>, b: Block, w: Wires, k: nat)
    requires InOrder(nodes, given, b, w) && k <= |nodes|
    ensures Ready1(b) && Ordered(Rebuilt(b, nodes, k), NewGiven(given, b))
  {
    hide InOrder, Ordered, Piece1, PieceWithin, Outs, Clean, NewGiven;
    Facts(nodes, given, b, w);
    if k == 0 {
      NothingOrdered(NewGiven(given, b));
    } else {
      RebuiltOrdered(nodes, given, b, w, k - 1);
      PieceOrdered(nodes, given, b, w, k - 1);
      AppendPiece(Rebuilt(b, nodes, k - 1), Piece1(b, nodes[k - 1]), NewGiven(given, b));
    }
  }

  lemma NothingOrdered(given: set<string>)
    ensures Ordered([], given)
  {}

  lemma AppendPiece(ns: seq<Node>, piece: seq<Node>, given: set<string>)
    requires Ordered(ns, given) && PieceWithin(piece, given + Outs(ns, |ns|))
    ensures Ordered(ns + piece, given)
  {
    hide Ordered, ReadsWithin, Outs;
    OrderedAppend(ns, piece, given);
  }

  // ---------------------------------------------------------------- values

  /** A run of a graph in proper form, with a block in it that can be lowered. */
  ghost predicate Ran(be: Backend, m: Model, inputs: Env, b: Block, w: Wires, e: Env) {
    && inputs.Keys !! Arrays(m.inits).Keys && CanLower(m, b) && b.middle.Some?
    && Clean(m.nodes, inputs.Keys + Arrays(m.inits).Keys, b, w) && FreshNames(e, b, w)
    && Eval(be, inputs + Arrays(m.inits), m.nodes) == Some(e)
    && {Weight1(b), Weight2(b)} !! inputs.Keys
  }

  lemma RanSetting(be: Backend, m: Model, inputs: Env, b: Block, w: Wires, e: Env)
    requires Ran(be, m, inputs, b, w, e)
    ensures var given := inputs.Keys + Arrays(m.inits).Keys;
      Setting(be, m.nodes, given, b, w, e) && InOrder(m.nodes, given, b, w)
      && forall x | x in inputs + Arrays(m.inits) :: x in e && e[x] == (inputs + Arrays(m.inits))[x]
  {
    hide NoStrays, SingleAssignment, DistinctOutputs, Agrees, Wired, FreshNames, Run;
    var given, e0 := inputs.Keys + Arrays(m.inits).Keys, inputs + Arrays(m.inits);
    assert e0.Keys == given;
    forall k | 0 <= k < |m.nodes| ensures Agrees(be, e, m.nodes[k]) { AgreesFromEval(be, e0, m.nodes, k); }
    OrderedFromEval(be, e0, m.nodes);
    EvalWrites(be, e0, m.nodes);
    GivenNotMade(m.nodes, given);
    assert e[Weight1(b)] == Arrays(m.inits)[Weight1(b)] && e[Weight2(b)] == Arrays(m.inits)[Weight2(b)];
  }

  lemma GivenNotMade(nodes: seq<Node>, given: set<string>)
    requires SingleAssignment(nodes, given)
    ensures forall x | x in given :: x !in Outs(nodes, |nodes|)
  {
    forall x | x in given ensures x !in Outs(nodes, |nodes|) {
      if x in Outs(nodes, |nodes|) { var i := OutsFrom(nodes, |nodes|, x); }
    }
  }

  /** Replacing two constants by two others, whose names are new. */
  lemma Restart(inputs: Env, arrays: Env, old1: string, old2: string, new1: string, p1: Tensor, new2: string, p2: Tensor, f: Env)
    requires inputs.Keys !! arrays.Keys && old1 in arrays && old2 in arrays && new1 !in inputs && new2 !in inputs
    requires forall x | x in inputs + arrays :: x in f && f[x] == (inputs + arrays)[x]
    requires new1 in f && f[new1] == p1 && new2 in f && f[new2] == p2
    ensures var start := inputs + (arrays - {old1, old2})[new1 := p1][new2 := p2];
      && start.Keys == inputs.Keys + arrays.Keys - {old1, old2} + {new1, new2}
      && forall x | x in start :: x in f && f[x] == start[x]
  {
    var rest := (arrays - {old1, old2})[new1 := p1][new2 := p2];
    var start := inputs + rest;
    forall x ensures x in start <==> x in inputs.Keys + arrays.Keys - {old1, old2} + {new1, new2} {}
    forall x | x in start ensures x in f && f[x] == start[x] {
      if x != new1 && x != new2 && x in rest { assert rest[x] == arrays[x]; }
    }
  }

  /** What the rewritten graph starts from is part of the new values. */
  lemma StartsRight(be: Backend, m: Model, inputs: Env, b: Block, w: Wires, e: Env)
    requires Ran(be, m, inputs, b, w, e) && Holds(e, b, w)
    ensures var start, f := inputs + Arrays(Lowered(m, b).inits), NewValues(e, b, w);
      && start.Keys == NewGiven(inputs.Keys + Arrays(m.inits).Keys, b)
      && forall x | x in start :: x in f && f[x] == start[x]
  {
    hide NoStrays, SingleAssignment, DistinctOutputs, Agrees, FreshNames, Run, NewValues, A.PointwiseMatrix, Eval, Arrays, Rhs, UnitConv,
      Clean, Wired, NewInits, Swapped, Setting, InOrder, Holds;
    var given, arrays := inputs.Keys + Arrays(m.inits).Keys, Arrays(m.inits);
    RanSetting(be, m, inputs, b, w, e);
    NewArrays(m.inits, b, arrays[Weight1(b)], arrays[Weight2(b)]);
    RhsValues(be, m, inputs, b, w, e);
    forall x | x in given ensures x in NewValues(e, b, w) && NewValues(e, b, w)[x] == e[x] {
      GivenStays(be, m.nodes, given, b, w, e, x);
    }
    Restart(inputs, arrays, Weight1(b), Weight2(b), Rhs(Weight1(b)), A.PointwiseMatrix(arrays[Weight1(b)]),
            Rhs(Weight2(b)), A.PointwiseMatrix(arrays[Weight2(b)]), NewValues(e, b, w));
  }

  lemma GivenStays(be: Backend, nodes: seq<Node>, given: set<string>, b: Block, w: Wires, e: Env, x: string)
    requires Setting(be, nodes, given, b, w, e) && Holds(e, b, w) && x in given
    ensures x in e && x in NewValues(e, b, w) && NewValues(e, b, w)[x] == e[x]
  {
    hide NoStrays, SingleAssignment, DistinctOutputs, Agrees, FreshNames, NewValues, UnitConv, Wired;
    if x in Swapped(w) { InsideIsMade(nodes, given, b, w, x); }
    OldValue(e, b, w, x);
  }

  lemma RhsValues(be: Backend, m: Model, inputs: Env, b: Block, w: Wires, e: Env)
    requires Ran(be, m, inputs, b, w, e) && Holds(e, b, w)
    ensures var f, arrays := NewValues(e, b, w), Arrays(m.inits);
      && Rhs(Weight1(b)) in f && f[Rhs(Weight1(b))] == A.PointwiseMatrix(arrays[Weight1(b)])
      && Rhs(Weight2(b)) in f && f[Rhs(Weight2(b))] == A.PointwiseMatrix(arrays[Weight2(b)])
      && Rhs(Weight1(b)) !in inputs && Rhs(Weight2(b)) !in inputs
  {
    hide NoStrays, SingleAssignment, DistinctOutputs, Agrees, Run, NewValues, A.PointwiseMatrix, Eval, Arrays, Rhs, UnitConv,
      Clean, Wired, Swapped, Setting, InOrder, FreshNames;
    RanSetting(be, m, inputs, b, w, e);
    MadeValues(e, b, w);
    MadeDiffer(e, b, w);
    WeightsStand(m, inputs, b);
  }

  lemma WeightsStand(m: Model, inputs: Env, b: Block)
    requires Shaped(b) && Weight1(b) in Arrays(m.inits) && Weight2(b) in Arrays(m.inits)
    ensures var e0 := inputs + Arrays(m.inits);
      && Weight1(b) in e0 && e0[Weight1(b)] == Arrays(m.inits)[Weight1(b)]
      && Weight2(b) in e0 && e0[Weight2(b)] == Arrays(m.inits)[Weight2(b)]
  {}

  /**
   * The variant that deletes two transposes: when the block has no stray readers the rewritten graph evaluates on every
   * input the old one evaluates on; tensors inside the block hold the transpose of what they held, and every tensor
   * outside it, the result of the block included, what it held.
   */
  lemma DeletingPreserves(be: Backend, m: Model, inputs: Env, b: Block, w: Wires, e: Env)
    requires Ran(be, m, inputs, b, w, e)
    ensures var next := Lowered(m, b);
      var r := Eval(be, inputs + Arrays(next.inits), next.nodes);
      && r.Some?
      && (forall x | x in e && x in r.value && x !in Swapped(w) :: r.value[x] == e[x])
      && (forall x | x in Swapped(w) :: x in e && Rank(e[x], 3) && x in r.value && r.value[x] == Swap(e[x]))
      && (forall x | x in Outs(m.nodes, |m.nodes|) && x !in Gone(w) :: x in r.value)
      && (forall x | x in inputs :: x in r.value)
  {
    hide NoStrays, SingleAssignment, DistinctOutputs, Agrees, FreshNames, Run, NewValues, A.PointwiseMatrix, Eval, Arrays, Rhs,
      UnitConv, Piece1, Swap, Wired, Swapped, Gone, NewInits;
    var given, next := inputs.Keys + Arrays(m.inits).Keys, Lowered(m, b);
    var start := inputs + Arrays(next.inits);
    RanSetting(be, m, inputs, b, w, e);
    Consequences(be, m.nodes, given, b, w, e);
    var f := NewValues(e, b, w);
    StartsRight(be, m, inputs, b, w, e);
    RebuiltOrdered(m.nodes, given, b, w, |m.nodes|);
    forall j | 0 <= j < |m.nodes| ensures AllAgree(be, f, Piece1(b, m.nodes[j])) {
      IsDeleting(b, m.nodes[j]);
      PieceAgrees(be, m.nodes, given, b, w, e, m.nodes[j]);
    }
    RebuiltAgrees(be, f, b, m.nodes, |m.nodes|);
    EvalFromAgrees(be, f, start, next.nodes, |next.nodes|);
    assert next.nodes[..|next.nodes|] == next.nodes;
    var r := Eval(be, start, next.nodes).value;
    forall x | x in e && x in r && x !in Swapped(w) ensures r[x] == e[x] { OldValue(e, b, w, x); }
    forall x | x in Outs(m.nodes, |m.nodes|) && x !in Gone(w) ensures x in r { Present(m.nodes, given, b, w, |m.nodes|, x); }
    forall x | x in Swapped(w) ensures x in e && Rank(e[x], 3) && x in r && r[x] == Swap(e[x]) {
      SwappedValue(be, m.nodes, given, b, w, e, x);
      SwappedIsMade(m.nodes, given, b, w, x);
      Present(m.nodes, given, b, w, |m.nodes|, x);
    }
  }

  lemma Makers(b: Block, w: Wires)
    requires Wired(b, w)
    ensures Produces(b.conv1, w.c1) && Produces(b.split, w.s0) && Produces(b.split, w.s1) && Produces(b.sigmoid, w.sg)
    ensures Produces(b.glu, w.g) && Produces(b.gate, w.gate) && Produces(b.act, w.a)
  {}

  predicate StaysPut(b: Block, p: Node)
    requires b.middle.Some?
  {
    p in Parts(b) - {b.before, b.middle.value, b.conv2}
  }

  lemma PartsStay(nodes: seq<Node>, given: set<string>, b: Block, w: Wires)
    requires Clean(nodes, given, b, w)
    ensures StaysPut(b, b.conv1) && StaysPut(b, b.split) && StaysPut(b, b.sigmoid) && StaysPut(b, b.glu)
    ensures StaysPut(b, b.gate) && StaysPut(b, b.act)
  {
    hide NoStrays, DistinctOutputs, SingleAssignment;
  }

  lemma SwappedIsMade(nodes: seq<Node>, given: set<string>, b: Block, w: Wires, x: string)
    requires InOrder(nodes, given, b, w) && x in Swapped(w)
    ensures x in Outs(nodes, |nodes|) && x !in Gone(w)
  {
    hide NoStrays, DistinctOutputs, Ordered, SingleAssignment, Outs, Gone, Wired, Parts, Produces, StaysPut;
    Makers(b, w);
    PartsStay(nodes, given, b, w);
    if x == w.c1 { PartMakes(nodes, given, b, w, b.conv1, x); }
    else if x == w.s0 || x == w.s1 { PartMakes(nodes, given, b, w, b.split, x); }
    else if x == w.sg { PartMakes(nodes, given, b, w, b.sigmoid, x); }
    else if x == w.g { PartMakes(nodes, given, b, w, b.glu, x); }
    else if x == w.gate { PartMakes(nodes, given, b, w, b.gate, x); }
    else { PartMakes(nodes, given, b, w, b.act, x); }
  }

  lemma PartMakes(nodes: seq<Node>, given: set<string>, b: Block, w: Wires, p: Node, x: string)
    requires Clean(nodes, given, b, w) && StaysPut(b, p) && Produces(p, x)
    ensures x in Outs(nodes, |nodes|) && x !in Gone(w)
  {
    hide NoStrays, DistinctOutputs, SingleAssignment, Outs;
    MadeSomewhere(nodes, p, x);
    OnlyMaker(nodes, given, b.before, w.t);
    OnlyMaker(nodes, given, b.middle.value, w.base);
    OnlyMaker(nodes, given, b.conv2, w.c2);
  }

  lemma MadeSomewhere(nodes: seq<Node>, p: Node, x: string)
    requires p in nodes && Produces(p, x)
    ensures x in Outs(nodes, |nodes|)
  {
    var k :| 0 <= k < |nodes| && nodes[k] == p;
    OutsIn(nodes, |nodes|, k, x);
  }
}
