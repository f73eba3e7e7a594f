/** The loop over all pairs: lowering one keeps the graph in proper form, so the next turn starts from such a graph again. */
module PairPasses {
  import opened Wrappers
  import opened Tensors
  import opened OnnxGraph
  import opened AffineBlocks
  import opened AffineLowering
  import opened GraphAgreement
  import opened PairLowering
  import opened PairMeaning
  import opened PairDeleting
  import opened PairTheorem
  import opened PairKeeping
  import opened PairSearch
  import A = AffineTensors

  // ---------------------------------------------------------------- what each piece produces

  /** The tensors a block turns around, and the names the rewrite makes up for its three places. */
  datatype Places = Places(t: string, c1: string, c2: string, y: string, g: string, first: set<string>, last: set<string>, gated: set<string>)

  /** What the replacement of a node may produce. */
  function Yield(b: Block, q: Places, n: Node): set<string> {
    if n == b.before then {q.c1} + q.first
    else if n == b.conv2 then {q.y} + q.last
    else if n == b.conv1 || n == b.after || b.middle == Some(n) then {}
    else if b.middle.Some? && n == b.glu then {q.g} + q.gated
    else Names(n.outputs)
  }

  ghost predicate New(names: set<string>, nodes: seq<Node>, given: set<string>) {
    forall x | x in names :: x !in given && x !in Outs(nodes, |nodes|) && x != ""
  }

  ghost predicate Placed(nodes: seq<Node>, given: set<string>, b: Block, q: Places) {
    && SingleAssignment(nodes, given)
    && b.before in nodes && b.conv1 in nodes && b.conv2 in nodes && b.after in nodes
    && Out(b.before, q.t) && Out(b.conv1, q.c1) && Out(b.conv2, q.c2) && Out(b.after, q.y)
    && b.conv1 != b.conv2 && b.before != b.after && b.before != b.conv1 && b.before != b.conv2 && b.after != b.conv1 && b.after != b.conv2
    && (b.middle.Some? ==> b.glu in nodes && Out(b.glu, q.g) && b.glu !in {b.before, b.conv1, b.conv2, b.after} && b.middle != Some(b.glu))
    && New(q.first, nodes, given) && New(q.last, nodes, given) && New(q.gated, nodes, given)
    && q.first !! q.last && q.first !! q.gated && q.last !! q.gated
  }

  lemma ProducedOnce(nodes: seq<Node>, given: set<string>, i: nat, j: nat, x: string)
    requires SingleAssignment(nodes, given) && i < |nodes| && j < |nodes| && Produces(nodes[i], x) && Produces(nodes[j], x)
    ensures i == j && x !in given && x in Outs(nodes, |nodes|)
  {
    OutsIn(nodes, |nodes|, i, x);
  }

  lemma SameMaker(nodes: seq<Node>, given: set<string>, n: Node, p: Node, x: string)
    requires SingleAssignment(nodes, given) && n in nodes && p in nodes && Produces(n, x) && Produces(p, x)
    ensures n == p && x in Outs(nodes, |nodes|)
  {
    MadeSomewhere(nodes, p, x);
  }

  lemma OutputsAreMade(nodes: seq<Node>, n: Node, x: string)
    requires n in nodes && x in Names(n.outputs)
    ensures x in Outs(nodes, |nodes|) && Produces(n, x)
  {
    MadeSomewhere(nodes, n, x);
  }

  /** Which replacement a name belongs to. */
  lemma YieldOwner(nodes: seq<Node>, given: set<string>, b: Block, q: Places, n: Node, x: string)
    requires Placed(nodes, given, b, q) && n in nodes && x in Yield(b, q, n)
    ensures x in q.first || x == q.c1 ==> n == b.before
    ensures x in q.last || x == q.y ==> n == b.conv2
    ensures x in q.gated ==> b.middle.Some? && n == b.glu
    ensures x !in q.first + q.last + q.gated + {q.c1, q.y} ==> Produces(n, x)
    ensures x !in given && x != ""
  {
    hide Outs;
    OutputsAreMade(nodes, b.conv1, q.c1);
    OutputsAreMade(nodes, b.after, q.y);
    if b.middle.Some? { OutputsAreMade(nodes, b.glu, q.g); }
    if q.c1 == q.y { SameMaker(nodes, given, b.conv1, b.after, q.c1); }
    if b.middle.Some? && q.g == q.c1 { SameMaker(nodes, given, b.glu, b.conv1, q.g); }
    if b.middle.Some? && q.g == q.y { SameMaker(nodes, given, b.glu, b.after, q.g); }
    if n != b.before && n != b.conv2 && x in Names(n.outputs) {
      OutputsAreMade(nodes, n, x);
      if x == q.c1 { SameMaker(nodes, given, n, b.conv1, x); }
      if x == q.y { SameMaker(nodes, given, n, b.after, x); }
    }
  }

  /** No name is yielded at two places. */
  lemma YieldsApart(nodes: seq<Node>, given: set<string>, b: Block, q: Places, i: nat, j: nat, x: string)
    requires Placed(nodes, given, b, q) && i < |nodes| && j < |nodes|
    requires x in Yield(b, q, nodes[i]) && x in Yield(b, q, nodes[j])
    ensures i == j
  {
    hide New, Outs, Yield;
    YieldOwner(nodes, given, b, q, nodes[i], x);
    YieldOwner(nodes, given, b, q, nodes[j], x);
    var z := if x in q.first || x == q.c1 then q.t else if x in q.last || x == q.y then q.c2 else if x in q.gated then q.g else x;
    ProducedOnce(nodes, given, i, j, z);
  }

  // ---------------------------------------------------------------- single assignment stays

  lemma AppendSingle(ns: seq<Node>, ms: seq<Node>, given: set<string>)
    requires SingleAssignment(ns, given) && SingleAssignment(ms, given) && Outs(ns, |ns|) !! Outs(ms, |ms|)
    ensures SingleAssignment(ns + ms, given)
  {
    var all := ns + ms;
    forall i, j, x | 0 <= i < |all| && 0 <= j < |all| && Produces(all[i], x) && Produces(all[j], x) ensures i == j {
      if i < |ns| { OutsIn(ns, |ns|, i, x); } else { OutsIn(ms, |ms|, i - |ns|, x); }
      if j < |ns| { OutsIn(ns, |ns|, j, x); } else { OutsIn(ms, |ms|, j - |ns|, x); }
    }
  }

  /** The replacement of a node yields what is said, each name once. */
  ghost predicate Yields(b: Block, q: Places, nodes: seq<Node>, after: set<string>)
    requires Ready1(b)
  {
    forall k | 0 <= k < |nodes| :: var piece := Piece1(b, nodes[k]);
      SingleAssignment(piece, after) && Outs(piece, |piece|) <= Yield(b, q, nodes[k])
  }

  lemma {:induction false} StaysSingle(nodes: seq<Node>, given: set<string>, b: Block, q: Places, after: set<string>, k: nat)
    requires Placed(nodes, given, b, q) && Ready1(b) && Yields(b, q, nodes, after) && k <= |nodes|
    ensures SingleAssignment(Rebuilt(b, nodes, k), after)
    ensures forall x | x in Made1(b, nodes, k) :: exists j | 0 <= j < k :: x in Yield(b, q, nodes[j])
  {
    hide Placed, Piece1, Yield, Outs, SingleAssignment;
    if k == 0 {
      NothingSingle(after);
    } else {
      StaysSingle(nodes, given, b, q, after, k - 1);
      var piece := Piece1(b, nodes[k - 1]);
      MadeStep(b, nodes, k - 1);
      forall x | x in Made1(b, nodes, k - 1) ensures x !in Outs(piece, |piece|) {
        var j :| 0 <= j < k - 1 && x in Yield(b, q, nodes[j]);
        if x in Outs(piece, |piece|) { YieldsApart(nodes, given, b, q, j, k - 1, x); }
      }
      AppendSingle(Rebuilt(b, nodes, k - 1), piece, after);
      forall x | x in Made1(b, nodes, k) ensures exists j | 0 <= j < k :: x in Yield(b, q, nodes[j]) {
        if x in Outs(piece, |piece|) { assert x in Yield(b, q, nodes[k - 1]); }
      }
    }
  }

  lemma NothingSingle(given: set<string>)
    ensures SingleAssignment([], given) && Outs([], 0) == {}
  {}

  // ---------------------------------------------------------------- the two variants

  lemma OneNode(n: Node, given: set<string>)
    requires forall x | Produces(n, x) :: x !in given
    ensures SingleAssignment([n], given) && Outs([n], 1) == Names(n.outputs)
  {
    assert Outs([n], 0) == {};
  }

  lemma TwoNodes(p: Node, q: Node, x: string, y: string, given: set<string>)
    requires Out(p, x) && Out(q, y) && x != y && x !in given && y !in given
    ensures SingleAssignment([p, q], given) && Outs([p, q], 2) == {x, y}
  {
    assert Outs([p, q], 0) == {} && Outs([p, q], 1) == {x};
  }

  lemma ThreeNodes(p: Node, q: Node, r: Node, x: string, y: string, z: string, given: set<string>)
    requires Out(p, x) && Out(q, y) && Out(r, z) && x != y && x != z && y != z && {x, y, z} !! given
    ensures SingleAssignment([p, q, r], given) && Outs([p, q, r], 3) == {x, y, z}
  {
    assert Outs([p, q, r], 0) == {} && Outs([p, q, r], 1) == {x} && Outs([p, q, r], 2) == {x, y};
  }

  lemma LinearYields(conv: Node, input: string, rhs: string, outputs: seq<string>, pre: string, given: set<string>)
    requires |conv.inputs| >= 2 && |outputs| == 1 && outputs[0] != "" && pre != "" && pre != outputs[0]
    requires pre !in given && outputs[0] !in given
    ensures var part := LinearPart(conv, input, rhs, outputs, pre);
      SingleAssignment(part, given) && Outs(part, |part|) <= {outputs[0], pre}
  {
    var part := LinearPart(conv, input, rhs, outputs, pre);
    assert outputs == [outputs[0]];
    if |conv.inputs| == 2 {
      OneNode(part[0], given);
      assert part == [part[0]];
    } else {
      TwoNodes(part[0], part[1], pre, outputs[0], given);
      assert part == [part[0], part[1]];
    }
  }

  function DeletingPlaces(w: Wires): Places { Places(w.t, w.c1, w.c2, w.y, w.g, {Pre1(w)}, {Pre2(w)}, {Cf(w)}) }

  function KeepingPlaces(w: Ends): Places { Places(w.t, w.c1, w.c2, w.y, "", {Rows1(w), Ntc1(w)}, {Ntc2(w), Rows2(w)}, {}) }

  /** What a name that a replacement yields is not. */
  ghost predicate Off(b: Block, q: Places, nodes: seq<Node>, after: set<string>) {
    forall k | 0 <= k < |nodes| :: forall x | x in Yield(b, q, nodes[k]) :: x !in after && x != ""
  }

  lemma OffHolds(nodes: seq<Node>, given: set<string>, b: Block, q: Places)
    requires Placed(nodes, given, b, q) && Shaped(b)
    requires {Rhs(Weight1(b)), Rhs(Weight2(b))} !! Outs(nodes, |nodes|) && {Rhs(Weight1(b)), Rhs(Weight2(b))} !! q.first + q.last + q.gated
    ensures Off(b, q, nodes, NewGiven(given, b))
  {
    hide Outs, Rhs, Yield, Placed;
    var after := NewGiven(given, b);
    forall k | 0 <= k < |nodes| ensures forall x | x in Yield(b, q, nodes[k]) :: x !in after && x != "" {
      forall x | x in Yield(b, q, nodes[k]) ensures x !in after && x != "" { OffAt(nodes, given, b, q, nodes[k], x); }
    }
  }

  lemma OffAt(nodes: seq<Node>, given: set<string>, b: Block, q: Places, n: Node, x: string)
    requires Placed(nodes, given, b, q) && n in nodes && x in Yield(b, q, n)
    ensures x !in given && x != "" && (x in q.first + q.last + q.gated || x in Outs(nodes, |nodes|))
  {
    hide Outs, Yield, Placed;
    YieldOwner(nodes, given, b, q, n, x);
    if x !in q.first + q.last + q.gated { OwnedIsOld(nodes, given, b, q, n, x); }
  }

  lemma OwnedIsOld(nodes: seq<Node>, given: set<string>, b: Block, q: Places, n: Node, x: string)
    requires Placed(nodes, given, b, q) && n in nodes && x in Yield(b, q, n) && x !in q.first + q.last + q.gated
    ensures x in Outs(nodes, |nodes|)
  {
    hide Outs;
    OutputsAreMade(nodes, b.conv1, q.c1);
    OutputsAreMade(nodes, b.after, q.y);
    if b.middle.Some? { OutputsAreMade(nodes, b.glu, q.g); }
    if n != b.before && n != b.conv2 && x in Names(n.outputs) { OutputsAreMade(nodes, n, x); }
  }

  lemma FreshApart(e: Env, b: Block, w: Wires)
    requires Shaped(b) && FreshNames(e, b, w)
    ensures {Cf(w), Pre1(w), Pre2(w), Rhs(Weight1(b)), Rhs(Weight2(b))} !! e.Keys && {Rhs(Weight1(b)), Rhs(Weight2(b))} !! {Cf(w), Pre1(w), Pre2(w)}
    ensures Cf(w) != Pre1(w) && Cf(w) != Pre2(w) && Pre1(w) != Pre2(w) && Cf(w) != "" && Pre1(w) != "" && Pre2(w) != ""
  {
    hide Cf, Pre1, Pre2, Rhs;
    MadeDiffer(e, b, w);
    assert Made(b, w) == [Rhs(Weight1(b)), Rhs(Weight2(b)), Cf(w), Pre1(w), Pre2(w)];
  }

  lemma DeletingPlaced(nodes: seq<Node>, given: set<string>, b: Block, w: Wires, e: Env)
    requires Clean(nodes, given, b, w) && FreshNames(e, b, w) && e.Keys == given + Outs(nodes, |nodes|)
    ensures Placed(nodes, given, b, DeletingPlaces(w)) && Shaped(b) && Off(b, DeletingPlaces(w), nodes, NewGiven(given, b))
  {
    CleanIsShaped(nodes, given, b, w);
    hide Clean, Shaped, Outs, Cf, Pre1, Pre2, Rhs, Off, FreshNames, NewGiven, Placed;
    FreshApart(e, b, w);
    BlockPlaced(nodes, given, b, w);
    OffHolds(nodes, given, b, DeletingPlaces(w));
  }

  lemma CleanIsShaped(nodes: seq<Node>, given: set<string>, b: Block, w: Wires)
    requires Clean(nodes, given, b, w)
    ensures Shaped(b)
  {
    hide NoStrays, SingleAssignment, DistinctOutputs, UnitConv, TwoInputs, Parts;
  }

  lemma BlockPlaced(nodes: seq<Node>, given: set<string>, b: Block, w: Wires)
    requires Clean(nodes, given, b, w) && {Cf(w), Pre1(w), Pre2(w)} !! given + Outs(nodes, |nodes|)
    requires Cf(w) != Pre1(w) && Cf(w) != Pre2(w) && Pre1(w) != Pre2(w) && Cf(w) != "" && Pre1(w) != "" && Pre2(w) != ""
    ensures Placed(nodes, given, b, DeletingPlaces(w)) && Shaped(b)
  {
    hide NoStrays, SingleAssignment, DistinctOutputs, Outs, Cf, Pre1, Pre2, UnitConv, TwoInputs;
    PartsDiffer(b, w);
    assert b.before in Parts(b) && b.conv1 in Parts(b) && b.conv2 in Parts(b) && b.after in Parts(b) && b.glu in Parts(b);
    hide Parts;
    assert New({Cf(w)}, nodes, given) && New({Pre1(w)}, nodes, given) && New({Pre2(w)}, nodes, given);
  }

  lemma PartsDiffer(b: Block, w: Wires)
    requires Wired(b, w) && b.conv1 != b.conv2 && b.before != b.after
    ensures Shaped(b) && b.before !in {b.conv1, b.conv2, b.after} && b.after !in {b.conv1, b.conv2}
    ensures b.glu !in {b.before, b.conv1, b.conv2, b.after} && b.middle != Some(b.glu)
  {
    hide TwoInputs;
  }

  lemma DeletingYields(nodes: seq<Node>, given: set<string>, b: Block, w: Wires, after: set<string>)
    requires Clean(nodes, given, b, w) && Shaped(b) && Ready1(b) && Off(b, DeletingPlaces(w), nodes, after)
    requires Pre1(w) != w.c1 && Pre2(w) != w.y && Cf(w) != w.g && Pre1(w) != "" && Pre2(w) != "" && Cf(w) != ""
    ensures Yields(b, DeletingPlaces(w), nodes, after)
  {
    var q := DeletingPlaces(w);
    forall k | 0 <= k < |nodes|
      ensures SingleAssignment(Piece1(b, nodes[k]), after) && Outs(Piece1(b, nodes[k]), |Piece1(b, nodes[k])|) <= Yield(b, q, nodes[k])
    {
      DeletingYieldsAt(nodes, given, b, w, after, nodes[k], k);
    }
  }

  lemma DeletingYieldsAt(nodes: seq<Node>, given: set<string>, b: Block, w: Wires, after: set<string>, n: Node, k: nat)
    requires Clean(nodes, given, b, w) && Shaped(b) && Ready1(b) && Off(b, DeletingPlaces(w), nodes, after) && k < |nodes| && n == nodes[k]
    requires Pre1(w) != w.c1 && Pre2(w) != w.y && Cf(w) != w.g && Pre1(w) != "" && Pre2(w) != "" && Cf(w) != ""
    ensures SingleAssignment(Piece1(b, n), after) && Outs(Piece1(b, n), |Piece1(b, n)|) <= Yield(b, DeletingPlaces(w), n)
  {
    hide NoStrays, SingleAssignment, DistinctOutputs, Outs, Cf, Pre1, Pre2, Rhs, LinearPart, EditedInput;
    var q := DeletingPlaces(w);
    assert forall x | x in Yield(b, q, nodes[k]) :: x !in after && x != "";
    IsDeleting(b, n);
    PlaceNames(b, w);
    if n == b.before {
      LinearYields(b.conv1, Edited(b, b.before).inputs[0], Rhs(Weight1(b)), b.conv1.outputs, b.conv1.outputs[0] + "__pre_bias", after);
    } else if n == b.conv2 {
      LinearYields(b.conv2, Edited(b, b.conv2).inputs[0], Rhs(Weight2(b)), b.after.outputs, b.after.outputs[0] + "__pre_bias", after);
    } else if n == b.glu {
      var post := NtcNode(b.conv1.name + "/TransposeForDepthwise", b.glu.outputs[0], [ChannelsFirst(b)]);
      TwoNodes(Edited(b, n), post, w.g, Cf(w), after);
    } else if n == b.conv1 || n == b.middle.value || n == b.after {
      NothingSingle(after);
    } else {
      OneNode(Edited(b, n), after);
    }
  }

  lemma PlaceNames(b: Block, w: Wires)
    requires Wired(b, w) && Shaped(b)
    ensures b.conv1.outputs == [w.c1] && b.after.outputs == [w.y] && b.glu.outputs == [w.g]
    ensures Pre1(w) == b.conv1.outputs[0] + "__pre_bias" && Pre2(w) == b.after.outputs[0] + "__pre_bias" && Cf(w) == ChannelsFirst(b)
  {}

  lemma KeepingPlaced(nodes: seq<Node>, given: set<string>, b: Block, w: Ends, e: Env)
    requires Tidy(nodes, given, b, w) && FreshSix(e, b, w) && e.Keys == given + Outs(nodes, |nodes|) && Shaped(b)
    ensures Placed(nodes, given, b, KeepingPlaces(w)) && Off(b, KeepingPlaces(w), nodes, NewGiven(given, b))
  {
    hide SingleAssignment, DistinctOutputs, Outs, Rows1, Rows2, Ntc1, Ntc2, Rhs, Off, FreshSix, NewGiven, ReadOnlyBy, UnitConv, Placed;
    SixDiffer(e, b, w);
    assert Names6(b, w) == [Rhs(Weight1(b)), Rhs(Weight2(b)), Rows1(w), Ntc1(w), Ntc2(w), Rows2(w)];
    EndsPlaced(nodes, given, b, w);
    OffHolds(nodes, given, b, KeepingPlaces(w));
  }

  lemma EndsPlaced(nodes: seq<Node>, given: set<string>, b: Block, w: Ends)
    requires Tidy(nodes, given, b, w) && {Rows1(w), Ntc1(w), Ntc2(w), Rows2(w)} !! Outs(nodes, |nodes|)
    requires {Rows1(w), Ntc1(w), Ntc2(w), Rows2(w)} !! given && {Rows1(w), Ntc1(w)} !! {Ntc2(w), Rows2(w)}
    requires "" !in {Rows1(w), Ntc1(w), Ntc2(w), Rows2(w)}
    ensures Placed(nodes, given, b, KeepingPlaces(w))
  {
    hide SingleAssignment, DistinctOutputs, Outs, Rows1, Rows2, Ntc1, Ntc2, ReadOnlyBy;
  }

  lemma KeepingYieldsAt(nodes: seq<Node>, given: set<string>, b: Block, w: Ends, after: set<string>, n: Node, k: nat, e: Env)
    requires Tidy(nodes, given, b, w) && Ready1(b) && Off(b, KeepingPlaces(w), nodes, after) && k < |nodes| && n == nodes[k]
    requires FreshSix(e, b, w) && w.c1 in e && w.y in e
    ensures SingleAssignment(Piece1(b, n), after) && Outs(Piece1(b, n), |Piece1(b, n)|) <= Yield(b, KeepingPlaces(w), n)
  {
    hide SingleAssignment, DistinctOutputs, Outs, Rhs, FreshSix;
    var q, piece := KeepingPlaces(w), Piece1(b, n);
    assert forall x | x in Yield(b, q, nodes[k]) :: x !in after && x != "";
    SixDiffer(e, b, w);
    if n == b.before {
      ThreeNodes(piece[0], piece[1], piece[2], Rows1(w), Ntc1(w), w.c1, after);
      assert piece == [piece[0], piece[1], piece[2]];
    } else if n == b.conv1 || n == b.after {
      NothingSingle(after);
    } else if n == b.conv2 {
      ThreeNodes(piece[0], piece[1], piece[2], Ntc2(w), Rows2(w), w.y, after);
      assert piece == [piece[0], piece[1], piece[2]];
    } else {
      OneNode(n, after);
    }
  }

  // ---------------------------------------------------------------- proper form stays

  predicate GoodNode(n: Node) { OneOutput(n) && TwoOutputs(n) && DistinctOutputs(n) }

  predicate GoodNodes(nodes: seq<Node>) { forall k | 0 <= k < |nodes| :: GoodNode(nodes[k]) }

  /** What a caller can check of a model: operators have their outputs, every tensor one producer, no tensor the empty name. */
  ghost predicate Proper(m: Model, inputs: set<string>) {
    && inputs !! Arrays(m.inits).Keys && GoodNodes(m.nodes)
    && SingleAssignment(m.nodes, inputs + Arrays(m.inits).Keys) && "" !in inputs + Arrays(m.inits).Keys
  }

  lemma SingleOutput(n: Node, x: string)
    requires n.outputs == [x] && x != "" && !n.op.Split?
    ensures GoodNode(n)
  {}

  lemma LinearGood(conv: Node, input: string, rhs: string, outputs: seq<string>, pre: string)
    requires |conv.inputs| >= 2 && |outputs| == 1 && outputs[0] != "" && pre != ""
    ensures GoodNodes(LinearPart(conv, input, rhs, outputs, pre))
  {
    assert outputs == [outputs[0]];
  }

  lemma EditedGood(b: Block, n: Node)
    requires Shaped(b) && b.middle.Some? && GoodNode(n)
    ensures GoodNode(Edited(b, n)) && |Edited(b, n).inputs| == |n.inputs|
  {}

  lemma LongName(s: string, t: string)
    requires t != ""
    ensures s + t != ""
  {
    assert |s + t| > 0;
  }

  lemma PieceGood(b: Block, n: Node)
    requires Ready1(b) && GoodNode(n) && |b.conv1.outputs| == 1 && b.conv1.outputs[0] != "" && |b.after.outputs| == 1 && b.after.outputs[0] != ""
    ensures GoodNodes(Piece1(b, n))
  {
    hide LinearPart, Edited, GoodNode;
    var c1, y := b.conv1.outputs[0], b.after.outputs[0];
    assert b.conv1.outputs == [c1] && b.after.outputs == [y];
    LongName(c1, "__ntc_pre_bias");
    LongName(c1, "__ntc");
    LongName(c1, "__pre_bias");
    LongName(y, "__pre_bias");
    LongName(b.conv2.inputs[0], "__ntc");
    if b.middle.None? {
      var piece := Piece1(b, n);
      forall k | 0 <= k < |piece| ensures GoodNode(piece[k]) {
        if n == b.before || n == b.conv2 { SingleOutput(piece[k], piece[k].outputs[0]); }
      }
    } else {
      IsDeleting(b, n);
      LongName(b.glu.outputs[0], "__channels_first");
      EditedGood(b, n);
      if n == b.before {
        LinearGood(b.conv1, Edited(b, b.before).inputs[0], Rhs(Weight1(b)), b.conv1.outputs, c1 + "__pre_bias");
      } else if n == b.glu {
        SingleOutput(NtcNode(b.conv1.name + "/TransposeForDepthwise", b.glu.outputs[0], [ChannelsFirst(b)]), ChannelsFirst(b));
      } else if n == b.conv2 {
        LinearGood(b.conv2, Edited(b, b.conv2).inputs[0], Rhs(Weight2(b)), b.after.outputs, y + "__pre_bias");
      }
    }
  }

  lemma {:induction false} RebuiltGood(b: Block, nodes: seq<Node>, k: nat)
    requires Ready1(b) && GoodNodes(nodes) && k <= |nodes|
    requires |b.conv1.outputs| == 1 && b.conv1.outputs[0] != "" && |b.after.outputs| == 1 && b.after.outputs[0] != ""
    ensures GoodNodes(Rebuilt(b, nodes, k))
  {
    hide Piece1, GoodNode;
    if k > 0 {
      RebuiltGood(b, nodes, k - 1);
      PieceGood(b, nodes[k - 1]);
    }
  }

  // ---------------------------------------------------------------- one turn

  /** The names the rewrite of the block makes up are none of the given ones, and differ. */
  ghost predicate FreeIn(names: set<string>, b: Block)
    requires Shaped(b)
  {
    if b.middle.Some? then
      && |b.sigmoid.outputs| > 0 && |b.gate.outputs| > 0 && |b.act.outputs| > 0
      && AllDistinct(Made(b, WiresOf(b))) && forall x | x in Made(b, WiresOf(b)) :: x !in names && x != ""
    else Joined(b, EndsOf(b)) ==>
      AllDistinct(Names6(b, EndsOf(b))) && forall x | x in Names6(b, EndsOf(b)) :: x !in names && x != ""
  }

  function TensorsOf(m: Model, inputs: set<string>): set<string> { inputs + Arrays(m.inits).Keys + Outs(m.nodes, |m.nodes|) }

  /** If the turn lowers a block: nothing else looks into it, the made-up names are free, no output is a tensor it changes. */
  ghost predicate SafeTurn(m: Model, inputs: set<string>, conv1: Node, outputs: set<string>) {
    LowerPair(m, conv1).Ok? && LowerPair(m, conv1).value.Some? ==>
      var found := FindBlock(m.nodes, Arrays(m.inits), conv1);
      && found.Some? && Shaped(found.value) && Undisturbed(m.nodes, found.value)
      && FreeIn(TensorsOf(m, inputs), found.value) && Touched(found.value) !! outputs
  }

  lemma SafeTurnIsSafe(be: Backend, m: Model, inputs: Env, conv1: Node, e: Env, outputs: set<string>)
    requires Running(be, m, inputs, e) && SafeTurn(m, inputs.Keys, conv1, outputs)
    ensures Safe(m, conv1, e, outputs)
  {
    hide Outs, FindBlock, LowerPair, Undisturbed, Touched, Made, Names6, Eval, Arrays;
    RunningDefines(be, m, inputs, e);
  }

  lemma RunningIsProper(be: Backend, m: Model, inputs: Env, e: Env)
    ensures Running(be, m, inputs, e) <==> Proper(m, inputs.Keys) && Eval(be, inputs + Arrays(m.inits), m.nodes) == Some(e)
  {
    hide SingleAssignment, DistinctOutputs, OneOutput, TwoOutputs, Eval, Arrays;
  }

  /** The keys after a turn. */
  lemma NextGiven(m: Model, inputs: set<string>, b: Block)
    requires CanLower(m, b) && inputs !! Arrays(m.inits).Keys
    requires Rhs(Weight1(b)) !in inputs && Rhs(Weight2(b)) !in inputs
    ensures inputs !! Arrays(Lowered(m, b).inits).Keys
    ensures inputs + Arrays(Lowered(m, b).inits).Keys == NewGiven(inputs + Arrays(m.inits).Keys, b)
  {
    hide Arrays, Rhs, A.PointwiseMatrix, NewInits;
    NewArrays(m.inits, b, Arrays(m.inits)[Weight1(b)], Arrays(m.inits)[Weight2(b)]);
  }

  lemma DeletingSingle(be: Backend, m: Model, inputs: Env, b: Block, w: Wires, e: Env)
    requires Ran(be, m, inputs, b, w, e)
    ensures SingleAssignment(Lowered(m, b).nodes, NewGiven(inputs.Keys + Arrays(m.inits).Keys, b))
    ensures Rhs(Weight1(b)) !in inputs && Rhs(Weight2(b)) !in inputs
  {
    hide Clean, FreshNames, SingleAssignment, Eval, Arrays, Rhs, NewInits, Off, Yields, Placed, Pre1, Pre2, Cf, NewGiven;
    var given := inputs.Keys + Arrays(m.inits).Keys;
    RanSetting(be, m, inputs, b, w, e);
    MadeDiffer(e, b, w);
    assert Made(b, w) == [Rhs(Weight1(b)), Rhs(Weight2(b)), Cf(w), Pre1(w), Pre2(w)];
    DeletingPlaced(m.nodes, given, b, w, e);
    BlockTensors(m.nodes, given, b, w);
    DeletingYields(m.nodes, given, b, w, NewGiven(given, b));
    StaysSingle(m.nodes, given, b, DeletingPlaces(w), NewGiven(given, b), |m.nodes|);
  }

  lemma BlockTensors(nodes: seq<Node>, given: set<string>, b: Block, w: Wires)
    requires Clean(nodes, given, b, w)
    ensures w.c1 in Outs(nodes, |nodes|) && w.y in Outs(nodes, |nodes|) && w.g in Outs(nodes, |nodes|)
  {
    hide NoStrays, SingleAssignment, DistinctOutputs, Outs, UnitConv, TwoInputs;
    assert b.conv1 in Parts(b) && b.after in Parts(b) && b.glu in Parts(b);
    hide Parts;
    OutputsAreMade(nodes, b.conv1, w.c1);
    OutputsAreMade(nodes, b.after, w.y);
    OutputsAreMade(nodes, b.glu, w.g);
  }

  lemma KeepingSingle(be: Backend, m: Model, inputs: Env, b: Block, w: Ends, e: Env)
    requires RanKeeping(be, m, inputs, b, w, e)
    ensures SingleAssignment(Lowered(m, b).nodes, NewGiven(inputs.Keys + Arrays(m.inits).Keys, b))
    ensures Rhs(Weight1(b)) !in inputs && Rhs(Weight2(b)) !in inputs
  {
    hide Tidy, Joined, FreshSix, SingleAssignment, Eval, Arrays, Rhs, Piece1, Outs, NewInits, Off, Placed, Rows1, Rows2, Ntc1, Ntc2, NewGiven, KeepingPlaces, Yield;
    var given, nodes := inputs.Keys + Arrays(m.inits).Keys, m.nodes;
    RanSituation(be, m, inputs, b, w, e);
    TidyIsJoined(nodes, given, b, w);
    SixDiffer(e, b, w);
    assert Names6(b, w) == [Rhs(Weight1(b)), Rhs(Weight2(b)), Rows1(w), Ntc1(w), Ntc2(w), Rows2(w)];
    KeepingPlaced(nodes, given, b, w, e);
    EndTensors(nodes, given, b, w);
    forall k | 0 <= k < |nodes|
      ensures SingleAssignment(Piece1(b, nodes[k]), NewGiven(given, b))
      ensures Outs(Piece1(b, nodes[k]), |Piece1(b, nodes[k])|) <= Yield(b, KeepingPlaces(w), nodes[k])
    {
      KeepingYieldsAt(nodes, given, b, w, NewGiven(given, b), nodes[k], k, e);
    }
    StaysSingle(nodes, given, b, KeepingPlaces(w), NewGiven(given, b), |nodes|);
  }

  lemma TidyIsJoined(nodes: seq<Node>, given: set<string>, b: Block, w: Ends)
    requires Tidy(nodes, given, b, w)
    ensures Joined(b, w)
  {}

  lemma EndTensors(nodes: seq<Node>, given: set<string>, b: Block, w: Ends)
    requires Tidy(nodes, given, b, w)
    ensures w.c1 in Outs(nodes, |nodes|) && w.y in Outs(nodes, |nodes|)
  {
    hide SingleAssignment, DistinctOutputs, Outs, UnitConv, ReadOnlyBy;
    OutputsAreMade(nodes, b.conv1, w.c1);
    OutputsAreMade(nodes, b.after, w.y);
  }

  /** Lowering one pair leaves a model in proper form, with every wanted output still there. */
  lemma TurnStaysProper(be: Backend, m: Model, inputs: Env, conv1: Node, e: Env, outputs: set<string>)
    requires Running(be, m, inputs, e) && conv1 in m.nodes && Safe(m, conv1, e, outputs)
    requires LowerPair(m, conv1).Ok? && LowerPair(m, conv1).value.Some?
    ensures Proper(LowerPair(m, conv1).value.value, inputs.Keys)
  {
    hide Agrees, SingleAssignment, DistinctOutputs, Run, FindBlock, LowerPair, Undisturbed, Lowered, Standard, Eval, Arrays, GoodNode,
      Clean, Tidy, FreshNames, FreshSix, Joined, CanLower, NewGiven, Rhs, Regular;
    var given := inputs.Keys + Arrays(m.inits).Keys;
    var b := FindBlock(m.nodes, Arrays(m.inits), conv1).value;
    RunningIsRegular(be, m, inputs, e);
    LowerFacts(be, m, given, conv1, b, e);
    WeightsFound(be, m, given, conv1, b, e);
    EndsFound(be, m, given, conv1, b, e);
    if b.middle.Some? {
      FoundIsClean(be, m, given, conv1, b, e);
      DeletingSingle(be, m, inputs, b, WiresOf(b), e);
    } else {
      FoundIsTidy(be, m, given, conv1, b, e);
      TidyIsJoined(m.nodes, given, b, EndsOf(b));
      KeepingSingle(be, m, inputs, b, EndsOf(b), e);
    }
    NextIsProper(be, m, inputs, b, e);
  }

  lemma NextIsProper(be: Backend, m: Model, inputs: Env, b: Block, e: Env)
    requires Running(be, m, inputs, e) && CanLower(m, b)
    requires |b.conv1.outputs| == 1 && b.conv1.outputs[0] != "" && |b.after.outputs| == 1 && b.after.outputs[0] != ""
    requires Rhs(Weight1(b)) !in inputs && Rhs(Weight2(b)) !in inputs
    requires SingleAssignment(Lowered(m, b).nodes, NewGiven(inputs.Keys + Arrays(m.inits).Keys, b))
    ensures Proper(Lowered(m, b), inputs.Keys)
  {
    hide SingleAssignment, GoodNode, Eval, Arrays, NewInits;
    RunningIsProper(be, m, inputs, e);
    NextGiven(m, inputs.Keys, b);
    RebuiltGood(b, m.nodes, |m.nodes|);
    assert Rhs(Weight1(b)) != "" by { LongName(Weight1(b), "__matmul_rhs"); }
    assert Rhs(Weight2(b)) != "" by { LongName(Weight2(b), "__matmul_rhs"); }
  }

  // ---------------------------------------------------------------- exactly which outputs survive

  /** A removed tensor is yielded by no replacement. */
  lemma GoneIsNotYielded(nodes: seq<Node>, given: set<string>, b: Block, w: Wires, n: Node, x: string)
    requires Clean(nodes, given, b, w) && Placed(nodes, given, b, DeletingPlaces(w)) && n in nodes && x in Gone(w)
    requires x !in {Pre1(w), Pre2(w), Cf(w)}
    ensures x !in Yield(b, DeletingPlaces(w), n)
  {
    hide NoStrays, SingleAssignment, DistinctOutputs, Outs, UnitConv, TwoInputs, Placed, Pre1, Pre2, Cf, New;
    var q := DeletingPlaces(w);
    assert w.c1 in b.conv1.outputs && w.y in b.after.outputs;
    if x in Yield(b, q, n) {
      assert b.before in Parts(b) && b.middle.value in Parts(b) && b.conv1 in Parts(b) && b.conv2 in Parts(b) && b.after in Parts(b);
      hide Parts;
      YieldOwner(nodes, given, b, q, n, x);
      var p := if x == w.t then b.before else if x == w.base then b.middle.value else b.conv2;
      OnlyMaker(nodes, given, p, x);
    }
  }

  lemma GoneIsGone(be: Backend, m: Model, inputs: Env, b: Block, w: Wires, e: Env, x: string)
    requires Ran(be, m, inputs, b, w, e) && x in Gone(w)
    ensures x !in NewGiven(inputs.Keys + Arrays(m.inits).Keys, b) && x !in Outs(Lowered(m, b).nodes, |Lowered(m, b).nodes|)
  {
    hide Clean, FreshNames, SingleAssignment, Eval, Arrays, Rhs, NewInits, Off, Yields, Placed, Pre1, Pre2, Cf, Gone, Piece1, Yield, Outs;
    var given, nodes := inputs.Keys + Arrays(m.inits).Keys, m.nodes;
    RanSetting(be, m, inputs, b, w, e);
    MadeDiffer(e, b, w);
    assert Made(b, w) == [Rhs(Weight1(b)), Rhs(Weight2(b)), Cf(w), Pre1(w), Pre2(w)];
    DeletingPlaced(nodes, given, b, w, e);
    BlockTensors(nodes, given, b, w);
    DeletingYields(nodes, given, b, w, NewGiven(given, b));
    StaysSingle(nodes, given, b, DeletingPlaces(w), NewGiven(given, b), |nodes|);
    InsideIsMade(nodes, given, b, w, x);
    GoneIsMade(nodes, given, b, w, x);
    if x in Made1(b, nodes, |nodes|) {
      var j :| 0 <= j < |nodes| && x in Yield(b, DeletingPlaces(w), nodes[j]);
      GoneIsNotYielded(nodes, given, b, w, nodes[j], x);
    }
  }

  lemma GoneIsMade(nodes: seq<Node>, given: set<string>, b: Block, w: Wires, x: string)
    requires Clean(nodes, given, b, w) && x in Gone(w)
    ensures x in Outs(nodes, |nodes|)
  {
    hide NoStrays, SingleAssignment, DistinctOutputs, Outs, UnitConv, TwoInputs;
    assert b.before in Parts(b) && b.middle.value in Parts(b) && b.conv2 in Parts(b);
    hide Parts;
    OutputsAreMade(nodes, if x == w.t then b.before else if x == w.base then b.middle.value else b.conv2, x);
  }

  /**
   * Without the check on outputs that the pass does not make: all outputs keep their values if and only if none is a
   * removed tensor, and every one inside the block equals its own transpose.
   */
  lemma DeletingOutputsExactly(be: Backend, m: Model, inputs: Env, b: Block, w: Wires, e: Env, outputs: set<string>)
    requires Ran(be, m, inputs, b, w, e) && outputs <= inputs.Keys + Outs(m.nodes, |m.nodes|)
    ensures Swapped(w) <= e.Keys && outputs <= e.Keys && forall x | x in Swapped(w) :: Rank(e[x], 3)
    ensures var next := Lowered(m, b);
      var r := Eval(be, inputs + Arrays(next.inits), next.nodes);
      && r.Some?
      && ((forall o | o in outputs :: o in r.value && r.value[o] == e[o])
          <==> forall o | o in outputs :: o !in Gone(w) && (o in Swapped(w) ==> Swap(e[o]) == e[o]))
  {
    hide Clean, FreshNames, SingleAssignment, Rhs, NewInits, Eval, Arrays, Gone, Swapped, Swap, Outs, NewGiven, Rebuilt;
    var given, next := inputs.Keys + Arrays(m.inits).Keys, Lowered(m, b);
    DeletingPreserves(be, m, inputs, b, w, e);
    RanSetting(be, m, inputs, b, w, e);
    var r := Eval(be, inputs + Arrays(next.inits), next.nodes).value;
    DeletingSingle(be, m, inputs, b, w, e);
    NextGiven(m, inputs.Keys, b);
    EvalWrites(be, inputs + Arrays(next.inits), next.nodes);
    forall o | o in outputs && o in Gone(w) ensures o !in r { GoneIsGone(be, m, inputs, b, w, e, o); }
    forall x | x in Swapped(w) ensures x !in Gone(w) && x in Outs(m.nodes, |m.nodes|) { SwappedIsMade(m.nodes, given, b, w, x); }
    forall o | o in outputs ensures o in e && (o !in Gone(w) ==> o in r && r[o] == if o in Swapped(w) then Swap(e[o]) else e[o]) {}
  }

  // ---------------------------------------------------------------- the loop

  /** Every turn of the loop that lowers a block is safe. */
  ghost predicate SafeTurns(m: Model, inputs: set<string>, names: seq<string>, outputs: set<string>)
    decreases names
  {
    names != [] ==>
      match First(m.nodes, Called(names[0]))
      case None => SafeTurns(m, inputs, names[1..], outputs)
      case Some(conv1) =>
        SafeTurn(m, inputs, conv1, outputs) &&
        match LowerPair(m, conv1)
        case Err(_) => true
        case Ok(None) => SafeTurns(m, inputs, names[1..], outputs)
        case Ok(Some(next)) => SafeTurns(next, inputs, names[1..], outputs)
  }

  /** An output that is there afterwards was an input or is produced by a node of the new list. */
  lemma StillProduced(be: Backend, m: Model, next: Model, inputs: Env, e: Env, r: Env, outputs: set<string>)
    requires Running(be, m, inputs, e) && outputs <= inputs.Keys + Outs(m.nodes, |m.nodes|)
    requires Eval(be, inputs + Arrays(next.inits), next.nodes) == Some(r) && outputs <= r.Keys
    requires outputs !! Arrays(next.inits).Keys
    ensures outputs <= inputs.Keys + Outs(next.nodes, |next.nodes|)
  {
    hide Run, SingleAssignment, Arrays, Outs;
    EvalWrites(be, inputs + Arrays(next.inits), next.nodes);
  }

  /**
   * The pass over any number of pairs: on a model in proper form whose turns are safe, the result is in proper form,
   * evaluates on every input the model evaluates on, and keeps every output.
   */
  lemma {:induction false} PassKeepsOutputs(be: Backend, m: Model, inputs: Env, names: seq<string>, outputs: set<string>, e: Env)
    requires Proper(m, inputs.Keys) && SafeTurns(m, inputs.Keys, names, outputs) && LowerNames(m, names).Ok?
    requires Eval(be, inputs + Arrays(m.inits), m.nodes) == Some(e) && outputs <= inputs.Keys + Outs(m.nodes, |m.nodes|)
    ensures var next := LowerNames(m, names).value;
      var r := Eval(be, inputs + Arrays(next.inits), next.nodes);
      Proper(next, inputs.Keys) && r.Some? && forall o | o in outputs :: o in r.value && o in e && r.value[o] == e[o]
    decreases names
  {
    hide LowerPair, Running, Safe, SafeTurn, Eval, Arrays, Proper, Outs;
    RunningIsProper(be, m, inputs, e);
    if names == [] {
      OutputsDefined(be, m, inputs, e, outputs);
    } else {
      var found := First(m.nodes, Called(names[0]));
      if found.None? || LowerPair(m, found.value).value.None? {
        PassKeepsOutputs(be, m, inputs, names[1..], outputs, e);
      } else {
        var next := LowerPair(m, found.value).value.value;
        SafeTurnIsSafe(be, m, inputs, found.value, e, outputs);
        PairPreserves(be, m, inputs, found.value, e, outputs);
        TurnStaysProper(be, m, inputs, found.value, e, outputs);
        var r := Eval(be, inputs + Arrays(next.inits), next.nodes).value;
        OutputsAreNoConstants(be, m, inputs, found.value, e, outputs);
        StillProduced(be, m, next, inputs, e, r, outputs);
        PassKeepsOutputs(be, next, inputs, names[1..], outputs, r);
      }
    }
  }

  lemma OutputsDefined(be: Backend, m: Model, inputs: Env, e: Env, outputs: set<string>)
    requires Running(be, m, inputs, e) && outputs <= inputs.Keys + Outs(m.nodes, |m.nodes|)
    ensures outputs <= e.Keys
  {
    RunningDefines(be, m, inputs, e);
  }

  /** Neither an old nor a new constant is an output. */
  lemma OutputsAreNoConstants(be: Backend, m: Model, inputs: Env, conv1: Node, e: Env, outputs: set<string>)
    requires Running(be, m, inputs, e) && conv1 in m.nodes && Safe(m, conv1, e, outputs)
    requires LowerPair(m, conv1).Ok? && LowerPair(m, conv1).value.Some? && outputs <= inputs.Keys + Outs(m.nodes, |m.nodes|)
    ensures outputs !! Arrays(LowerPair(m, conv1).value.value.inits).Keys
  {
    hide Agrees, DistinctOutputs, Run, FindBlock, LowerPair, Undisturbed, Lowered, Standard, Eval, Arrays, SingleAssignment,
      Clean, Tidy, FreshNames, FreshSix, Joined, CanLower, Rhs, Regular, Outs, Touched, Swapped, Gone;
    var given := inputs.Keys + Arrays(m.inits).Keys;
    var b := FindBlock(m.nodes, Arrays(m.inits), conv1).value;
    RunningIsRegular(be, m, inputs, e);
    RunningDefines(be, m, inputs, e);
    LowerFacts(be, m, given, conv1, b, e);
    GivenNotMade(m.nodes, given);
    NewConstants(be, m, inputs, conv1, b, e);
  }

  lemma NewConstants(be: Backend, m: Model, inputs: Env, conv1: Node, b: Block, e: Env)
    requires Found(be, m, inputs.Keys + Arrays(m.inits).Keys, conv1, b, e) && CanLower(m, b) && Free(e, b)
    ensures Rhs(Weight1(b)) !in e && Rhs(Weight2(b)) !in e
    ensures Arrays(Lowered(m, b).inits).Keys <= Arrays(m.inits).Keys + {Rhs(Weight1(b)), Rhs(Weight2(b))}
  {
    hide FindBlock, LowerPair, Undisturbed, Arrays, Clean, Tidy, FreshNames, FreshSix, Joined, Rhs, Regular, NewInits, A.PointwiseMatrix;
    var given := inputs.Keys + Arrays(m.inits).Keys;
    if b.middle.Some? {
      MadeDiffer(e, b, WiresOf(b));
    } else {
      FoundIsTidy(be, m, given, conv1, b, e);
      TidyIsJoined(m.nodes, given, b, EndsOf(b));
      SixDiffer(e, b, EndsOf(b));
    }
    NewArrays(m.inits, b, Arrays(m.inits)[Weight1(b)], Arrays(m.inits)[Weight2(b)]);
  }
}
