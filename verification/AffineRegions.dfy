/** What the checks of the layout optimization establish: every node of the graph is the opening
    convolution of a pair, its closing convolution, its removed transpose, an element-wise node inside the
    pair's region, or has nothing to do with any pair. */
module AffineRegions {
  import opened Wrappers
  import opened Tensors
  import opened OnnxGraph
  import opened AffineBlocks
  import opened AffineLowering

  /** A graph, the names defined before its first node runs, and the pairs kept in NTC. */
  datatype Source = Source(nodes: seq<Node>, arrays: Env, outputs: seq<string>, given: set<string>, pairs: seq<Pair>)

  function Scalars(s: Source): set<string> { ScalarNames(s.nodes, s.arrays) }

  ghost predicate NodeIs(nodes: seq<Node>, k: int, n: Node) { 0 <= k < |nodes| && nodes[k] == n }

  ghost predicate PairChecked(s: Source, p: Pair) {
    && p.first.op.Conv? && EndsWith(p.first.name, FIRST_SUFFIX) && OneOutput(p.first) && |p.first.inputs| >= 2
    && p.second.op.Conv? && p.second.name == SecondName(p.first.name) && OneOutput(p.second) && |p.second.inputs| >= 2
    && p.transpose.op == Transpose(NTC_PERM) && |p.transpose.inputs| >= 1 && p.transpose.outputs == [p.first.inputs[0]]
    && PointwiseWeight(s.arrays, p.first) && PointwiseWeight(s.arrays, p.second)
    && Consumers(s.nodes, p.transpose.outputs[0]) == [p.first]
    && HasLayoutInvariantPath(s.nodes, s.outputs, p.first, p.second, Scalars(s))
    && (exists k :: NodeIs(s.nodes, k, p.first))
    && (exists k :: NodeIs(s.nodes, k, p.second))
    && (exists k :: NodeIs(s.nodes, k, p.transpose))
  }

  ghost predicate UniqueNames(nodes: seq<Node>) {
    forall i, j | 0 <= i < |nodes| && 0 <= j < |nodes| && nodes[i].name == nodes[j].name :: i == j
  }

  ghost predicate WellFormed(s: Source) {
    && Standard(s.nodes) && SingleAssignment(s.nodes, s.given) && s.arrays.Keys <= s.given
    && (s.pairs != [] ==> UniqueNames(s.nodes))
    && forall i {:trigger PairChecked(s, s.pairs[i])} | 0 <= i < |s.pairs| :: PairChecked(s, s.pairs[i])
  }

  lemma {:induction false} ByNameFinds(nodes: seq<Node>, name: string)
    requires ByName(nodes, name).Some?
    ensures ByName(nodes, name).value.name == name
    ensures exists k :: NodeIs(nodes, k, ByName(nodes, name).value)
  {
    var m := |nodes| - 1;
    if nodes[m].name == name {
      assert NodeIs(nodes, m, nodes[m]);
    } else {
      ByNameFinds(nodes[..m], name);
      var k :| NodeIs(nodes[..m], k, ByName(nodes[..m], name).value);
      assert NodeIs(nodes, k, ByName(nodes, name).value);
    }
  }

  lemma {:induction false} ProducerFinds(nodes: seq<Node>, x: string)
    requires Producer(nodes, x).Some?
    ensures Produces(Producer(nodes, x).value, x)
    ensures exists k :: NodeIs(nodes, k, Producer(nodes, x).value)
  {
    var m := |nodes| - 1;
    if Produces(nodes[m], x) {
      assert NodeIs(nodes, m, nodes[m]);
    } else {
      ProducerFinds(nodes[..m], x);
      var k :| NodeIs(nodes[..m], k, Producer(nodes[..m], x).value);
      assert NodeIs(nodes, k, Producer(nodes, x).value);
    }
  }

  /** Every pair the search returns has been checked. */
  lemma PairIsChecked(nodes: seq<Node>, arrays: Env, outputs: seq<string>, given: set<string>, excluded: set<string>,
                      pairs: seq<Pair>, q: nat, p: Pair)
    requires Standard(nodes) && q < |nodes| && PairOf(nodes, arrays, outputs, excluded, nodes[q]) == Some(p)
    ensures PairChecked(Source(nodes, arrays, outputs, given, pairs), p)
  {
    hide HasLayoutInvariantPath, ByName, Producer, Consumers, EndsWith, SecondName, ScalarNames, PointwiseWeight;
    assert p.first == nodes[q];
    PointwiseHasInputs(arrays, p.first);
    PointwiseHasInputs(arrays, p.second);
    assert NodeIs(nodes, q, p.first);
    ByNameFinds(nodes, SecondName(p.first.name));
    ProducerFinds(nodes, p.first.inputs[0]);
    var r :| NodeIs(nodes, r, p.second);
    var t :| NodeIs(nodes, t, p.transpose);
    assert OneOutput(nodes[q]) && OneOutput(nodes[r]) && OneOutput(nodes[t]);
  }

  lemma PointwiseHasInputs(arrays: Env, n: Node)
    requires PointwiseWeight(arrays, n)
    ensures |n.inputs| >= 2
  {}

  lemma PairsAreChecked(nodes: seq<Node>, arrays: Env, outputs: seq<string>, given: set<string>, excluded: set<string>)
    requires Standard(nodes)
    ensures var pairs := Pairs(nodes, arrays, outputs, excluded, |nodes|);
      forall i | 0 <= i < |pairs| :: PairChecked(Source(nodes, arrays, outputs, given, pairs), pairs[i])
  {
    hide PairOf, PairChecked;
    var pairs := Pairs(nodes, arrays, outputs, excluded, |nodes|);
    PairsAreReal(nodes, arrays, outputs, excluded, |nodes|);
    forall i | 0 <= i < |pairs| ensures PairChecked(Source(nodes, arrays, outputs, given, pairs), pairs[i]) {
      var p := pairs[i];
      assert p in pairs;
      var q :| 0 <= q < |nodes| && PairOf(nodes, arrays, outputs, excluded, nodes[q]) == Some(p) && p.first == nodes[q];
      PairIsChecked(nodes, arrays, outputs, given, excluded, pairs, q, p);
    }
  }

  // ---------------------------------------------------------------- the region of one pair

  ghost function LayoutAt(s: Source, i: nat, k: nat): Option<set<string>>
    requires WellFormed(s) && i < |s.pairs| && k <= |s.nodes|
  {
    assert PairChecked(s, s.pairs[i]);
    Scan(s.nodes, k, s.pairs[i].first, s.pairs[i].second, Scalars(s))
  }

  ghost function Region(s: Source, i: nat): set<string>
    requires WellFormed(s) && i < |s.pairs|
  {
    assert PairChecked(s, s.pairs[i]);
    LayoutAt(s, i, |s.nodes|).value
  }

  ghost predicate Later(nodes: seq<Node>, k: nat, x: string) {
    exists j :: k <= j < |nodes| && Produces(nodes[j], x)
  }

  /** What the scan knows at node `k` and what the whole region is differ only by what later nodes produce. */
  lemma {:induction false} ScanGrows(s: Source, i: nat, k: nat)
    requires WellFormed(s) && i < |s.pairs| && k <= |s.nodes|
    ensures LayoutAt(s, i, k).Some? && LayoutAt(s, i, k).value <= Region(s, i)
    ensures forall x | x in Region(s, i) && x !in LayoutAt(s, i, k).value :: Later(s.nodes, k, x)
    decreases |s.nodes| - k
  {
    assert PairChecked(s, s.pairs[i]);
    if k < |s.nodes| {
      ScanGrows(s, i, k + 1);
      forall x | x in Region(s, i) && x !in LayoutAt(s, i, k).value ensures Later(s.nodes, k, x) {
        if x in LayoutAt(s, i, k + 1).value {
          assert Produces(s.nodes[k], x);
        } else {
          var j :| k + 1 <= j < |s.nodes| && Produces(s.nodes[j], x);
        }
      }
    }
  }

  /** A tensor of the region comes out of the opening convolution or out of a node that passed the checks. */
  lemma {:induction false} ScanOrigin(s: Source, i: nat, k: nat, x: string) returns (j: nat)
    requires WellFormed(s) && i < |s.pairs| && k <= |s.nodes| && LayoutAt(s, i, k).Some? && x in LayoutAt(s, i, k).value
    ensures j < |s.nodes| && Produces(s.nodes[j], x)
    ensures s.nodes[j] == s.pairs[i].first
      || (j < k && LayoutAt(s, i, j).Some? && Touches(s.nodes[j], LayoutAt(s, i, j).value)
          && Passes(s.nodes[j], LayoutAt(s, i, j).value, Scalars(s))
          && s.nodes[j].name != s.pairs[i].first.name && s.nodes[j].name != s.pairs[i].second.name)
    decreases k
  {
    var p := s.pairs[i];
    assert PairChecked(s, p);
    if k == 0 {
      j :| NodeIs(s.nodes, j, p.first);
    } else if x in LayoutAt(s, i, k - 1).value {
      j := ScanOrigin(s, i, k - 1, x);
    } else {
      j := k - 1;
    }
  }

  ghost predicate Defined(s: Source, k: nat, x: string)
    requires k <= |s.nodes|
  {
    x in s.given || x in Outs(s.nodes, k)
  }

  /** A region tensor that is already defined is already known to the scan. */
  lemma Early(s: Source, i: nat, k: nat, x: string)
    requires WellFormed(s) && i < |s.pairs| && k <= |s.nodes| && x in Region(s, i) && Defined(s, k, x)
    ensures LayoutAt(s, i, k).Some? && x in LayoutAt(s, i, k).value
  {
    ScanGrows(s, i, k);
    if x !in LayoutAt(s, i, k).value {
      var j :| k <= j < |s.nodes| && Produces(s.nodes[j], x);
      if x in Outs(s.nodes, k) {
        var j' := OutsFrom(s.nodes, k, x);
        assert false;
      }
    }
  }

  lemma RegionIsProduced(s: Source, i: nat, x: string)
    requires WellFormed(s) && i < |s.pairs| && x in Region(s, i)
    ensures x !in s.given && x != ""
  {
    ScanGrows(s, i, |s.nodes|);
    var j := ScanOrigin(s, i, |s.nodes|, x);
  }

  ghost predicate ElementWise(n: Node) { n.op.Unary? || n.op.Binary? }

  /** Only element-wise nodes and the opening convolution put tensors into a region. */
  lemma OutputsOutside(s: Source, i: nat, k: nat, x: string)
    requires WellFormed(s) && i < |s.pairs| && k < |s.nodes| && Produces(s.nodes[k], x)
    requires s.nodes[k] != s.pairs[i].first
    requires !ElementWise(s.nodes[k]) || !Touches(s.nodes[k], Region(s, i))
    ensures x !in Region(s, i)
  {
    ScanGrows(s, i, |s.nodes|);
    if x in LayoutAt(s, i, |s.nodes|).value {
      var j := ScanOrigin(s, i, |s.nodes|, x);
      assert j == k;
      ScanGrows(s, i, k);
      WiderTouch(s.nodes[k], LayoutAt(s, i, k).value, Region(s, i));
      assert false;
    }
  }

  lemma WiderTouch(n: Node, narrow: set<string>, wide: set<string>)
    requires narrow <= wide
    ensures Touches(n, narrow) ==> Touches(n, wide)
  {}

  /** A node that reads a region, other than the two convolutions of the pair, passed the checks. */
  lemma ReaderPasses(s: Source, i: nat, k: nat, x: string)
    requires WellFormed(s) && i < |s.pairs| && k < |s.nodes| && Reads(s.nodes[k], x)
    requires x in Region(s, i) && Defined(s, k, x)
    requires s.nodes[k].name != s.pairs[i].first.name && s.nodes[k].name != s.pairs[i].second.name
    ensures LayoutAt(s, i, k).Some? && Passes(s.nodes[k], LayoutAt(s, i, k).value, Scalars(s))
    ensures Names(s.nodes[k].outputs) <= Region(s, i)
  {
    Early(s, i, k, x);
    ScanGrows(s, i, k);
    ScanGrows(s, i, k + 1);
    assert Touches(s.nodes[k], LayoutAt(s, i, k).value);
  }

  // ---------------------------------------------------------------- all pairs together

  ghost predicate InRegion(s: Source, x: string)
    requires WellFormed(s)
  {
    exists i :: 0 <= i < |s.pairs| && x in Region(s, i)
  }

  /** `x` is the output of the transpose that the `i`-th pair removes. */
  predicate IsTransposed(s: Source, i: int, x: string) {
    0 <= i < |s.pairs| && s.pairs[i].transpose.outputs == [x]
  }

  ghost predicate IsRemoved(s: Source, x: string) {
    exists i :: IsTransposed(s, i, x)
  }

  /** The tensor the removed transpose of a pair reads. */
  function TransposeInput(p: Pair): string {
    if |p.transpose.inputs| >= 1 then p.transpose.inputs[0] else ""
  }

  /** Where the value of a tensor is found in the rewritten graph, and whether it is found transposed. */
  datatype Place = Place(name: string, swapped: bool)

  ghost function PlaceOf(s: Source, x: string): Place
    requires WellFormed(s)
  {
    if InRegion(s, x) then Place(x, true)
    else if IsRemoved(s, x) then
      var i :| IsTransposed(s, i, x);
      Place(TransposeInput(s.pairs[i]), true)
    else Place(x, false)
  }

  ghost predicate Plain(s: Source, x: string)
    requires WellFormed(s)
  {
    !InRegion(s, x) && !IsRemoved(s, x)
  }

  lemma NodeOfPair(s: Source, i: nat, n: Node) returns (k: nat)
    requires WellFormed(s) && i < |s.pairs| && n in {s.pairs[i].first, s.pairs[i].second, s.pairs[i].transpose}
    ensures NodeIs(s.nodes, k, n)
  {
    hide HasLayoutInvariantPath, Consumers;
    assert PairChecked(s, s.pairs[i]);
    k :| NodeIs(s.nodes, k, n);
  }

  lemma {:induction false} UsesPositive(inputs: seq<string>, x: string)
    requires x in inputs
    ensures Uses(inputs, x) >= 1
  {
    if inputs[0] != x { UsesPositive(inputs[1..], x); }
  }

  lemma {:induction false} ReaderIsConsumer(nodes: seq<Node>, k: nat, x: string)
    requires k < |nodes| && Reads(nodes[k], x)
    ensures nodes[k] in Consumers(nodes, x)
  {
    var m := |nodes| - 1;
    if k == m {
      UsesPositive(nodes[m].inputs, x);
      var last := seq(Uses(nodes[m].inputs, x), _ => nodes[m]);
      assert last[0] == nodes[m];
      assert Consumers(nodes, x)[|Consumers(nodes[..m], x)|] == last[0];
    } else {
      ReaderIsConsumer(nodes[..m], k, x);
    }
  }

  lemma ConsumersAreReaders(s: Source, i: nat, k: nat)
    requires WellFormed(s) && i < |s.pairs| && k < |s.nodes| && s.nodes[k] != s.pairs[i].first
    ensures forall x | IsTransposed(s, i, x) :: !Reads(s.nodes[k], x)
  {
    hide HasLayoutInvariantPath;
    assert PairChecked(s, s.pairs[i]);
    forall x | IsTransposed(s, i, x) && Reads(s.nodes[k], x) ensures false {
      ReaderIsConsumer(s.nodes, k, x);
    }
  }

  lemma {:induction false} ScalarIsConstant(nodes: seq<Node>, x: string) returns (k: nat)
    requires x in ConstantScalars(nodes)
    ensures k < |nodes| && nodes[k].op.Constant? && nodes[k].outputs == [x] && nodes[k].op.value.Some? && Single(nodes[k].op.value.value)
  {
    var m := |nodes| - 1;
    if x in ConstantScalars(nodes[..m]) {
      k := ScalarIsConstant(nodes[..m], x);
    } else {
      k := m;
    }
  }

  lemma TransposeIndex(s: Source, i: nat) returns (t: nat)
    requires WellFormed(s) && i < |s.pairs|
    ensures NodeIs(s.nodes, t, s.pairs[i].transpose)
    ensures s.pairs[i].transpose.op == Transpose(NTC_PERM) && |s.pairs[i].transpose.inputs| >= 1
    ensures |s.pairs[i].transpose.outputs| == 1 && Produces(s.nodes[t], s.pairs[i].transpose.outputs[0])
  {
    hide HasLayoutInvariantPath, Consumers;
    assert PairChecked(s, s.pairs[i]);
    t := NodeOfPair(s, i, s.pairs[i].transpose);
    assert OneOutput(s.nodes[t]);
  }

  lemma ConvOps(s: Source, i: nat)
    requires WellFormed(s) && i < |s.pairs|
    ensures s.pairs[i].first.op.Conv? && s.pairs[i].second.op.Conv? && s.pairs[i].transpose.op.Transpose?
    ensures OneOutput(s.pairs[i].first) && OneOutput(s.pairs[i].second)
    ensures |s.pairs[i].first.inputs| >= 2 && |s.pairs[i].second.inputs| >= 2
    ensures s.pairs[i].transpose.outputs == [s.pairs[i].first.inputs[0]]
  {
    hide HasLayoutInvariantPath, Consumers;
    assert PairChecked(s, s.pairs[i]);
  }

  /** A tensor given from outside is found where it was. */
  lemma GivenIsPlain(s: Source, x: string)
    requires WellFormed(s) && x in s.given
    ensures Plain(s, x)
  {
    hide PairChecked;
    forall i | 0 <= i < |s.pairs| ensures x !in Region(s, i) && !IsTransposed(s, i, x) {
      var t := TransposeIndex(s, i);
      GivenOutside(s, i, x);
    }
  }

  lemma GivenOutside(s: Source, i: nat, x: string)
    requires WellFormed(s) && i < |s.pairs| && x in s.given
    ensures x !in Region(s, i)
  {
    hide PairChecked;
    if x in Region(s, i) { RegionIsProduced(s, i, x); }
  }

  /** So is a tensor produced outside all pairs. */
  lemma ProducedIsPlain(s: Source, k: nat, x: string)
    requires WellFormed(s) && k < |s.nodes| && Produces(s.nodes[k], x)
    requires forall i | 0 <= i < |s.pairs| :: s.nodes[k] != s.pairs[i].first && s.nodes[k] != s.pairs[i].transpose
    requires !ElementWise(s.nodes[k]) || forall i | 0 <= i < |s.pairs| :: !Touches(s.nodes[k], Region(s, i))
    ensures Plain(s, x)
  {
    hide PairChecked, Region;
    forall i | 0 <= i < |s.pairs| ensures x !in Region(s, i) && !IsTransposed(s, i, x) {
      OutputsOutside(s, i, k, x);
      var t := TransposeIndex(s, i);
      assert s.nodes[t] != s.nodes[k];
    }
  }

  lemma ScalarIsPlain(s: Source, x: string)
    requires WellFormed(s) && x in Scalars(s)
    ensures Plain(s, x)
  {
    hide PairChecked, Plain, ElementWise;
    if x in s.arrays {
      GivenIsPlain(s, x);
    } else {
      var k := ScalarIsConstant(s.nodes, x);
      assert OneOutput(s.nodes[k]);
      forall i | 0 <= i < |s.pairs| ensures s.nodes[k] != s.pairs[i].first && s.nodes[k] != s.pairs[i].transpose {
        ConvOps(s, i);
      }
      assert !ElementWise(s.nodes[k]) by { ElementWiseIs(s.nodes[k]); }
      ProducedIsPlain(s, k, x);
    }
  }

  lemma ElementWiseIs(n: Node)
    ensures ElementWise(n) <==> n.op.Unary? || n.op.Binary?
  {}

  /** The tensor between a removed transpose and its convolution is found, transposed, one node earlier. */
  lemma TransposePlace(s: Source, i: nat)
    requires WellFormed(s) && i < |s.pairs| && |s.pairs[i].transpose.outputs| == 1
    ensures PlaceOf(s, s.pairs[i].transpose.outputs[0]) == Place(TransposeInput(s.pairs[i]), true)
  {
    hide PairChecked, Region;
    var y := s.pairs[i].transpose.outputs[0];
    var t := TransposeIndex(s, i);
    assert IsTransposed(s, i, y);
    forall j | 0 <= j < |s.pairs| ensures y !in Region(s, j) {
      ConvOps(s, j);
      OutputsOutside(s, j, t, y);
    }
    forall j | 0 <= j < |s.pairs| ensures IsTransposed(s, j, y) ==> s.pairs[j].transpose == s.pairs[i].transpose {
      var t' := TransposeIndex(s, j);
    }
  }

  /** A node that is neither element-wise nor one of a pair's convolutions reads plain tensors only. */
  lemma NonElementWiseReadsPlain(s: Source, k: nat, x: string)
    requires WellFormed(s) && k < |s.nodes| && Reads(s.nodes[k], x) && Defined(s, k, x)
    requires !ElementWise(s.nodes[k])
    requires forall i | 0 <= i < |s.pairs| :: s.nodes[k] != s.pairs[i].first && s.nodes[k] != s.pairs[i].second
    ensures Plain(s, x)
  {
    hide PairChecked, Region, Defined;
    forall i | 0 <= i < |s.pairs| ensures x !in Region(s, i) && !IsTransposed(s, i, x) {
      ConsumersAreReaders(s, i, k);
      ReadsOutside(s, i, k, x);
    }
  }

  lemma OtherName(s: Source, i: nat, k: nat, n: Node)
    requires WellFormed(s) && i < |s.pairs| && k < |s.nodes| && n in {s.pairs[i].first, s.pairs[i].second, s.pairs[i].transpose}
    requires s.nodes[k] != n
    ensures s.nodes[k].name != n.name
  {
    var j := NodeOfPair(s, i, n);
  }

  lemma ReadsOutside(s: Source, i: nat, k: nat, x: string)
    requires WellFormed(s) && k < |s.nodes| && i < |s.pairs| && Reads(s.nodes[k], x) && Defined(s, k, x)
    requires !ElementWise(s.nodes[k]) && s.nodes[k] != s.pairs[i].first && s.nodes[k] != s.pairs[i].second
    ensures x !in Region(s, i)
  {
    hide PairChecked, Defined, Region;
    OtherName(s, i, k, s.pairs[i].first);
    OtherName(s, i, k, s.pairs[i].second);
    if x in Region(s, i) {
      ReaderPasses(s, i, k, x);
    }
  }

  /** An element-wise node that reads one tensor of a region lies inside that region. */
  lemma ElementWiseReads(s: Source, i: nat, k: nat, x: string)
    requires WellFormed(s) && i < |s.pairs| && k < |s.nodes| && Reads(s.nodes[k], x) && Defined(s, k, x)
    requires ElementWise(s.nodes[k]) && x in Region(s, i)
    ensures Names(s.nodes[k].outputs) <= Region(s, i)
    ensures s.nodes[k].op.Unary? ==> |s.nodes[k].inputs| == 1
    ensures s.nodes[k].op.Binary? ==> forall j | 0 <= j < |s.nodes[k].inputs| ::
              s.nodes[k].inputs[j] in Region(s, i) || s.nodes[k].inputs[j] in Scalars(s)
  {
    hide PairChecked, Defined, Region, Scalars;
    ConvOps(s, i);
    OtherName(s, i, k, s.pairs[i].first);
    OtherName(s, i, k, s.pairs[i].second);
    ReaderPasses(s, i, k, x);
    ScanGrows(s, i, k);
  }

  lemma ElementWiseNotTransposed(s: Source, k: nat, x: string)
    requires WellFormed(s) && k < |s.nodes| && Reads(s.nodes[k], x) && ElementWise(s.nodes[k])
    ensures !IsRemoved(s, x)
  {
    hide PairChecked;
    forall i | 0 <= i < |s.pairs| ensures !IsTransposed(s, i, x) {
      ConvOps(s, i);
      ConsumersAreReaders(s, i, k);
    }
  }
}
