/** Looking tensors up in a graph in single-assignment form: who makes one, and who reads it. */
module Lookups {
  import opened Wrappers
  import opened OnnxGraph
  import opened AffineLowering

  lemma {:induction false} UsesNothing(inputs: seq<string>, x: string)
    requires x !in inputs
    ensures Uses(inputs, x) == 0
  {
    if inputs != [] { UsesNothing(inputs[1..], x); }
  }

  lemma {:induction false} LastMaker(nodes: seq<Node>, k: nat, x: string)
    requires k < |nodes| && Produces(nodes[k], x) && forall j | k < j < |nodes| :: !Produces(nodes[j], x)
    ensures Producer(nodes, x) == Some(nodes[k])
  {
    if k < |nodes| - 1 { LastMaker(nodes[..|nodes| - 1], k, x); }
  }

  lemma ProducerIs(nodes: seq<Node>, given: set<string>, p: Node, x: string)
    requires SingleAssignment(nodes, given) && p in nodes && Produces(p, x)
    ensures Producer(nodes, x) == Some(p)
  {
    var k :| 0 <= k < |nodes| && nodes[k] == p;
    LastMaker(nodes, k, x);
  }

  lemma {:induction false} NoReader(nodes: seq<Node>, x: string)
    requires forall j | 0 <= j < |nodes| :: !Reads(nodes[j], x)
    ensures Consumers(nodes, x) == []
  {
    if nodes != [] {
      NoReader(nodes[..|nodes| - 1], x);
      UsesNothing(nodes[|nodes| - 1].inputs, x);
    }
  }

  lemma {:induction false} TheReader(nodes: seq<Node>, k: nat, x: string)
    requires k < |nodes| && Uses(nodes[k].inputs, x) == 1 && forall j | 0 <= j < |nodes| && j != k :: !Reads(nodes[j], x)
    ensures Consumers(nodes, x) == [nodes[k]]
  {
    var m := |nodes| - 1;
    if k < m {
      TheReader(nodes[..m], k, x);
      UsesNothing(nodes[m].inputs, x);
    } else {
      NoReader(nodes[..m], x);
    }
  }

  lemma {:induction false} UsedOnce(inputs: seq<string>, i: nat, x: string)
    requires i < |inputs| && inputs[i] == x && forall j | 0 <= j < |inputs| && j != i :: inputs[j] != x
    ensures Uses(inputs, x) == 1
  {
    if i == 0 { UsesNothing(inputs[1..], x); } else { UsedOnce(inputs[1..], i - 1, x); }
  }

  /** A tensor that one node reads, once. */
  lemma SoleReader(nodes: seq<Node>, given: set<string>, x: string, n: Node, i: nat)
    requires SingleAssignment(nodes, given) && n in nodes && n.outputs != [] && n.outputs[0] != ""
    requires i < |n.inputs| && n.inputs[i] == x && forall j | 0 <= j < |n.inputs| && j != i :: n.inputs[j] != x
    requires forall k | 0 <= k < |nodes| && Reads(nodes[k], x) :: nodes[k] == n
    ensures Consumers(nodes, x) == [n]
  {
    var k :| 0 <= k < |nodes| && nodes[k] == n;
    UsedOnce(n.inputs, i, x);
    var y := n.outputs[0];
    assert Produces(nodes[k], y) && forall j | 0 <= j < |nodes| && Produces(nodes[j], y) :: j == k;
    assert forall j | 0 <= j < |nodes| && nodes[j] == n :: Produces(nodes[j], y);
    TheReader(nodes, k, x);
  }

  lemma {:induction false} NameIs(nodes: seq<Node>, n: Node)
    requires n in nodes && n.name != "" && forall k | 0 <= k < |nodes| && nodes[k].name == n.name :: nodes[k] == n
    ensures ByName(nodes, n.name) == Some(n)
  {
    var m := |nodes| - 1;
    if nodes[m].name != n.name {
      assert n in nodes[..m];
      NameIs(nodes[..m], n);
    }
  }
}
