/** Evaluation without its order: in a graph in single-assignment form that evaluates, every node agrees with the final
    values; and a list of nodes that agrees with some values, and reads only what is there, evaluates to them. */
module GraphAgreement {
  import opened Wrappers
  import opened Tensors
  import opened OnnxGraph
  import opened GraphCut

  /** Run on the values of its inputs, the node gives the values of its outputs. */
  ghost predicate Agrees(be: Backend, f: Env, n: Node) {
    Ready(f, n.inputs) && AgreesOn(f, n.outputs, Run(be, n.op, Operands(f, n.inputs)))
  }

  ghost predicate AgreesOn(f: Env, outputs: seq<string>, values: Option<seq<Tensor>>) {
    && values.Some? && |values.value| == |outputs|
    && forall i | 0 <= i < |outputs| && outputs[i] != "" :: outputs[i] in f && f[outputs[i]] == values.value[i]
  }

  predicate DistinctOutputs(n: Node) {
    forall i, j | 0 <= i < j < |n.outputs| :: n.outputs[i] == "" || n.outputs[i] != n.outputs[j]
  }

  /** Node `k` reads only given tensors and what the nodes before it produce. */
  ghost predicate OrderedAt(nodes: seq<Node>, given: set<string>, k: nat) {
    k < |nodes| && forall x | Reads(nodes[k], x) && x != "" :: x in given + Outs(nodes, k)
  }

  ghost predicate Ordered(nodes: seq<Node>, given: set<string>) {
    forall k | 0 <= k < |nodes| :: OrderedAt(nodes, given, k)
  }

  lemma {:induction false} BindAgrees(f: Env, e: Env, names: seq<string>, values: seq<Tensor>)
    requires AgreesOn(f, names, Some(values)) && forall x | x in e :: x in f && f[x] == e[x]
    ensures forall x | x in Bind(e, names, values) :: x in f && f[x] == Bind(e, names, values)[x]
    decreases names
  {
    if names != [] {
      BindAgrees(f, if names[0] == "" then e else e[names[0] := values[0]], names[1..], values[1..]);
    }
  }

  lemma {:induction false} EvalFromAgrees(be: Backend, f: Env, e: Env, nodes: seq<Node>, k: nat)
    requires k <= |nodes| && Ordered(nodes, e.Keys)
    requires forall j | 0 <= j < |nodes| :: Agrees(be, f, nodes[j])
    requires forall x | x in e :: x in f && f[x] == e[x]
    ensures var r := Eval(be, e, nodes[..k]);
      r.Some? && r.value.Keys == e.Keys + Outs(nodes, k) && forall x | x in r.value :: x in f && f[x] == r.value[x]
  {
    hide Run;
    if k == 0 {
      assert nodes[..0] == [];
    } else {
      EvalFromAgrees(be, f, e, nodes, k - 1);
      EvalPrefix(be, e, nodes, k - 1);
      var r, n := Eval(be, e, nodes[..k - 1]).value, nodes[k - 1];
      assert OrderedAt(nodes, e.Keys, k - 1) && Agrees(be, f, n);
      assert Ready(r, n.inputs) by {
        forall i | 0 <= i < |n.inputs| && n.inputs[i] != "" ensures n.inputs[i] in r { assert Reads(n, n.inputs[i]); }
      }
      assert Operands(r, n.inputs) == Operands(f, n.inputs);
      var values := Run(be, n.op, Operands(f, n.inputs)).value;
      BindAgrees(f, r, n.outputs, values);
      BindKeys(r, n.outputs, values);
    }
  }

  lemma {:induction false} BindGives(e: Env, names: seq<string>, values: seq<Tensor>, i: nat)
    requires |names| == |values| && i < |names| && names[i] != ""
    requires forall j | i < j < |names| :: names[j] != names[i]
    ensures names[i] in Bind(e, names, values) && Bind(e, names, values)[names[i]] == values[i]
    decreases names
  {
    var d := if names[0] == "" then e else e[names[0] := values[0]];
    if i == 0 {
      BindKeys(d, names[1..], values[1..]);
      assert names[0] !in Names(names[1..]);
    } else {
      BindGives(d, names[1..], values[1..], i - 1);
    }
  }

  lemma AgreesFromEval(be: Backend, e0: Env, nodes: seq<Node>, k: nat)
    requires SingleAssignment(nodes, e0.Keys) && Eval(be, e0, nodes).Some? && k < |nodes| && DistinctOutputs(nodes[k])
    ensures Agrees(be, Eval(be, e0, nodes).value, nodes[k])
  {
    hide Run, ProducerIndex, Eval;
    var n, e := nodes[k], Eval(be, e0, nodes).value;
    EvalPrefixes(be, e0, nodes, k);
    EvalPrefixes(be, e0, nodes, k + 1);
    EvalPrefix(be, e0, nodes, k);
    var before := Eval(be, e0, nodes[..k]).value;
    forall i | 0 <= i < |n.inputs| && n.inputs[i] != ""
      ensures n.inputs[i] in e && n.inputs[i] in before && e[n.inputs[i]] == before[n.inputs[i]]
    {
      assert Reads(n, n.inputs[i]);
      ReadsFinal(be, e0, nodes, k, n.inputs[i]);
    }
    assert Operands(e, n.inputs) == Operands(before, n.inputs);
    var values := Run(be, n.op, Operands(before, n.inputs)).value;
    forall i | 0 <= i < |n.outputs| && n.outputs[i] != "" ensures n.outputs[i] in e && e[n.outputs[i]] == values[i] {
      BindGives(before, n.outputs, values, i);
      assert Produces(n, n.outputs[i]);
      FinalOutput(be, e0, nodes, k, n.outputs[i]);
    }
  }

  lemma OrderedFromEval(be: Backend, e0: Env, nodes: seq<Node>)
    requires Eval(be, e0, nodes).Some?
    ensures Ordered(nodes, e0.Keys)
  {
    hide Run;
    forall k | 0 <= k < |nodes| ensures OrderedAt(nodes, e0.Keys, k) {
      EvalPrefixes(be, e0, nodes, k);
      EvalPrefixes(be, e0, nodes, k + 1);
      EvalPrefix(be, e0, nodes, k);
      EvalDomain(be, e0, nodes, k);
    }
  }
}
