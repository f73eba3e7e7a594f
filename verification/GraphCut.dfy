/** Cutting a CTC graph in two at its encoder boundary, after
    scripts/asr_onnx_quantization/extract_encoder_from_ctc.py: the two backward walks compute the least set of
    nodes their results depend on, and running the head on the encoder's results gives what the whole graph gave. */
module GraphCut {
  import opened Wrappers
  import opened Tensors
  import opened OnnxGraph
  import opened AffineLowering

  const ENC_OUT := "/Transpose_2_output_0"
  const LEN_OUT := "/Cast_output_0"
  const HEAD_INPUT := "encoder_outputs"
  const HEAD_LENGTH_INPUT := "encoded_lengths"
  const HEAD_OUTPUT := "logprobs"
  const ENCODER_OUTPUT := "outputs"

  // ---------------------------------------------------------------- backward cones

  /** The node that produces a tensor, as a dictionary filled in graph order returns it. */
  function ProducerIndex(nodes: seq<Node>, x: string): (r: Option<nat>)
    ensures r.Some? ==> r.value < |nodes| && Produces(nodes[r.value], x)
    ensures r.None? ==> forall k | 0 <= k < |nodes| :: !Produces(nodes[k], x)
  {
    if nodes == [] then None
    else if Produces(nodes[|nodes| - 1], x) then Some(|nodes| - 1)
    else ProducerIndex(nodes[..|nodes| - 1], x)
  }

  ghost predicate Follows(nodes: seq<Node>, kept: set<nat>, x: string) {
    ProducerIndex(nodes, x).Some? ==> ProducerIndex(nodes, x).value in kept
  }

  /** A set of nodes that has the producer of every root, and of every tensor its nodes read up to a barrier. */
  ghost predicate Covers(nodes: seq<Node>, barrier: set<string>, roots: set<string>, kept: set<nat>) {
    && (forall x | x in roots :: Follows(nodes, kept, x))
    && (forall k, x | k in kept && k < |nodes| && Reads(nodes[k], x) && x !in barrier :: Follows(nodes, kept, x))
  }

  ghost predicate IsCone(nodes: seq<Node>, barrier: set<string>, roots: set<string>, kept: set<nat>) {
    && (forall k | k in kept :: k < |nodes|)
    && Covers(nodes, barrier, roots, kept)
    && forall other | Covers(nodes, barrier, roots, other) :: kept <= other
  }

  function InputsOf(nodes: seq<Node>, kept: set<nat>): set<string> {
    set k, i | k in kept && 0 <= k < |nodes| && 0 <= i < |nodes[k].inputs| && nodes[k].inputs[i] != "" :: nodes[k].inputs[i]
  }

  /** What the walk still owes: the roots and the tensors read by kept nodes are on the stack or already followed. */
  ghost predicate Owed(nodes: seq<Node>, barrier: set<string>, roots: set<string>, kept: set<nat>, stack: seq<string>) {
    && (forall x | x in roots :: x in stack || Follows(nodes, kept, x))
    && (forall k, x | k in kept && k < |nodes| && Reads(nodes[k], x) && x !in barrier :: x in stack || Follows(nodes, kept, x))
  }

  /** Every covering set has what was kept and what the stack will add. */
  ghost predicate Needed(nodes: seq<Node>, barrier: set<string>, roots: set<string>, kept: set<nat>, stack: seq<string>) {
    forall other | Covers(nodes, barrier, roots, other) :: kept <= other && forall x | x in stack :: Follows(nodes, other, x)
  }

  function Indices(n: nat): (r: set<nat>)
    ensures forall k: nat :: k in r <==> k < n
  {
    if n == 0 then {} else Indices(n - 1) + {n - 1}
  }

  lemma InputsOfMore(nodes: seq<Node>, kept: set<nat>, k: nat)
    requires k < |nodes|
    ensures InputsOf(nodes, kept + {k}) == InputsOf(nodes, kept) + Names(nodes[k].inputs)
  {}

  /** The inner loop: every named input is needed; those not stopped by the barrier are pushed. */
  method PushInputs(inputs: seq<string>, stops: set<string>, outside: set<string>, stack0: seq<string>, needed0: set<string>)
    returns (stack: seq<string>, needed: set<string>)
    ensures needed == needed0 + Names(inputs)
    ensures exists more: seq<string> :: stack == stack0 + more
              && (forall x | x in more :: x in inputs && x !in stops + outside + {""})
              && forall x | x in inputs && x !in stops + outside + {""} :: x in more
  {
    stack, needed := stack0, needed0;
    ghost var more := [];
    for i := 0 to |inputs|
      invariant stack == stack0 + more && needed == needed0 + Names(inputs[..i])
      invariant forall x | x in more :: x in inputs && x !in stops + outside + {""}
      invariant forall x | x in inputs[..i] && x !in stops + outside + {""} :: x in more
    {
      assert inputs[..i + 1] == inputs[..i] + [inputs[i]];
      if inputs[i] != "" {
        needed := needed + {inputs[i]};
        if inputs[i] !in stops && inputs[i] !in outside {
          stack := stack + [inputs[i]];
          more := more + [inputs[i]];
        }
      }
    }
    assert inputs[..|inputs|] == inputs;
  }

  lemma KeepOne(nodes: seq<Node>, barrier: set<string>, roots: set<string>, kept: set<nat>, rest: seq<string>, tensor: string,
                k: nat, more: seq<string>)
    requires Owed(nodes, barrier, roots, kept, rest + [tensor]) && Needed(nodes, barrier, roots, kept, rest + [tensor])
    requires ProducerIndex(nodes, tensor) == Some(k)
    requires forall x | x in more :: Reads(nodes[k], x) && x !in barrier
    requires forall x | Reads(nodes[k], x) && x !in barrier :: x in more
    ensures Owed(nodes, barrier, roots, kept + {k}, rest + more) && Needed(nodes, barrier, roots, kept + {k}, rest + more)
  {
    hide ProducerIndex, Owed, Needed;
    OwedMore(nodes, barrier, roots, kept, rest, tensor, k, more);
    NeededMore(nodes, barrier, roots, kept, rest, tensor, k, more);
  }

  lemma OwedMore(nodes: seq<Node>, barrier: set<string>, roots: set<string>, kept: set<nat>, rest: seq<string>, tensor: string,
                 k: nat, more: seq<string>)
    requires Owed(nodes, barrier, roots, kept, rest + [tensor]) && ProducerIndex(nodes, tensor) == Some(k)
    requires forall x | Reads(nodes[k], x) && x !in barrier :: x in more
    ensures Owed(nodes, barrier, roots, kept + {k}, rest + more)
  {
    hide ProducerIndex;
    forall x | x in roots ensures x in rest + more || Follows(nodes, kept + {k}, x) {
      assert x in rest + [tensor] || Follows(nodes, kept, x);
    }
    forall j, x | j in kept + {k} && j < |nodes| && Reads(nodes[j], x) && x !in barrier
      ensures x in rest + more || Follows(nodes, kept + {k}, x)
    {
      if j != k { assert x in rest + [tensor] || Follows(nodes, kept, x); }
    }
  }

  lemma NeededMore(nodes: seq<Node>, barrier: set<string>, roots: set<string>, kept: set<nat>, rest: seq<string>, tensor: string,
                   k: nat, more: seq<string>)
    requires Needed(nodes, barrier, roots, kept, rest + [tensor]) && ProducerIndex(nodes, tensor) == Some(k)
    requires forall x | x in more :: Reads(nodes[k], x) && x !in barrier
    ensures Needed(nodes, barrier, roots, kept + {k}, rest + more)
  {
    hide ProducerIndex;
    forall other | Covers(nodes, barrier, roots, other)
      ensures kept + {k} <= other && forall x | x in rest + more :: Follows(nodes, other, x)
    {
      assert tensor in rest + [tensor];
      assert forall x | x in rest :: x in rest + [tensor];
    }
  }

  lemma DropOne(nodes: seq<Node>, barrier: set<string>, roots: set<string>, kept: set<nat>, rest: seq<string>, tensor: string)
    requires Owed(nodes, barrier, roots, kept, rest + [tensor]) && Needed(nodes, barrier, roots, kept, rest + [tensor])
    requires Follows(nodes, kept, tensor)
    ensures Owed(nodes, barrier, roots, kept, rest) && Needed(nodes, barrier, roots, kept, rest)
  {
    forall other | Covers(nodes, barrier, roots, other)
      ensures kept <= other && forall x | x in rest :: Follows(nodes, other, x)
    {
      assert forall x | x in rest :: x in rest + [tensor];
    }
  }

  /** `_reverse_slice`: the walk from one output that stops at the boundary tensors. */
  method ReverseSlice(nodes: seq<Node>, output: string, stops: set<string>, outside: set<string>)
    returns (kept: set<nat>, needed: set<string>)
    ensures IsCone(nodes, stops + outside + {""}, {output} - stops - {""}, kept)
    ensures needed == stops + InputsOf(nodes, kept)
  {
    ghost var barrier, roots := stops + outside + {""}, {output} - stops - {""};
    kept, needed := {}, stops;
    var stack := if output == "" || output in stops then [] else [output];
    while stack != []
      invariant kept <= Indices(|nodes|) && needed == stops + InputsOf(nodes, kept)
      invariant Owed(nodes, barrier, roots, kept, stack) && Needed(nodes, barrier, roots, kept, stack)
      decreases Indices(|nodes|) - kept, |stack|
    {
      var tensor, rest := stack[|stack| - 1], stack[..|stack| - 1];
      assert stack == rest + [tensor];
      var producer := ProducerIndex(nodes, tensor);
      if producer.Some? && producer.value !in kept {
        ghost var was := kept;
        InputsOfMore(nodes, kept, producer.value);
        stack, needed := PushInputs(nodes[producer.value].inputs, stops, outside, rest, needed);
        ghost var more :| stack == rest + more
              && (forall x | x in more :: x in nodes[producer.value].inputs && x !in barrier)
              && forall x | x in nodes[producer.value].inputs && x !in barrier :: x in more;
        KeepOne(nodes, barrier, roots, kept, rest, tensor, producer.value, more);
        kept := kept + {producer.value};
      } else {
        DropOne(nodes, barrier, roots, kept, rest, tensor);
        stack := rest;
      }
    }
  }

  /** The walk of `main`: backward from both boundary tensors; a tensor is pushed the first time it is needed. */
  method EncoderSlice(nodes: seq<Node>, outside: set<string>) returns (kept: set<nat>, needed: set<string>)
    ensures IsCone(nodes, outside + {""}, {ENC_OUT, LEN_OUT}, kept)
    ensures needed == {ENC_OUT, LEN_OUT} + InputsOf(nodes, kept)
  {
    ghost var barrier, roots := outside + {""}, {ENC_OUT, LEN_OUT};
    kept, needed := {}, {ENC_OUT, LEN_OUT};
    var stack := [ENC_OUT, LEN_OUT];
    while stack != []
      invariant kept <= Indices(|nodes|) && needed == roots + InputsOf(nodes, kept)
      invariant forall x | x in needed && (x in roots || x !in barrier) :: x in stack || Follows(nodes, kept, x)
      invariant Needed(nodes, barrier, roots, kept, stack)
      decreases Indices(|nodes|) - kept, |stack|
    {
      var tensor, rest := stack[|stack| - 1], stack[..|stack| - 1];
      assert stack == rest + [tensor];
      var producer := ProducerIndex(nodes, tensor);
      if producer.Some? && producer.value !in kept {
        InputsOfMore(nodes, kept, producer.value);
        ghost var was := needed;
        stack, needed := PushNew(nodes[producer.value].inputs, outside, rest, needed);
        ghost var more :| stack == rest + more
              && (forall x | x in more :: x in nodes[producer.value].inputs && x !in barrier)
              && forall x | x in nodes[producer.value].inputs && x !in barrier && x !in was :: x in more;
        NeededMore(nodes, barrier, roots, kept, rest, tensor, producer.value, more);
        kept := kept + {producer.value};
        forall x | x in needed && (x in roots || x !in barrier) ensures x in stack || Follows(nodes, kept, x) {
          if x in was { assert x in rest + [tensor] || Follows(nodes, kept - {producer.value}, x); }
        }
      } else {
        NeededLess(nodes, barrier, roots, kept, rest, tensor);
        stack := rest;
      }
    }
  }

  lemma NeededLess(nodes: seq<Node>, barrier: set<string>, roots: set<string>, kept: set<nat>, rest: seq<string>, tensor: string)
    requires Needed(nodes, barrier, roots, kept, rest + [tensor])
    ensures Needed(nodes, barrier, roots, kept, rest)
  {
    forall other | Covers(nodes, barrier, roots, other)
      ensures kept <= other && forall x | x in rest :: Follows(nodes, other, x)
    {
      assert forall x | x in rest :: x in rest + [tensor];
    }
  }

  method PushNew(inputs: seq<string>, outside: set<string>, stack0: seq<string>, needed0: set<string>)
    returns (stack: seq<string>, needed: set<string>)
    ensures needed == needed0 + Names(inputs)
    ensures exists more: seq<string> :: stack == stack0 + more
              && (forall x | x in more :: x in inputs && x !in outside + {""})
              && forall x | x in inputs && x !in outside + {""} && x !in needed0 :: x in more
  {
    stack, needed := stack0, needed0;
    ghost var more := [];
    for i := 0 to |inputs|
      invariant stack == stack0 + more && needed == needed0 + Names(inputs[..i])
      invariant forall x | x in more :: x in inputs && x !in outside + {""}
      invariant forall x | x in inputs[..i] && x !in outside + {""} && x !in needed0 :: x in more
    {
      assert inputs[..i + 1] == inputs[..i] + [inputs[i]];
      if inputs[i] != "" && inputs[i] !in needed {
        needed := needed + {inputs[i]};
        if inputs[i] !in outside {
          stack := stack + [inputs[i]];
          more := more + [inputs[i]];
        }
      }
    }
    assert inputs[..|inputs|] == inputs;
  }

  // ---------------------------------------------------------------- running a part of a graph

  function Filter(nodes: seq<Node>, kept: set<nat>, m: nat): seq<Node>
    requires m <= |nodes|
  {
    if m == 0 then [] else Filter(nodes, kept, m - 1) + (if m - 1 in kept then [nodes[m - 1]] else [])
  }

  type Renaming = map<string, string>

  function Renamed(ren: Renaming, x: string): string { if x in ren then ren[x] else x }

  /** Replaces input names, as the loop over the head's nodes does. */
  function RenameNode(ren: Renaming, n: Node): Node {
    n.(inputs := seq(|n.inputs|, i requires 0 <= i < |n.inputs| => Renamed(ren, n.inputs[i])))
  }

  function RenameAll(ren: Renaming, nodes: seq<Node>): seq<Node> {
    seq(|nodes|, i requires 0 <= i < |nodes| => RenameNode(ren, nodes[i]))
  }

  /** Once defined, a tensor of a graph in single-assignment form keeps its value. */
  lemma {:induction false} Stable(be: Backend, e0: Env, nodes: seq<Node>, k: nat, m: nat, x: string)
    requires SingleAssignment(nodes, e0.Keys) && k <= m <= |nodes| && Eval(be, e0, nodes).Some?
    requires Eval(be, e0, nodes[..k]).Some? && x in Eval(be, e0, nodes[..k]).value
    ensures Eval(be, e0, nodes[..m]).Some? && x in Eval(be, e0, nodes[..m]).value
    ensures Eval(be, e0, nodes[..m]).value[x] == Eval(be, e0, nodes[..k]).value[x]
    decreases m - k
  {
    hide Run;
    EvalPrefixes(be, e0, nodes, m);
    if k < m {
      Stable(be, e0, nodes, k, m - 1, x);
      EvalPrefix(be, e0, nodes, m - 1);
      StepDomain(be, Eval(be, e0, nodes[..m - 1]).value, nodes[m - 1]);
      EvalDomain(be, e0, nodes, k);
      NotProducedAgain(nodes, e0.Keys, k, m - 1, x);
    }
  }

  lemma NotProducedAgain(nodes: seq<Node>, given: set<string>, k: nat, m: nat, x: string)
    requires SingleAssignment(nodes, given) && k <= m < |nodes| && x in given + Outs(nodes, k)
    ensures x !in Names(nodes[m].outputs)
  {
    if Produces(nodes[m], x) && x in Outs(nodes, k) {
      var i := OutsFrom(nodes, k, x);
    }
  }

  /** A tensor a node reads was given or comes from an earlier node, and has its final value by then. */
  lemma ReadsFinal(be: Backend, e0: Env, nodes: seq<Node>, k: nat, x: string)
    requires SingleAssignment(nodes, e0.Keys) && k < |nodes| && Eval(be, e0, nodes).Some? && Reads(nodes[k], x) && x != ""
    ensures Eval(be, e0, nodes[..k]).Some? && x in Eval(be, e0, nodes[..k]).value && x in Eval(be, e0, nodes).value
    ensures Eval(be, e0, nodes[..k]).value[x] == Eval(be, e0, nodes).value[x]
    ensures x in e0 || (ProducerIndex(nodes, x).Some? && ProducerIndex(nodes, x).value < k)
  {
    hide Run, ProducerIndex;
    EvalPrefixes(be, e0, nodes, k);
    EvalPrefixes(be, e0, nodes, k + 1);
    EvalPrefix(be, e0, nodes, k);
    Stable(be, e0, nodes, k, |nodes|, x);
    assert nodes[..|nodes|] == nodes;
    EvalDomain(be, e0, nodes, k);
    if x !in e0 { var i := OutsFrom(nodes, k, x); }
  }

  /** Everything the kept nodes read is supplied, under its new name, or produced by kept nodes. */
  ghost predicate Supplied(nodes: seq<Node>, kept: set<nat>, ren: Renaming, d: Env, e: Env) {
    && (forall k, x | k in kept && k < |nodes| && Reads(nodes[k], x) && x != "" ::
          || (Renamed(ren, x) in d && x in e && d[Renamed(ren, x)] == e[x])
          || (x !in ren && ProducerIndex(nodes, x).Some? && ProducerIndex(nodes, x).value in kept))
    && (forall k, x | k in kept && k < |nodes| && Produces(nodes[k], x) :: x !in d)
    && "" !in ren && "" !in ren.Values
  }

  ghost predicate PartDone(nodes: seq<Node>, kept: set<nat>, m: nat, d: Env, e: Env, r: Env) {
    && (forall x | x in d :: x in r && r[x] == d[x])
    && (forall k, x | k in kept && k < |nodes| && k < m && Produces(nodes[k], x) :: x in r && x in e && r[x] == e[x])
  }

  /** A kept node computes in the part what it computed in the whole. */
  lemma PartStep(be: Backend, e0: Env, nodes: seq<Node>, kept: set<nat>, ren: Renaming, d: Env, k: nat, r: Env)
    requires SingleAssignment(nodes, e0.Keys) && Eval(be, e0, nodes).Some? && k in kept && k < |nodes|
    requires Supplied(nodes, kept, ren, d, Eval(be, e0, nodes).value)
    requires PartDone(nodes, kept, k, d, Eval(be, e0, nodes).value, r)
    ensures Step(be, r, RenameNode(ren, nodes[k])).Some?
    ensures PartDone(nodes, kept, k + 1, d, Eval(be, e0, nodes).value, Step(be, r, RenameNode(ren, nodes[k])).value)
  {
    hide Run, ProducerIndex, Supplied, Eval;
    PartOperands(be, e0, nodes, kept, ren, d, k, r);
    var e, before := Eval(be, e0, nodes).value, Eval(be, e0, nodes[..k]).value;
    EvalPrefixes(be, e0, nodes, k + 1);
    EvalPrefix(be, e0, nodes, k);
    var n := nodes[k];
    var values := Run(be, n.op, Operands(before, n.inputs)).value;
    BindSame(before, r, n.outputs, values);
    BindKeys(r, n.outputs, values);
    NotSupplied(nodes, kept, ren, d, e, k);
    forall x | Produces(n, x) ensures x in e && e[x] == Eval(be, e0, nodes[..k + 1]).value[x] {
      FinalOutput(be, e0, nodes, k, x);
    }
    forall j, x | j in kept && j < |nodes| && j < k && Produces(nodes[j], x) ensures !Produces(n, x) {}
  }

  lemma NotSupplied(nodes: seq<Node>, kept: set<nat>, ren: Renaming, d: Env, e: Env, k: nat)
    requires Supplied(nodes, kept, ren, d, e) && k in kept && k < |nodes|
    ensures forall x | x in d :: x !in Names(nodes[k].outputs)
  {
    hide ProducerIndex;
    forall x | x in d ensures x !in Names(nodes[k].outputs) {
      if Produces(nodes[k], x) { assert false; }
    }
  }

  lemma FinalOutput(be: Backend, e0: Env, nodes: seq<Node>, k: nat, x: string)
    requires SingleAssignment(nodes, e0.Keys) && Eval(be, e0, nodes).Some? && k < |nodes| && Produces(nodes[k], x)
    ensures Eval(be, e0, nodes[..k + 1]).Some? && x in Eval(be, e0, nodes[..k + 1]).value
    ensures x in Eval(be, e0, nodes).value && Eval(be, e0, nodes).value[x] == Eval(be, e0, nodes[..k + 1]).value[x]
  {
    hide Run, Eval;
    EvalPrefixes(be, e0, nodes, k + 1);
    EvalDomain(be, e0, nodes, k + 1);
    OutsIn(nodes, k + 1, k, x);
    Stable(be, e0, nodes, k + 1, |nodes|, x);
    assert nodes[..|nodes|] == nodes;
  }

  lemma PartOperands(be: Backend, e0: Env, nodes: seq<Node>, kept: set<nat>, ren: Renaming, d: Env, k: nat, r: Env)
    requires SingleAssignment(nodes, e0.Keys) && Eval(be, e0, nodes).Some? && k in kept && k < |nodes|
    requires Supplied(nodes, kept, ren, d, Eval(be, e0, nodes).value)
    requires PartDone(nodes, kept, k, d, Eval(be, e0, nodes).value, r)
    ensures Eval(be, e0, nodes[..k]).Some? && Ready(Eval(be, e0, nodes[..k]).value, nodes[k].inputs)
    ensures Ready(r, RenameNode(ren, nodes[k]).inputs)
    ensures Operands(r, RenameNode(ren, nodes[k]).inputs) == Operands(Eval(be, e0, nodes[..k]).value, nodes[k].inputs)
  {
    hide Run, ProducerIndex, Supplied, PartDone, SingleAssignment;
    EvalPrefixes(be, e0, nodes, k);
    EvalPrefixes(be, e0, nodes, k + 1);
    EvalPrefix(be, e0, nodes, k);
    var before, n, n' := Eval(be, e0, nodes[..k]).value, nodes[k], RenameNode(ren, nodes[k]);
    forall i | 0 <= i < |n.inputs|
      ensures n'.inputs[i] == "" <==> n.inputs[i] == ""
      ensures n.inputs[i] != "" ==> n'.inputs[i] in r && n.inputs[i] in before && r[n'.inputs[i]] == before[n.inputs[i]]
    {
      PartInput(be, e0, nodes, kept, ren, d, k, r, i);
    }
  }

  lemma PartInput(be: Backend, e0: Env, nodes: seq<Node>, kept: set<nat>, ren: Renaming, d: Env, k: nat, r: Env, i: nat)
    requires SingleAssignment(nodes, e0.Keys) && Eval(be, e0, nodes).Some? && k in kept && k < |nodes| && i < |nodes[k].inputs|
    requires Supplied(nodes, kept, ren, d, Eval(be, e0, nodes).value)
    requires PartDone(nodes, kept, k, d, Eval(be, e0, nodes).value, r)
    ensures var x, y := nodes[k].inputs[i], RenameNode(ren, nodes[k]).inputs[i];
      && (y == "" <==> x == "") && Eval(be, e0, nodes[..k]).Some?
      && (x != "" ==> y in r && x in Eval(be, e0, nodes[..k]).value && r[y] == Eval(be, e0, nodes[..k]).value[x])
  {
    hide Run, ProducerIndex, Eval;
    var x := nodes[k].inputs[i];
    EvalPrefixes(be, e0, nodes, k);
    if x in ren { assert ren[x] in ren.Values; }
    if x != "" {
      assert Reads(nodes[k], x);
      ReadsFinal(be, e0, nodes, k, x);
      if !(Renamed(ren, x) in d && d[Renamed(ren, x)] == Eval(be, e0, nodes).value[x]) {
        var p := ProducerIndex(nodes, x).value;
        ProducedNotGiven(nodes, e0.Keys, p, x);
      }
    }
  }

  lemma ProducedNotGiven(nodes: seq<Node>, given: set<string>, p: nat, x: string)
    requires SingleAssignment(nodes, given) && p < |nodes| && Produces(nodes[p], x)
    ensures x !in given
  {}

  lemma {:induction false} PartEval(be: Backend, e0: Env, nodes: seq<Node>, kept: set<nat>, ren: Renaming, d: Env, m: nat)
    requires SingleAssignment(nodes, e0.Keys) && Eval(be, e0, nodes).Some? && m <= |nodes|
    requires Supplied(nodes, kept, ren, d, Eval(be, e0, nodes).value)
    ensures var r := Eval(be, d, RenameAll(ren, Filter(nodes, kept, m)));
      r.Some? && PartDone(nodes, kept, m, d, Eval(be, e0, nodes).value, r.value)
  {
    hide Run, ProducerIndex, Supplied, Step;
    if m > 0 {
      PartEval(be, e0, nodes, kept, ren, d, m - 1);
      var before := Filter(nodes, kept, m - 1);
      if m - 1 in kept {
        assert RenameAll(ren, Filter(nodes, kept, m)) == RenameAll(ren, before) + [RenameNode(ren, nodes[m - 1])];
        EvalAppend(be, d, RenameAll(ren, before), [RenameNode(ren, nodes[m - 1])]);
        var r := Eval(be, d, RenameAll(ren, before)).value;
        EvalOne(be, r, RenameNode(ren, nodes[m - 1]));
        PartStep(be, e0, nodes, kept, ren, d, m - 1, r);
      } else {
        assert Filter(nodes, kept, m) == before;
      }
    }
  }

  // ---------------------------------------------------------------- the two halves

  const CAST_INT64: Op := Other("Cast", "to=INT64")

  function EncoderNodes(nodes: seq<Node>, kept: set<nat>): seq<Node> {
    Filter(nodes, kept, |nodes|)
      + [Node("/ExtractOutputs", Unary(Identity), [ENC_OUT], [ENCODER_OUTPUT]),
         Node("/ExtractEncodedLengths", CAST_INT64, [LEN_OUT], [HEAD_LENGTH_INPUT])]
  }

  const HEAD_NAMES: Renaming := map[ENC_OUT := HEAD_INPUT, LEN_OUT := HEAD_LENGTH_INPUT]

  function HeadNodes(nodes: seq<Node>, kept: set<nat>): seq<Node> { RenameAll(HEAD_NAMES, Filter(nodes, kept, |nodes|)) }

  /** A full graph that ran on `inputs`, in single-assignment form. */
  ghost predicate Ran(be: Backend, nodes: seq<Node>, consts: seq<Initializer>, inputs: Env, e: Env) {
    && SingleAssignment(nodes, inputs.Keys + Arrays(consts).Keys) && inputs.Keys !! Arrays(consts).Keys
    && "" !in inputs && "" !in Arrays(consts)
    && Eval(be, inputs + Arrays(consts), nodes) == Some(e)
  }

  function Outside(consts: seq<Initializer>, inputs: Env): set<string> { inputs.Keys + Arrays(consts).Keys }

  lemma GivenStays(be: Backend, nodes: seq<Node>, consts: seq<Initializer>, inputs: Env, e: Env)
    requires Ran(be, nodes, consts, inputs, e)
    ensures var e0 := inputs + Arrays(consts);
      e0.Keys == Outside(consts, inputs) && forall x | x in e0 :: x in e && e[x] == e0[x]
  {
    hide Run, Arrays;
    var e0 := inputs + Arrays(consts);
    EvalWrites(be, e0, nodes);
    forall x | x in e0 ensures x !in Outs(nodes, |nodes|) {
      if x in Outs(nodes, |nodes|) { var i := OutsFrom(nodes, |nodes|, x); }
    }
  }

  /** The environment of a half: some inputs and the constants its nodes need. */
  lemma KeptAgree(consts: seq<Initializer>, used: set<string>, x: string)
    ensures x in Arrays(Kept(consts, used)) ==> x in Arrays(consts)
    ensures x in used && x in Arrays(consts) ==> x in Arrays(Kept(consts, used)) && Arrays(Kept(consts, used))[x] == Arrays(consts)[x]
  {
    KeptArrays(consts, used);
    KeptSubset(consts, used);
  }

  lemma ReadIsNeeded(nodes: seq<Node>, kept: set<nat>, k: nat, x: string)
    requires k in kept && k < |nodes| && Reads(nodes[k], x) && x != ""
    ensures x in InputsOf(nodes, kept)
  {
    var i :| 0 <= i < |nodes[k].inputs| && nodes[k].inputs[i] == x;
  }

  /** What a kept node reads was given or is produced by a kept node. */
  lemma GivenOrKept(be: Backend, nodes: seq<Node>, consts: seq<Initializer>, inputs: Env, e: Env, stops: set<string>,
                    roots: set<string>, kept: set<nat>, k: nat, x: string)
    requires Ran(be, nodes, consts, inputs, e) && IsCone(nodes, stops + Outside(consts, inputs) + {""}, roots, kept)
    requires k in kept && Reads(nodes[k], x) && x != "" && x !in stops
    ensures x in e
    ensures x in Outside(consts, inputs) || (ProducerIndex(nodes, x).Some? && ProducerIndex(nodes, x).value in kept)
  {
    hide Run, ProducerIndex, Arrays;
    var e0 := inputs + Arrays(consts);
    ReadsFinal(be, e0, nodes, k, x);
    if x !in Outside(consts, inputs) {
      assert Follows(nodes, kept, x);
    }
  }

  lemma EncoderSupplied(be: Backend, nodes: seq<Node>, consts: seq<Initializer>, inputs: Env, e: Env, kept: set<nat>, needed: set<string>)
    requires Ran(be, nodes, consts, inputs, e)
    requires IsCone(nodes, Outside(consts, inputs) + {""}, {ENC_OUT, LEN_OUT}, kept) && needed == {ENC_OUT, LEN_OUT} + InputsOf(nodes, kept)
    ensures Supplied(nodes, kept, map[], inputs + Arrays(Kept(consts, needed)), e)
  {
    hide Run, ProducerIndex, Arrays, Kept, Eval, IsCone;
    var d := inputs + Arrays(Kept(consts, needed));
    GivenStays(be, nodes, consts, inputs, e);
    forall k, x | k in kept && k < |nodes| && Reads(nodes[k], x) && x != ""
      ensures (x in d && x in e && d[x] == e[x]) || (ProducerIndex(nodes, x).Some? && ProducerIndex(nodes, x).value in kept)
    {
      assert {} + Outside(consts, inputs) + {""} == Outside(consts, inputs) + {""};
      GivenOrKept(be, nodes, consts, inputs, e, {}, {ENC_OUT, LEN_OUT}, kept, k, x);
      ReadIsNeeded(nodes, kept, k, x);
      KeptAgree(consts, needed, x);
    }
    forall k, x | k in kept && k < |nodes| && Produces(nodes[k], x) ensures x !in d {
      KeptAgree(consts, needed, x);
    }
  }

  lemma MapIdentity(t: Tensor)
    ensures Map(v => v, t) == t
  {
    Extensional(Map(v => v, t), t);
  }

  lemma Boundary(be: Backend, nodes: seq<Node>, consts: seq<Initializer>, inputs: Env, e: Env, kept: set<nat>, needed: set<string>, r: Env, x: string)
    requires Ran(be, nodes, consts, inputs, e) && x in e && x in {ENC_OUT, LEN_OUT} && x in needed
    requires IsCone(nodes, Outside(consts, inputs) + {""}, {ENC_OUT, LEN_OUT}, kept)
    requires PartDone(nodes, kept, |nodes|, inputs + Arrays(Kept(consts, needed)), e, r)
    ensures x in r && r[x] == e[x]
  {
    hide Run, ProducerIndex, Arrays, Kept, Eval;
    GivenStays(be, nodes, consts, inputs, e);
    KeptAgree(consts, needed, x);
    if x !in Outside(consts, inputs) {
      EvalWrites(be, inputs + Arrays(consts), nodes);
      var i := OutsFrom(nodes, |nodes|, x);
      assert Follows(nodes, kept, x);
      assert Produces(nodes[ProducerIndex(nodes, x).value], x);
    }
  }

  /** The encoder half returns the boundary tensors of the full graph; lengths go through a cast that keeps them
      when it does not change them. */
  lemma EncoderReturnsBoundary(be: Backend, nodes: seq<Node>, consts: seq<Initializer>, inputs: Env, e: Env, kept: set<nat>, needed: set<string>)
    requires Ran(be, nodes, consts, inputs, e) && ENC_OUT in e && LEN_OUT in e
    requires IsCone(nodes, Outside(consts, inputs) + {""}, {ENC_OUT, LEN_OUT}, kept) && needed == {ENC_OUT, LEN_OUT} + InputsOf(nodes, kept)
    requires be.foreign(CAST_INT64, [Given(e[LEN_OUT])]) == Some([e[LEN_OUT]])
    ensures var r := Eval(be, inputs + Arrays(Kept(consts, needed)), EncoderNodes(nodes, kept));
      && r.Some? && ENCODER_OUTPUT in r.value && r.value[ENCODER_OUTPUT] == e[ENC_OUT]
      && HEAD_LENGTH_INPUT in r.value && r.value[HEAD_LENGTH_INPUT] == e[LEN_OUT]
  {
    hide ProducerIndex, Arrays, Kept, IsCone, Supplied, PartDone;
    var d, part := inputs + Arrays(Kept(consts, needed)), Filter(nodes, kept, |nodes|);
    EncoderSupplied(be, nodes, consts, inputs, e, kept, needed);
    PartEval(be, inputs + Arrays(consts), nodes, kept, map[], d, |nodes|);
    assert RenameAll(map[], part) == part by { RenameNothing(part); }
    var r := Eval(be, d, part).value;
    Boundary(be, nodes, consts, inputs, e, kept, needed, r, ENC_OUT);
    Boundary(be, nodes, consts, inputs, e, kept, needed, r, LEN_OUT);
    EncoderTail(be, r);
    EvalAppend(be, d, part, EncoderNodes(nodes, kept)[|part|..]);
    assert EncoderNodes(nodes, kept) == part + EncoderNodes(nodes, kept)[|part|..];
  }

  lemma RenameNothing(nodes: seq<Node>)
    ensures RenameAll(map[], nodes) == nodes
  {
    forall i | 0 <= i < |nodes| ensures RenameNode(map[], nodes[i]) == nodes[i] {
      assert RenameNode(map[], nodes[i]).inputs == nodes[i].inputs;
    }
  }

  lemma EncoderTail(be: Backend, r: Env)
    requires ENC_OUT in r && LEN_OUT in r && be.foreign(CAST_INT64, [Given(r[LEN_OUT])]) == Some([r[LEN_OUT]])
    ensures var tail := [Node("/ExtractOutputs", Unary(Identity), [ENC_OUT], [ENCODER_OUTPUT]),
                         Node("/ExtractEncodedLengths", CAST_INT64, [LEN_OUT], [HEAD_LENGTH_INPUT])];
      Eval(be, r, tail) == Some(r[ENCODER_OUTPUT := r[ENC_OUT]][HEAD_LENGTH_INPUT := r[LEN_OUT]])
  {
    hide Map;
    var a := Node("/ExtractOutputs", Unary(Identity), [ENC_OUT], [ENCODER_OUTPUT]);
    var b := Node("/ExtractEncodedLengths", CAST_INT64, [LEN_OUT], [HEAD_LENGTH_INPUT]);
    var r1 := r[ENCODER_OUTPUT := r[ENC_OUT]];
    assert Operands(r, a.inputs) == [Given(r[ENC_OUT])];
    MapIdentity(r[ENC_OUT]);
    BindOne(r, ENCODER_OUTPUT, r[ENC_OUT]);
    EvalCons(be, r, a, [b], r1);
    assert [a, b] == [a] + [b];
    assert Operands(r1, b.inputs) == [Given(r[LEN_OUT])];
    BindOne(r1, HEAD_LENGTH_INPUT, r[LEN_OUT]);
    EvalOne(be, r1, b);
  }

  /** What the head is given: the boundary tensors under their public names and the constants it needs. */
  function HeadStart(consts: seq<Initializer>, needed: set<string>, features: Tensor, lengths: Tensor): Env {
    Arrays(Kept(consts, needed)) + map[HEAD_INPUT := features, HEAD_LENGTH_INPUT := lengths]
  }

  /** No node of the head reads a graph input behind the boundary's back. */
  ghost predicate OnlyBoundary(nodes: seq<Node>, kept: set<nat>, inputs: Env) {
    forall k, x | k in kept && k < |nodes| && Reads(nodes[k], x) && x !in {ENC_OUT, LEN_OUT} :: x !in inputs
  }

  ghost predicate PublicNamesFree(nodes: seq<Node>, consts: seq<Initializer>, inputs: Env) {
    forall x | x in {HEAD_INPUT, HEAD_LENGTH_INPUT} :: x !in Outside(consts, inputs) && x !in Outs(nodes, |nodes|)
  }

  lemma RanFacts(be: Backend, nodes: seq<Node>, consts: seq<Initializer>, inputs: Env, e: Env)
    requires Ran(be, nodes, consts, inputs, e)
    ensures SingleAssignment(nodes, Outside(consts, inputs)) && inputs.Keys !! Arrays(consts).Keys && "" !in inputs
  {}

  lemma HeadReads(be: Backend, nodes: seq<Node>, consts: seq<Initializer>, inputs: Env, e: Env, target: string, kept: set<nat>, needed: set<string>, k: nat, x: string)
    requires Ran(be, nodes, consts, inputs, e) && ENC_OUT in e && LEN_OUT in e && PublicNamesFree(nodes, consts, inputs)
    requires IsCone(nodes, {ENC_OUT, LEN_OUT} + Outside(consts, inputs) + {""}, {target} - {ENC_OUT, LEN_OUT} - {""}, kept)
    requires needed == {ENC_OUT, LEN_OUT} + InputsOf(nodes, kept) && OnlyBoundary(nodes, kept, inputs)
    requires k in kept && k < |nodes| && Reads(nodes[k], x) && x != ""
    ensures var d := HeadStart(consts, needed, e[ENC_OUT], e[LEN_OUT]);
      || (Renamed(HEAD_NAMES, x) in d && x in e && d[Renamed(HEAD_NAMES, x)] == e[x])
      || (x !in HEAD_NAMES && ProducerIndex(nodes, x).Some? && ProducerIndex(nodes, x).value in kept)
  {
    hide Run, ProducerIndex, Arrays, Kept, Eval, IsCone, Ran, InputsOf;
    if x !in {ENC_OUT, LEN_OUT} {
      GivenStays(be, nodes, consts, inputs, e);
      GivenOrKept(be, nodes, consts, inputs, e, {ENC_OUT, LEN_OUT}, {target} - {ENC_OUT, LEN_OUT} - {""}, kept, k, x);
      ReadIsNeeded(nodes, kept, k, x);
      KeptAgree(consts, needed, x);
    }
  }

  lemma HeadSupplied(be: Backend, nodes: seq<Node>, consts: seq<Initializer>, inputs: Env, e: Env, target: string, kept: set<nat>, needed: set<string>)
    requires Ran(be, nodes, consts, inputs, e) && ENC_OUT in e && LEN_OUT in e && PublicNamesFree(nodes, consts, inputs)
    requires IsCone(nodes, {ENC_OUT, LEN_OUT} + Outside(consts, inputs) + {""}, {target} - {ENC_OUT, LEN_OUT} - {""}, kept)
    requires needed == {ENC_OUT, LEN_OUT} + InputsOf(nodes, kept) && OnlyBoundary(nodes, kept, inputs)
    ensures Supplied(nodes, kept, HEAD_NAMES, HeadStart(consts, needed, e[ENC_OUT], e[LEN_OUT]), e)
  {
    hide Run, ProducerIndex, Arrays, Kept, Eval, IsCone, Ran, InputsOf, Renamed;
    RanFacts(be, nodes, consts, inputs, e);
    var d := HeadStart(consts, needed, e[ENC_OUT], e[LEN_OUT]);
    forall k, x | k in kept && k < |nodes| && Reads(nodes[k], x) && x != ""
      ensures (Renamed(HEAD_NAMES, x) in d && x in e && d[Renamed(HEAD_NAMES, x)] == e[x])
              || (x !in HEAD_NAMES && ProducerIndex(nodes, x).Some? && ProducerIndex(nodes, x).value in kept)
    {
      HeadReads(be, nodes, consts, inputs, e, target, kept, needed, k, x);
    }
    forall k, x | k in kept && k < |nodes| && Produces(nodes[k], x) ensures x !in d {
      KeptAgree(consts, needed, x);
      OutsIn(nodes, |nodes|, k, x);
    }
  }

  lemma {:induction false} FilterHas(nodes: seq<Node>, kept: set<nat>, m: nat, k: nat) returns (j: nat)
    requires k in kept && k < m <= |nodes|
    ensures j < |Filter(nodes, kept, m)| && Filter(nodes, kept, m)[j] == nodes[k]
  {
    if k == m - 1 {
      j := |Filter(nodes, kept, m - 1)|;
    } else {
      j := FilterHas(nodes, kept, m - 1, k);
    }
  }

  lemma {:induction false} FilterOuts(nodes: seq<Node>, kept: set<nat>, ren: Renaming, m: nat)
    requires m <= |nodes|
    ensures var part := RenameAll(ren, Filter(nodes, kept, m)); Outs(part, |part|) <= Outs(nodes, m)
  {
    if m > 0 {
      FilterOuts(nodes, kept, ren, m - 1);
      var before := Filter(nodes, kept, m - 1);
      if m - 1 in kept {
        assert RenameAll(ren, Filter(nodes, kept, m)) == RenameAll(ren, before) + [RenameNode(ren, nodes[m - 1])];
        OutsAppend(RenameAll(ren, before), [RenameNode(ren, nodes[m - 1])]);
      } else {
        assert Filter(nodes, kept, m) == before;
      }
    }
  }

  lemma HeadWorks(be: Backend, nodes: seq<Node>, consts: seq<Initializer>, inputs: Env, e: Env, target: string, kept: set<nat>, needed: set<string>)
    requires Ran(be, nodes, consts, inputs, e) && ENC_OUT in e && LEN_OUT in e && PublicNamesFree(nodes, consts, inputs)
    requires IsCone(nodes, {ENC_OUT, LEN_OUT} + Outside(consts, inputs) + {""}, {target} - {ENC_OUT, LEN_OUT} - {""}, kept)
    requires needed == {ENC_OUT, LEN_OUT} + InputsOf(nodes, kept) && kept != {} && OnlyBoundary(nodes, kept, inputs)
    ensures var r := Eval(be, HeadStart(consts, needed, e[ENC_OUT], e[LEN_OUT]), HeadNodes(nodes, kept));
      r.Some? && target in r.value && target in e && r.value[target] == e[target]
  {
    hide Run, Arrays, Kept, Eval, Supplied, PublicNamesFree, InputsOf, OnlyBoundary;
    var d := HeadStart(consts, needed, e[ENC_OUT], e[LEN_OUT]);
    HeadSupplied(be, nodes, consts, inputs, e, target, kept, needed);
    PartEval(be, inputs + Arrays(consts), nodes, kept, HEAD_NAMES, d, |nodes|);
    TargetIsKept(nodes, {ENC_OUT, LEN_OUT} + Outside(consts, inputs) + {""}, target, kept);
  }

  /** Cutting is sound: given what the encoder half returns, the head evaluates if and only if its nodes meet the
      graph inputs only through the boundary, and then its result is the full graph's. */
  lemma HeadFinishesEncoder(be: Backend, nodes: seq<Node>, consts: seq<Initializer>, inputs: Env, e: Env, target: string, kept: set<nat>, needed: set<string>)
    requires Ran(be, nodes, consts, inputs, e) && ENC_OUT in e && LEN_OUT in e && PublicNamesFree(nodes, consts, inputs)
    requires IsCone(nodes, {ENC_OUT, LEN_OUT} + Outside(consts, inputs) + {""}, {target} - {ENC_OUT, LEN_OUT} - {""}, kept)
    requires needed == {ENC_OUT, LEN_OUT} + InputsOf(nodes, kept) && kept != {}
    ensures var r := Eval(be, HeadStart(consts, needed, e[ENC_OUT], e[LEN_OUT]), HeadNodes(nodes, kept));
      && (r.Some? <==> OnlyBoundary(nodes, kept, inputs))
      && (r.Some? ==> target in r.value && target in e && r.value[target] == e[target])
  {
    hide Run, Arrays, Kept, Eval, IsCone, Ran, PublicNamesFree, InputsOf, Outside;
    var d := HeadStart(consts, needed, e[ENC_OUT], e[LEN_OUT]);
    if OnlyBoundary(nodes, kept, inputs) {
      HeadWorks(be, nodes, consts, inputs, e, target, kept, needed);
    } else {
      RanFacts(be, nodes, consts, inputs, e);
      var k, x :| k in kept && k < |nodes| && Reads(nodes[k], x) && x !in {ENC_OUT, LEN_OUT} && x in inputs;
      ReadsInputBreaks(be, nodes, consts, inputs, kept, needed, d, k, x);
    }
  }

  /** The two halves compose: the head, fed with what the encoder half returns, gives the full graph's result, for
      every input, exactly when the head's nodes read no graph input behind the boundary's back. */
  lemma CutIsSound(be: Backend, nodes: seq<Node>, consts: seq<Initializer>, inputs: Env, e: Env, target: string,
                   cone: set<nat>, read: set<string>, kept: set<nat>, needed: set<string>)
    requires Ran(be, nodes, consts, inputs, e) && ENC_OUT in e && LEN_OUT in e && PublicNamesFree(nodes, consts, inputs)
    requires IsCone(nodes, Outside(consts, inputs) + {""}, {ENC_OUT, LEN_OUT}, cone) && read == {ENC_OUT, LEN_OUT} + InputsOf(nodes, cone)
    requires IsCone(nodes, {ENC_OUT, LEN_OUT} + Outside(consts, inputs) + {""}, {target} - {ENC_OUT, LEN_OUT} - {""}, kept)
    requires needed == {ENC_OUT, LEN_OUT} + InputsOf(nodes, kept) && kept != {}
    requires be.foreign(CAST_INT64, [Given(e[LEN_OUT])]) == Some([e[LEN_OUT]])
    ensures var half := Eval(be, inputs + Arrays(Kept(consts, read)), EncoderNodes(nodes, cone));
      && half.Some? && ENCODER_OUTPUT in half.value && HEAD_LENGTH_INPUT in half.value
      && var r := Eval(be, HeadStart(consts, needed, half.value[ENCODER_OUTPUT], half.value[HEAD_LENGTH_INPUT]), HeadNodes(nodes, kept));
      && (r.Some? <==> OnlyBoundary(nodes, kept, inputs))
      && (r.Some? ==> target in r.value && target in e && r.value[target] == e[target])
  {
    hide Eval, Arrays, Kept, IsCone, Ran, PublicNamesFree, EncoderNodes, HeadNodes, HeadStart, OnlyBoundary, InputsOf, Outside;
    EncoderReturnsBoundary(be, nodes, consts, inputs, e, cone, read);
    HeadFinishesEncoder(be, nodes, consts, inputs, e, target, kept, needed);
  }

  lemma EmptyCovers(nodes: seq<Node>, barrier: set<string>, roots: set<string>, target: string)
    requires roots <= {target} && (target !in roots || ProducerIndex(nodes, target).None?)
    ensures Covers(nodes, barrier, roots, {})
  {}

  lemma TargetIsKept(nodes: seq<Node>, barrier: set<string>, target: string, kept: set<nat>)
    requires IsCone(nodes, barrier, {target} - {ENC_OUT, LEN_OUT} - {""}, kept) && kept != {}
    ensures ProducerIndex(nodes, target).Some? && ProducerIndex(nodes, target).value in kept
  {
    hide ProducerIndex;
    var roots := {target} - {ENC_OUT, LEN_OUT} - {""};
    if target !in roots || ProducerIndex(nodes, target).None? {
      EmptyCovers(nodes, barrier, roots, target);
      assert false;
    }
    assert Follows(nodes, kept, target);
  }

  lemma ReadsInputBreaks(be: Backend, nodes: seq<Node>, consts: seq<Initializer>, inputs: Env, kept: set<nat>, needed: set<string>, d: Env, k: nat, x: string)
    requires SingleAssignment(nodes, Outside(consts, inputs)) && inputs.Keys !! Arrays(consts).Keys && "" !in inputs
    requires PublicNamesFree(nodes, consts, inputs) && d.Keys == Arrays(Kept(consts, needed)).Keys + {HEAD_INPUT, HEAD_LENGTH_INPUT}
    requires k in kept && k < |nodes| && Reads(nodes[k], x) && x !in {ENC_OUT, LEN_OUT} && x in inputs
    ensures Eval(be, d, HeadNodes(nodes, kept)).None?
  {
    hide Run, Arrays, Kept, Eval;
    var part := HeadNodes(nodes, kept);
    var j := FilterHas(nodes, kept, |nodes|, k);
    var i :| 0 <= i < |nodes[k].inputs| && nodes[k].inputs[i] == x;
    assert part[j].inputs[i] == x;
    assert Reads(part[j], x);
    KeptAgree(consts, needed, x);
    FilterOuts(nodes, kept, HEAD_NAMES, |nodes|);
    if x in Outs(nodes, |nodes|) { var q := OutsFrom(nodes, |nodes|, x); }
    if Eval(be, d, part).Some? { EvalNeeds(be, d, part, j, x); }
  }
}
