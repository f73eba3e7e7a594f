/** Lowering the eligible Gemm nodes of a graph keeps every tensor of it. */
module GemmTheorem {
  import opened Wrappers
  import opened Tensors
  import opened Numerals
  import opened OnnxGraph
  import opened AffineBlocks
  import opened AffineBlockMeaning
  import opened GemmLowering
  import A = AffineTensors

  // ---------------------------------------------------------------- one Gemm

  lemma ScaleByOne(t: Tensor)
    ensures A.Scale(1.0, t) == t
  {
    hide WellShaped;
    forall ix | InShape(t.shape, ix) ensures Get(A.Scale(1.0, t), ix) == Get(t, ix) {}
    Extensional(A.Scale(1.0, t), t);
  }

  /** With unit factors Gemm is the product with the weight, transposed or not, plus the bias. */
  lemma PlainGemm(a: Tensor, w: Tensor, c: Option<Tensor>, transB: bool, beta: real)
    requires A.CanGemm(a, w, c, false, transB) && (c.Some? ==> beta == 1.0)
    ensures A.CanMatMul2(a, A.FlipIf(transB, w))
    ensures var p := A.MatMul2(a, A.FlipIf(transB, w));
      && A.Gemm(a, w, c, false, transB, 1.0, beta) == (if c.Some? then Zip(Plus(), p, c.value) else p)
      && (c.Some? ==> Broadcastable(p.shape, c.value.shape))
  {
    hide A.MatMul2, A.Scale, Zip, Broadcastable, JointShape;
    NoFlip(a);
    ScaleByOne(A.MatMul2(a, A.FlipIf(transB, w)));
    if c.Some? { ScaleByOne(c.value); }
  }

  /** The two-dimensional constant that the product reads. */
  function Rhs(n: Node, w: Tensor): Tensor
    requires n.op.Gemm? && Rank(w, 2)
  {
    if n.op.transB == 1 then A.Flip(w) else w
  }

  predicate UnitFlags(n: Node) { n.op.Gemm? && 0 <= n.op.transB <= 1 }

  /** What running a supported Gemm says about its operands and its output. */
  lemma GemmRan(be: Backend, e: Env, n: Node, arrays: Env)
    requires Supported(arrays, n) && UnitFlags(n) && |n.outputs| == 1 && n.outputs[0] != "" && n.inputs[1] != ""
    requires n.inputs[1] in e && e[n.inputs[1]] == arrays[n.inputs[1]] && Step(be, e, n).Some?
    ensures var x, w := n.inputs[0], arrays[n.inputs[1]];
      && Ready(e, n.inputs) && x != "" && x in e && Rank(w, 2) && A.CanMatMul2(e[x], Rhs(n, w))
      && var p := A.MatMul2(e[x], Rhs(n, w));
      && (HasBias(n) ==> Broadcastable(p.shape, e[n.inputs[2]].shape))
      && Step(be, e, n).value == e[n.outputs[0] := if HasBias(n) then Zip(Plus(), p, e[n.inputs[2]]) else p]
  {
    hide A.Gemm, A.CanGemm, A.MatMul2, A.Flip, Zip, Broadcastable;
    var xs := Operands(e, n.inputs);
    var w, b := arrays[n.inputs[1]], Third(xs);
    assert xs[1] == Given(w);
    assert Present(xs, 2) && A.CanGemm(xs[0].t, w, b, false, n.op.transB != 0);
    assert xs[0] == Given(e[n.inputs[0]]);
    assert b == if HasBias(n) then Some(e[n.inputs[2]]) else None;
    WeightRank(xs[0].t, w, b, n.op.transB != 0);
    PlainGemm(xs[0].t, w, b, n.op.transB != 0, n.op.beta);
    BindOne(e, n.outputs[0], A.Gemm(xs[0].t, w, b, false, n.op.transB != 0, 1.0, n.op.beta));
    assert n.outputs == [n.outputs[0]];
  }

  lemma WeightRank(a: Tensor, w: Tensor, c: Option<Tensor>, transB: bool)
    requires A.CanGemm(a, w, c, false, transB)
    ensures Rank(w, 2) && A.FlipIf(transB, w) == if transB then A.Flip(w) else w
  {}

  ghost predicate Extends(e: Env, e2: Env) { forall x | x in e :: x in e2 && e2[x] == e[x] }

  /** In a richer environment that holds the constant, the replacement gives the output the same value. */
  lemma ProductRuns(be: Backend, e: Env, e2: Env, n: Node, arrays: Env, index: nat, rhs: string)
    requires Supported(arrays, n) && UnitFlags(n) && |n.outputs| == 1 && n.outputs[0] != "" && n.inputs[1] != ""
    requires n.inputs[1] in e && e[n.inputs[1]] == arrays[n.inputs[1]] && Step(be, e, n).Some? && Extends(e, e2)
    requires Rank(arrays[n.inputs[1]], 2) && rhs != "" && rhs in e2 && e2[rhs] == Rhs(n, arrays[n.inputs[1]])
    requires HasBias(n) ==> PreBias(n) !in e
    ensures var r := Eval(be, e2, Product(n, index, rhs));
      && r.Some? && Extends(Step(be, e, n).value, r.value)
      && forall y | y in e2 && y != n.outputs[0] && !(HasBias(n) && y == PreBias(n)) :: y in r.value && r.value[y] == e2[y]
  {
    hide Supported, Step, Zip, Broadcastable, A.MatMul2, A.CanMatMul2, Rhs, Rank, GemmName;
    GemmRan(be, e, n, arrays);
    SupportedMeans(arrays, n);
    var x, out, nodes := n.inputs[0], n.outputs[0], Product(n, index, rhs);
    var p := A.MatMul2(e[x], Rhs(n, arrays[n.inputs[1]]));
    assert n.outputs == [out];
    if HasBias(n) {
      var pre, b := PreBias(n), n.inputs[2];
      var mid := e2[pre := p];
      MatMul2Step(be, e2, nodes[0], x, rhs, pre);
      assert nodes == [nodes[0]] + [nodes[1]];
      EvalCons(be, e2, nodes[0], [nodes[1]], mid);
      EvalOne(be, mid, nodes[1]);
      BinaryStep(be, mid, nodes[1], Add, pre, b, out);
    } else {
      EvalOne(be, e2, nodes[0]);
      MatMul2Step(be, e2, nodes[0], x, rhs, out);
    }
  }

  /** Every other node does the same in the richer environment. */
  lemma NodeRuns(be: Backend, e: Env, e2: Env, n: Node)
    requires Step(be, e, n).Some? && Extends(e, e2)
    ensures Eval(be, e2, [n]).Some? && Extends(Step(be, e, n).value, Eval(be, e2, [n]).value)
    ensures forall y | y in e2 && y !in Names(n.outputs) :: y in Eval(be, e2, [n]).value && Eval(be, e2, [n]).value[y] == e2[y]
  {
    hide Run;
    EvalOne(be, e2, n);
    assert Operands(e, n.inputs) == Operands(e2, n.inputs);
    var values := Run(be, n.op, Operands(e, n.inputs)).value;
    BindKeys(e, n.outputs, values);
    BindKeys(e2, n.outputs, values);
    BindSame(e, e2, n.outputs, values);
  }

  // ---------------------------------------------------------------- names

  ghost predicate RhsShaped(name: string) { exists base :: IsLater(base + "__matmul_rhs", 1, name) }

  /** The two kinds of generated names end differently. */
  lemma RhsIsNotPreBias(name: string, output: string)
    requires RhsShaped(name)
    ensures name != "" && name != output + "__pre_bias"
  {
    hide Decimal;
    var base :| IsLater(base + "__matmul_rhs", 1, name);
    var k: nat :| 1 <= k && name == Candidate(base + "__matmul_rhs", k);
    var pre := output + "__pre_bias";
    assert pre[|pre| - 1] == 's' && pre[|pre| - 2] == 'a';
    if k > 1 {
      DecimalDigits(k);
      assert name[|name| - 1] == Decimal(k)[|Decimal(k)| - 1];
    } else {
      assert name[|name| - 2] == 'h';
    }
  }

  /** A name that the search for a constant's name may come to. */
  ghost predicate MadeUp(nodes: seq<Node>, arrays: Env, i: nat, name: string)
    requires i < |nodes|
  {
    Supported(arrays, nodes[i]) && nodes[i].op.transB == 1 && IsLater(nodes[i].inputs[1] + "__matmul_rhs", 1, name)
  }

  /** What a caller can check: no given or produced tensor has a made-up name, and no node overwrites a constant. */
  ghost predicate Apart(nodes: seq<Node>, arrays: Env, inputs: set<string>)
    requires GemmsHaveOutput(nodes)
  {
    var outs := Outs(nodes, |nodes|);
    && "" !in arrays && inputs !! arrays.Keys && outs !! arrays.Keys
    && (forall i, x | 0 <= i < |nodes| && x in inputs + outs :: !MadeUp(nodes, arrays, i, x))
    && (forall k | 0 <= k < |nodes| && Supported(arrays, nodes[k]) && HasBias(nodes[k]) :: PreBias(nodes[k]) !in inputs + arrays.Keys + outs)
  }

  /** The names that were made up are none of the graph's. */
  ghost predicate Clear(nodes: seq<Node>, arrays: Env, inputs: set<string>)
    requires GemmsHaveOutput(nodes)
  {
    var outs := Outs(nodes, |nodes|);
    && "" !in arrays && inputs !! arrays.Keys && outs !! arrays.Keys
    && (forall g | g in LowerGemms(nodes, |nodes|, arrays).used && g !in arrays :: g !in inputs + outs)
    && (forall k | 0 <= k < |nodes| && Supported(arrays, nodes[k]) && HasBias(nodes[k]) :: PreBias(nodes[k]) !in inputs + arrays.Keys + outs)
  }

  lemma {:induction false} UsedIsMadeUp(nodes: seq<Node>, k: nat, arrays: Env, g: string)
    requires k <= |nodes| && GemmsHaveOutput(nodes) && g in LowerGemms(nodes, k, arrays).used && g !in arrays
    ensures exists i: nat :: i < |nodes| && MadeUp(nodes, arrays, i, g)
  {
    hide Product, A.Flip, FreshFrom, Supported, IsLater;
    if k > 0 {
      var n, p := nodes[k - 1], LowerGemms(nodes, k - 1, arrays);
      if g in p.used {
        UsedIsMadeUp(nodes, k - 1, arrays, g);
      } else {
        SupportedForm(arrays, n);
        assert g == RhsName(n, p.used);
        assert MadeUp(nodes, arrays, k - 1, g);
      }
    }
  }

  lemma ApartIsClear(nodes: seq<Node>, arrays: Env, inputs: set<string>)
    requires GemmsHaveOutput(nodes) && Apart(nodes, arrays, inputs)
    ensures Clear(nodes, arrays, inputs)
  {
    hide LowerGemms, MadeUp, Supported, Outs;
    forall g | g in LowerGemms(nodes, |nodes|, arrays).used && g !in arrays ensures g !in inputs + Outs(nodes, |nodes|) {
      UsedIsMadeUp(nodes, |nodes|, arrays, g);
    }
  }

  // ---------------------------------------------------------------- the constants

  /** The constants added so far: their names are new, and the original ones keep their values. */
  ghost predicate Collected(inits: seq<Initializer>, p: Progress) {
    var all := Arrays(inits + p.inits);
    && p.used == all.Keys && Extends(Arrays(inits), all)
    && forall i | 0 <= i < |p.inits| :: p.inits[i].name in all && all[p.inits[i].name] == p.inits[i].value
                                        && p.inits[i].name !in Arrays(inits) && RhsShaped(p.inits[i].name)
  }

  /** Adding one constant under an unused name of the right shape. */
  lemma OneMore(inits: seq<Initializer>, p: Progress, q: Progress, rhs: string, value: Tensor)
    requires Collected(inits, p) && rhs !in p.used && RhsShaped(rhs)
    requires q.inits == p.inits + [Initializer(rhs, value)] && q.used == p.used + {rhs}
    ensures Collected(inits, q)
  {
    hide IsLater, RhsShaped;
    var added := Initializer(rhs, value);
    assert (inits + q.inits)[..|inits + q.inits| - 1] == inits + p.inits;
    assert (inits + q.inits)[|inits + q.inits| - 1] == added;
    assert Arrays(inits + q.inits) == Arrays(inits + p.inits)[rhs := value];
  }

  lemma {:induction false} ConstantsGrow(nodes: seq<Node>, k: nat, inits: seq<Initializer>)
    requires k <= |nodes| && GemmsHaveOutput(nodes)
    ensures Collected(inits, LowerGemms(nodes, k, Arrays(inits)))
  {
    hide Product, A.Flip, FreshFrom, Supported, IsLater;
    if k == 0 {
      assert inits + [] == inits;
    } else {
      hide Arrays, Collected;
      ConstantsGrow(nodes, k - 1, inits);
      var arrays, n := Arrays(inits), nodes[k - 1];
      var p, q := LowerGemms(nodes, k - 1, arrays), LowerGemms(nodes, k, arrays);
      if n.op.Gemm? && Supported(arrays, n) && n.op.transB == 1 {
        SupportedMeans(arrays, n);
        var rhs := RhsName(n, p.used);
        assert RhsShaped(rhs);
        OneMore(inits, p, q, rhs, A.Flip(arrays[n.inputs[1]]));
      } else {
        SameConstants(inits, p, q);
      }
    }
  }

  lemma SameConstants(inits: seq<Initializer>, p: Progress, q: Progress)
    requires Collected(inits, p) && q.inits == p.inits && q.used == p.used
    ensures Collected(inits, q)
  {}

  lemma {:induction false} ConstantsPrefix(nodes: seq<Node>, k: nat, m: nat, arrays: Env)
    requires k <= m <= |nodes| && GemmsHaveOutput(nodes)
    ensures LowerGemms(nodes, k, arrays).inits <= LowerGemms(nodes, m, arrays).inits
    decreases m - k
  {
    hide Product, A.Flip, FreshFrom, Supported;
    if k < m {
      ConstantsPrefix(nodes, k, m - 1, arrays);
      SupportedForm(arrays, nodes[m - 1]);
    }
  }

  lemma SupportedForm(arrays: Env, n: Node)
    ensures Supported(arrays, n) ==> n.op.Gemm? && |n.inputs| >= 2 && n.inputs[1] in arrays && (n.op.transB == 1 ==> Rank(arrays[n.inputs[1]], 2))
  {}

  // ---------------------------------------------------------------- the whole list

  ghost predicate Simulates(be: Backend, nodes: seq<Node>, k: nat, arrays: Env, e: Env, start: Env)
    requires k <= |nodes| && GemmsHaveOutput(nodes)
  {
    var r := Eval(be, start, LowerGemms(nodes, k, arrays).nodes);
    r.Some? && Extends(e, r.value) && Holds(r.value, LowerGemms(nodes, |nodes|, arrays).inits)
  }

  /** The environment after a turn, for the two kinds of turns. */
  lemma GemmTurn(be: Backend, nodes: seq<Node>, k: nat, inits: seq<Initializer>, inputs: Env, e: Env, e2: Env)
    requires k < |nodes| && GemmsHaveOutput(nodes) && Clear(nodes, Arrays(inits), inputs.Keys)
    requires Supported(Arrays(inits), nodes[k]) && UnitFlags(nodes[k])
    requires Step(be, e, nodes[k]).Some? && Extends(Arrays(inits), e) && e.Keys <= inputs.Keys + Arrays(inits).Keys + Outs(nodes, |nodes|)
    requires Extends(e, e2) && Holds(e2, LowerGemms(nodes, |nodes|, Arrays(inits)).inits)
    ensures var arrays, n := Arrays(inits), nodes[k];
      && |n.inputs| >= 2 && |n.outputs| == 1 && n.inputs[1] in arrays && (n.op.transB == 1 ==> Rank(arrays[n.inputs[1]], 2))
      && var r := Eval(be, e2, Product(n, k, if n.op.transB == 1 then RhsName(n, LowerGemms(nodes, k, arrays).used) else n.inputs[1]));
      r.Some? && Extends(Step(be, e, n).value, r.value) && Holds(r.value, LowerGemms(nodes, |nodes|, arrays).inits)
  {
    hide Product, A.Flip, FreshFrom, Supported, Step, Eval, LowerGemms, Rank, IsLater, Extends;
    var arrays, n := Arrays(inits), nodes[k];
    var final := LowerGemms(nodes, |nodes|, arrays);
    SupportedForm(arrays, n);
    StandardAt(nodes, k);
    OutsNow(nodes, k);
    ExtendsAt(arrays, e, n.inputs[1]);
    GemmRan(be, e, n, arrays);
    var rhs := if n.op.transB == 1 then RhsName(n, LowerGemms(nodes, k, arrays).used) else n.inputs[1];
    assert rhs != "" && rhs in e2 && e2[rhs] == Rhs(n, arrays[n.inputs[1]]) by {
      ExtendsAt(e, e2, n.inputs[1]);
      if n.op.transB == 1 { AddedConstant(nodes, k, inits, e2); }
    }
    ProductRuns(be, e, e2, n, arrays, k, rhs);
    forall i | 0 <= i < |final.inits| ensures final.inits[i].name != n.outputs[0] && final.inits[i].name != PreBias(n) {
      ConstantIsFresh(nodes, inits, i, n.outputs[0]);
    }
  }

  lemma ExtendsAt(e: Env, e2: Env, x: string)
    requires Extends(e, e2) && x in e
    ensures x in e2 && e2[x] == e[x]
  {}

  /** A new constant is named like no output and no intermediate product. */
  lemma ConstantIsFresh(nodes: seq<Node>, inits: seq<Initializer>, i: nat, output: string)
    requires GemmsHaveOutput(nodes) && i < |LowerGemms(nodes, |nodes|, Arrays(inits)).inits|
    ensures var name := LowerGemms(nodes, |nodes|, Arrays(inits)).inits[i].name;
      && name != "" && name != output + "__pre_bias" && name in LowerGemms(nodes, |nodes|, Arrays(inits)).used && name !in Arrays(inits)
  {
    hide LowerGemms, IsLater;
    ConstantsGrow(nodes, |nodes|, inits);
    RhsIsNotPreBias(LowerGemms(nodes, |nodes|, Arrays(inits)).inits[i].name, output);
  }

  /** The turned weight of this Gemm is among the constants at the end. */
  lemma AddedConstant(nodes: seq<Node>, k: nat, inits: seq<Initializer>, e2: Env)
    requires k < |nodes| && GemmsHaveOutput(nodes) && Supported(Arrays(inits), nodes[k]) && nodes[k].op.transB == 1
    requires Holds(e2, LowerGemms(nodes, |nodes|, Arrays(inits)).inits)
    ensures |nodes[k].inputs| >= 2 && nodes[k].inputs[1] in Arrays(inits) && Rank(Arrays(inits)[nodes[k].inputs[1]], 2)
    ensures var rhs := RhsName(nodes[k], LowerGemms(nodes, k, Arrays(inits)).used);
      rhs != "" && rhs in e2 && e2[rhs] == A.Flip(Arrays(inits)[nodes[k].inputs[1]])
  {
    hide LowerGemms, FreshFrom, A.Flip, IsLater, Supported;
    var arrays := Arrays(inits);
    TurnIs(nodes, k, arrays);
    ConstantsPrefix(nodes, k + 1, |nodes|, arrays);
    var i, final := |LowerGemms(nodes, k, arrays).inits|, LowerGemms(nodes, |nodes|, arrays).inits;
    assert final[i] == LowerGemms(nodes, k + 1, arrays).inits[i];
    ConstantIsFresh(nodes, inits, i, "");
  }

  lemma OtherTurn(be: Backend, nodes: seq<Node>, k: nat, inits: seq<Initializer>, inputs: Env, e: Env, e2: Env)
    requires k < |nodes| && GemmsHaveOutput(nodes) && Clear(nodes, Arrays(inits), inputs.Keys)
    requires Step(be, e, nodes[k]).Some? && Extends(e, e2) && Holds(e2, LowerGemms(nodes, |nodes|, Arrays(inits)).inits)
    ensures var r := Eval(be, e2, [nodes[k]]);
      r.Some? && Extends(Step(be, e, nodes[k]).value, r.value) && Holds(r.value, LowerGemms(nodes, |nodes|, Arrays(inits)).inits)
  {
    hide Step, Eval, LowerGemms;
    var final := LowerGemms(nodes, |nodes|, Arrays(inits));
    OutsNow(nodes, k);
    NodeRuns(be, e, e2, nodes[k]);
    forall i | 0 <= i < |final.inits| ensures final.inits[i].name !in Names(nodes[k].outputs) { ConstantIsFresh(nodes, inits, i, ""); }
  }

  lemma TurnSimulates(be: Backend, nodes: seq<Node>, k: nat, inits: seq<Initializer>, inputs: Env, e: Env, e': Env, start: Env)
    requires k < |nodes| && GemmsHaveOutput(nodes) && Clear(nodes, Arrays(inits), inputs.Keys)
    requires forall i | 0 <= i < |nodes| && Supported(Arrays(inits), nodes[i]) :: UnitFlags(nodes[i])
    requires Step(be, e, nodes[k]) == Some(e') && Extends(Arrays(inits), e) && e.Keys <= inputs.Keys + Arrays(inits).Keys + Outs(nodes, |nodes|)
    requires Simulates(be, nodes, k, Arrays(inits), e, start)
    ensures Simulates(be, nodes, k + 1, Arrays(inits), e', start)
  {
    hide Product, A.Flip, FreshFrom, Supported, Step, Eval, LowerGemms, Extends, Holds, Clear, UnitFlags, RhsName, Rank;
    var arrays := Arrays(inits);
    var p, q := LowerGemms(nodes, k, arrays), LowerGemms(nodes, k + 1, arrays);
    TurnIs(nodes, k, arrays);
    var e2 := Eval(be, start, p.nodes).value;
    if Supported(arrays, nodes[k]) {
      GemmTurn(be, nodes, k, inits, inputs, e, e2);
      EvalAppend(be, start, p.nodes, Product(nodes[k], k, if nodes[k].op.transB == 1 then RhsName(nodes[k], p.used) else nodes[k].inputs[1]));
    } else {
      OtherTurn(be, nodes, k, inits, inputs, e, e2);
      EvalAppend(be, start, p.nodes, [nodes[k]]);
    }
  }

  lemma StandardAt(nodes: seq<Node>, k: nat)
    requires GemmsHaveOutput(nodes) && k < |nodes| && nodes[k].op.Gemm?
    ensures |nodes[k].outputs| == 1 && nodes[k].outputs[0] != "" && Names(nodes[k].outputs) == {nodes[k].outputs[0]}
  {}

  lemma OutsNow(nodes: seq<Node>, k: nat)
    requires k < |nodes|
    ensures Names(nodes[k].outputs) <= Outs(nodes, |nodes|)
  {
    forall x | x in Names(nodes[k].outputs) ensures x in Outs(nodes, |nodes|) { OutsIn(nodes, |nodes|, k, x); }
  }

  /** What one turn appends. */
  lemma TurnIs(nodes: seq<Node>, k: nat, arrays: Env)
    requires k < |nodes| && GemmsHaveOutput(nodes)
    ensures var n := nodes[k];
      Supported(arrays, n) ==>
        n.op.Gemm? && |n.inputs| >= 2 && |n.outputs| == 1 && n.inputs[1] in arrays && (n.op.transB == 1 ==> Rank(arrays[n.inputs[1]], 2))
    ensures var n, p, q := nodes[k], LowerGemms(nodes, k, arrays), LowerGemms(nodes, k + 1, arrays);
      && q.nodes == p.nodes + (if Supported(arrays, n) then Product(n, k, if n.op.transB == 1 then RhsName(n, p.used) else n.inputs[1]) else [n])
      && q.inits == p.inits + (if Supported(arrays, n) && n.op.transB == 1 then [Initializer(RhsName(n, p.used), A.Flip(arrays[n.inputs[1]]))] else [])
  {
    hide Product, A.Flip, FreshFrom;
  }

  lemma {:induction false} RunSimulates(be: Backend, nodes: seq<Node>, k: nat, inits: seq<Initializer>, inputs: Env, start: Env)
    requires k <= |nodes| && GemmsHaveOutput(nodes) && Clear(nodes, Arrays(inits), inputs.Keys)
    requires forall i | 0 <= i < |nodes| && Supported(Arrays(inits), nodes[i]) :: UnitFlags(nodes[i])
    requires Eval(be, inputs + Arrays(inits), nodes[..k]).Some?
    requires Extends(inputs + Arrays(inits), start) && Holds(start, LowerGemms(nodes, |nodes|, Arrays(inits)).inits)
    ensures Simulates(be, nodes, k, Arrays(inits), Eval(be, inputs + Arrays(inits), nodes[..k]).value, start)
  {
    hide Step, Supported, Clear, Advance;
    var e0 := inputs + Arrays(inits);
    if k == 0 {
      assert nodes[..0] == [];
    } else {
      EvalPrefix(be, e0, nodes, k - 1);
      RunSimulates(be, nodes, k - 1, inits, inputs, start);
      var e := Eval(be, e0, nodes[..k - 1]).value;
      EvalDomain(be, e0, nodes, k - 1);
      OutsMonotone(nodes, k - 1, |nodes|);
      ConstantsStay(be, e0, nodes, k - 1, Arrays(inits), inputs.Keys);
      TurnSimulates(be, nodes, k - 1, inits, inputs, e, Eval(be, e0, nodes[..k]).value, start);
    }
  }

  lemma {:induction false} ConstantsStay(be: Backend, e0: Env, nodes: seq<Node>, k: nat, arrays: Env, inputs: set<string>)
    requires k <= |nodes| && GemmsHaveOutput(nodes) && Clear(nodes, arrays, inputs) && Extends(arrays, e0) && Eval(be, e0, nodes[..k]).Some?
    ensures Extends(arrays, Eval(be, e0, nodes[..k]).value)
  {
    hide Eval, LowerGemms;
    EvalWrites(be, e0, nodes[..k]);
    OutsPrefix(nodes, k);
    OutsMonotone(nodes, k, |nodes|);
  }

  /** The lowered graph evaluates whenever the original does, and every tensor of the original keeps its value. */
  lemma LoweringKeepsEveryTensor(be: Backend, nodes: seq<Node>, inits: seq<Initializer>, inputs: Env, e: Env)
    requires GemmsHaveOutput(nodes) && Apart(nodes, Arrays(inits), inputs.Keys)
    requires forall i | 0 <= i < |nodes| && Supported(Arrays(inits), nodes[i]) :: UnitFlags(nodes[i])
    requires Eval(be, inputs + Arrays(inits), nodes) == Some(e)
    ensures var p := LowerGemms(nodes, |nodes|, Arrays(inits));
      var r := Eval(be, inputs + Arrays(inits + p.inits), p.nodes);
      r.Some? && forall x | x in e :: x in r.value && r.value[x] == e[x]
  {
    hide Supported, Eval, LowerGemms;
    ApartIsClear(nodes, Arrays(inits), inputs.Keys);
    var p := LowerGemms(nodes, |nodes|, Arrays(inits));
    var start := inputs + Arrays(inits + p.inits);
    ConstantsGrow(nodes, |nodes|, inits);
    assert nodes[..|nodes|] == nodes;
    RunSimulates(be, nodes, |nodes|, inits, inputs, start);
  }
}
