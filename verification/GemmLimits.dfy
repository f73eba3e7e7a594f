/** Exactly where the lowering of Gemm nodes stops being right: odd transposition flags, and names that clash. */
module GemmLimits {
  import opened Wrappers
  import opened Tensors
  import opened OnnxGraph
  import opened AffineBlocks
  import opened AffineBlockMeaning
  import opened GemmLowering
  import opened GemmTheorem
  import opened MatrixProbes
  import A = AffineTensors

  // ---------------------------------------------------------------- odd flags

  /** A transposition flag other than 0 and 1 is set, but not acted on. The product is right for every activation the Gemm
      is defined for if and only if the weight is symmetric. */
  lemma OddFlagExactly(w: Tensor)
    requires Rank(w, 2)
    ensures (forall a: Tensor | A.CanGemm(a, w, None, false, true) ::
               A.CanMatMul2(a, w) && A.MatMul2(a, w) == A.Gemm(a, w, None, false, true, 1.0, 1.0))
            <==> w == A.Flip(w)
  {
    hide A.MatMul2, A.Gemm, A.Flip;
    forall a: Tensor
      ensures A.CanGemm(a, w, None, false, true) <==> A.CanMatMul2(a, A.Flip(w))
      ensures A.CanGemm(a, w, None, false, true) ==> A.Gemm(a, w, None, false, true, 1.0, 1.0) == A.MatMul2(a, A.Flip(w))
    {
      if A.CanGemm(a, w, None, false, true) { PlainGemm(a, w, None, true, 1.0); }
    }
    SameProducts(A.Flip(w), w);
  }

  // ---------------------------------------------------------------- a node that produces a made-up name

  function RhsOf(gemm: Node): string
    requires |gemm.inputs| >= 2
  {
    gemm.inputs[1] + "__matmul_rhs"
  }

  /** A Gemm with a transposed constant weight and no bias, whose first made-up name is not the name of a constant. */
  predicate Turned(gemm: Node, arrays: Env, inputs: set<string>) {
    && Supported(arrays, gemm) && gemm.op.transB == 1 && |gemm.inputs| == 2
    && |gemm.outputs| == 1 && gemm.outputs[0] != "" && gemm.outputs[0] != RhsOf(gemm)
    && gemm.inputs[0] in inputs && gemm.inputs[0] != "" && gemm.inputs[1] != "" && RhsOf(gemm) !in arrays && inputs !! arrays.Keys
    && gemm.inputs[0] != RhsOf(gemm)
  }

  /** Another node in front of it produces a tensor of that name, from other tensors than the activation. */
  predicate Clashes(other: Node, gemm: Node, arrays: Env, inputs: set<string>) {
    && Turned(gemm, arrays, inputs) && !other.op.Gemm? && other.outputs == [RhsOf(gemm)]
    && gemm.inputs[0] !in other.inputs && RhsOf(gemm) !in inputs
  }

  /** The one constant that is added, and the nodes after the lowering. */
  lemma LoweredClash(other: Node, gemm: Node, inits: seq<Initializer>, inputs: set<string>)
    requires Clashes(other, gemm, Arrays(inits), inputs)
    ensures GemmsHaveOutput([other, gemm])
    ensures var p := LowerGemms([other, gemm], 2, Arrays(inits)); var w := Arrays(inits)[gemm.inputs[1]];
      && p.nodes == [other] + Product(gemm, 1, RhsOf(gemm))
      && Arrays(inits + p.inits) == Arrays(inits)[RhsOf(gemm) := A.Flip(w)]
  {
    hide Later, Product, A.Flip, Arrays, IsLater;
    var nodes, arrays := [other, gemm], Arrays(inits);
    assert LowerGemms(nodes, 1, arrays) == Progress([other], [], arrays.Keys, 0, []);
    TurnIs(nodes, 1, arrays);
    assert RhsName(gemm, arrays.Keys) == RhsOf(gemm);
    var p := LowerGemms(nodes, 2, arrays);
    assert p.inits == [Initializer(RhsOf(gemm), A.Flip(arrays[gemm.inputs[1]]))];
    ArraysLonger(inits, Initializer(RhsOf(gemm), A.Flip(arrays[gemm.inputs[1]])));
  }

  lemma ArraysLonger(inits: seq<Initializer>, i: Initializer)
    ensures Arrays(inits + [i]) == Arrays(inits)[i.name := i.value]
  {
    assert (inits + [i])[..|inits|] == inits;
  }

  /** The Gemm itself, where it can run. */
  lemma GemmStep(be: Backend, e: Env, gemm: Node, arrays: Env, inputs: set<string>)
    requires Turned(gemm, arrays, inputs) && gemm.inputs[0] in e && gemm.inputs[1] in e && e[gemm.inputs[1]] == arrays[gemm.inputs[1]]
    requires A.CanGemm(e[gemm.inputs[0]], arrays[gemm.inputs[1]], None, false, true)
    ensures Step(be, e, gemm) == Some(e[gemm.outputs[0] := A.MatMul2(e[gemm.inputs[0]], A.Flip(arrays[gemm.inputs[1]]))])
  {
    hide A.Gemm, A.CanGemm, A.MatMul2, A.Flip;
    var a, w := e[gemm.inputs[0]], arrays[gemm.inputs[1]];
    var xs := Operands(e, gemm.inputs);
    assert xs == [Given(a), Given(w)];
    assert Third(xs) == None;
    WeightRank(a, w, None, true);
    PlainGemm(a, w, None, true, gemm.op.beta);
    StepOf(be, e, gemm, gemm.outputs[0], A.Gemm(a, w, None, false, true, 1.0, gemm.op.beta));
  }

  /** The product that replaces it: it runs where the matrix under the made-up name fits the activation. */
  lemma ProductStep(be: Backend, e: Env, gemm: Node, arrays: Env, inputs: set<string>, index: nat, t: Tensor)
    requires Turned(gemm, arrays, inputs) && gemm.inputs[0] in e && RhsOf(gemm) in e && e[RhsOf(gemm)] == t
    requires Rank(e[gemm.inputs[0]], 2) && Rank(t, 2)
    ensures var r := Eval(be, e, Product(gemm, index, RhsOf(gemm)));
      && (r.Some? <==> A.CanMatMul2(e[gemm.inputs[0]], t))
      && (r.Some? ==> r.value == e[gemm.outputs[0] := A.MatMul2(e[gemm.inputs[0]], t)])
  {
    hide A.MatMul2, Supported, GemmName;
    var a, g, n := e[gemm.inputs[0]], RhsOf(gemm), Product(gemm, index, RhsOf(gemm))[0];
    assert Product(gemm, index, g) == [n] && gemm.outputs == [gemm.outputs[0]];
    assert g != "" by { assert |g| >= |"__matmul_rhs"|; }
    EvalOne(be, e, n);
    if A.CanMatMul2(a, t) {
      MatMul2Step(be, e, n, gemm.inputs[0], g, gemm.outputs[0]);
    } else {
      assert Operands(e, n.inputs) == [Given(a), Given(t)];
    }
  }

  /** The other node does the same whatever the activation, before and after. */
  lemma OtherStep(be: Backend, other: Node, gemm: Node, arrays: Env, inputs: Env, t: Tensor, e: Env)
    requires Clashes(other, gemm, arrays, inputs.Keys)
    requires Ready(inputs + arrays, other.inputs) && Run(be, other.op, Operands(inputs + arrays, other.inputs)) == Some([t])
    requires forall x | x in inputs + arrays && x != gemm.inputs[0] :: x in e && e[x] == (inputs + arrays)[x]
    ensures Step(be, e, other) == Some(e[RhsOf(gemm) := t])
  {
    hide Run, Supported;
    assert Operands(e, other.inputs) == Operands(inputs + arrays, other.inputs);
    assert |RhsOf(gemm)| >= |"__matmul_rhs"|;
    StepOf(be, e, other, RhsOf(gemm), t);
  }

  /** The Gemm's value at one activation, before. */
  lemma ClashBefore(be: Backend, other: Node, gemm: Node, inits: seq<Initializer>, inputs: Env, t: Tensor, a: Tensor)
    requires Clashes(other, gemm, Arrays(inits), inputs.Keys)
    requires Ready(inputs + Arrays(inits), other.inputs) && Run(be, other.op, Operands(inputs + Arrays(inits), other.inputs)) == Some([t])
    requires A.CanGemm(a, Arrays(inits)[gemm.inputs[1]], None, false, true)
    ensures Rank(Arrays(inits)[gemm.inputs[1]], 2) && A.CanMatMul2(a, A.Flip(Arrays(inits)[gemm.inputs[1]]))
    ensures var y := gemm.outputs[0];
      var e := Eval(be, inputs[gemm.inputs[0] := a] + Arrays(inits), [other, gemm]);
      e.Some? && y in e.value && e.value[y] == A.MatMul2(a, A.Flip(Arrays(inits)[gemm.inputs[1]]))
  {
    hide A.MatMul2, A.Flip, Run, Supported, Arrays, Eval, Step;
    var arrays, g, x := Arrays(inits), RhsOf(gemm), gemm.inputs[0];
    SupportedMeans(arrays, gemm);
    FitsTurned(arrays[gemm.inputs[1]]);
    var before := inputs[x := a] + arrays;
    OtherStep(be, other, gemm, arrays, inputs, t, before);
    assert [other, gemm] == [other] + [gemm];
    EvalCons(be, before, other, [gemm], before[g := t]);
    EvalOne(be, before[g := t], gemm);
    GemmStep(be, before[g := t], gemm, arrays, inputs.Keys);
  }

  /** And after: it is there where the other tensor fits the activation. */
  lemma ClashAfter(be: Backend, other: Node, gemm: Node, inits: seq<Initializer>, inputs: Env, t: Tensor, a: Tensor)
    requires Clashes(other, gemm, Arrays(inits), inputs.Keys) && Rank(t, 2) && Rank(a, 2)
    requires Ready(inputs + Arrays(inits), other.inputs) && Run(be, other.op, Operands(inputs + Arrays(inits), other.inputs)) == Some([t])
    ensures GemmsHaveOutput([other, gemm])
    ensures var y, p := gemm.outputs[0], LowerGemms([other, gemm], 2, Arrays(inits));
      var r := Eval(be, inputs[gemm.inputs[0] := a] + Arrays(inits + p.inits), p.nodes);
      (r.Some? <==> A.CanMatMul2(a, t)) && (r.Some? ==> y in r.value && r.value[y] == A.MatMul2(a, t))
  {
    hide A.MatMul2, A.Flip, Run, LowerGemms, Supported, Product, Arrays, Eval, Step;
    var arrays, g, x := Arrays(inits), RhsOf(gemm), gemm.inputs[0];
    SupportedMeans(arrays, gemm);
    LoweredClash(other, gemm, inits, inputs.Keys);
    var p := LowerGemms([other, gemm], 2, arrays);
    var after := inputs[x := a] + Arrays(inits + p.inits);
    OtherStep(be, other, gemm, arrays, inputs, t, after);
    EvalCons(be, after, other, Product(gemm, 1, g), after[g := t]);
    ProductStep(be, after[g := t], gemm, arrays, inputs.Keys, 1, t);
  }

  lemma FitsTurned(w: Tensor)
    requires Rank(w, 2)
    ensures forall a: Tensor :: A.CanGemm(a, w, None, false, true) <==> A.CanMatMul2(a, A.Flip(w))
  {}

  lemma GemmRank(a: Tensor, w: Tensor)
    requires A.CanGemm(a, w, None, false, true)
    ensures Rank(a, 2)
  {}

  lemma TurnedRank(gemm: Node, arrays: Env, inputs: set<string>)
    requires Turned(gemm, arrays, inputs)
    ensures |gemm.inputs| >= 2 && gemm.inputs[1] in arrays && Rank(arrays[gemm.inputs[1]], 2)
  {}

  /** The lowered graph gives the Gemm's output, at this activation, the value it had. */
  ghost predicate KeptAt(be: Backend, other: Node, gemm: Node, inits: seq<Initializer>, inputs: Env, a: Tensor)
    requires Clashes(other, gemm, Arrays(inits), inputs.Keys)
  {
    var y, p := gemm.outputs[0], (LoweredClash(other, gemm, inits, inputs.Keys); LowerGemms([other, gemm], 2, Arrays(inits)));
    var e := Eval(be, inputs[gemm.inputs[0] := a] + Arrays(inits), [other, gemm]);
    var r := Eval(be, inputs[gemm.inputs[0] := a] + Arrays(inits + p.inits), p.nodes);
    e.Some? && y in e.value && r.Some? && y in r.value && r.value[y] == e.value[y]
  }

  /**
   * A new constant's name is checked against the other constants only. When a node produces a tensor of that name, the
   * Gemm's output keeps its value for every activation if and only if that tensor is the transposed weight.
   */
  lemma NodeClashExactly(be: Backend, other: Node, gemm: Node, inits: seq<Initializer>, inputs: Env, t: Tensor)
    requires Clashes(other, gemm, Arrays(inits), inputs.Keys) && Rank(t, 2)
    requires Ready(inputs + Arrays(inits), other.inputs) && Run(be, other.op, Operands(inputs + Arrays(inits), other.inputs)) == Some([t])
    ensures Rank(Arrays(inits)[gemm.inputs[1]], 2)
    ensures (forall a: Tensor | A.CanGemm(a, Arrays(inits)[gemm.inputs[1]], None, false, true) :: KeptAt(be, other, gemm, inits, inputs, a))
            <==> t == A.Flip(Arrays(inits)[gemm.inputs[1]])
  {
    TurnedRank(gemm, Arrays(inits), inputs.Keys);
    hide A.MatMul2, A.Flip, A.CanGemm, A.CanMatMul2, Run, LowerGemms, Eval, Arrays, Clashes;
    var w := Arrays(inits)[gemm.inputs[1]];
    FitsTurned(w);
    forall a: Tensor | A.CanGemm(a, w, None, false, true)
      ensures KeptAt(be, other, gemm, inits, inputs, a) <==> A.CanMatMul2(a, t) && A.MatMul2(a, A.Flip(w)) == A.MatMul2(a, t)
    {
      assert Rank(a, 2) by { GemmRank(a, w); }
      ClashBefore(be, other, gemm, inits, inputs, t, a);
      ClashAfter(be, other, gemm, inits, inputs, t, a);
    }
    SameProducts(A.Flip(w), t);
  }

  // ---------------------------------------------------------------- a graph input of a made-up name

  /** A supplied input takes the place of a constant of its name, so the new constant is never seen. */
  ghost predicate KeptWithInput(be: Backend, gemm: Node, inits: seq<Initializer>, inputs: Env, a: Tensor)
    requires Turned(gemm, Arrays(inits), inputs.Keys)
  {
    var y, p := gemm.outputs[0], LowerGemms([gemm], 1, Arrays(inits));
    var e := Eval(be, Arrays(inits) + inputs[gemm.inputs[0] := a], [gemm]);
    var r := Eval(be, Arrays(inits + p.inits) + inputs[gemm.inputs[0] := a], p.nodes);
    e.Some? && y in e.value && r.Some? && y in r.value && r.value[y] == e.value[y]
  }

  lemma InputClashAt(be: Backend, gemm: Node, inits: seq<Initializer>, inputs: Env, a: Tensor)
    requires Turned(gemm, Arrays(inits), inputs.Keys) && RhsOf(gemm) in inputs && Rank(inputs[RhsOf(gemm)], 2)
    requires A.CanGemm(a, Arrays(inits)[gemm.inputs[1]], None, false, true)
    ensures KeptWithInput(be, gemm, inits, inputs, a) <==>
      var t, w := inputs[RhsOf(gemm)], Arrays(inits)[gemm.inputs[1]];
      A.CanMatMul2(a, t) && A.MatMul2(a, A.Flip(w)) == A.MatMul2(a, t)
  {
    assert Rank(a, 2);
    hide A.MatMul2, A.Flip, A.CanGemm, Run, Supported, Product, Arrays, Eval;
    var arrays, g, x := Arrays(inits), RhsOf(gemm), gemm.inputs[0];
    SupportedMeans(arrays, gemm);
    var w := arrays[gemm.inputs[1]];
    WeightRank(a, w, None, true);
    var before := arrays + inputs[x := a];
    EvalOne(be, before, gemm);
    GemmStep(be, before, gemm, arrays, inputs.Keys);
    LoweredAlone(gemm, inits, inputs.Keys);
    var p := LowerGemms([gemm], 1, arrays);
    hide LowerGemms;
    ProductStep(be, Arrays(inits + p.inits) + inputs[x := a], gemm, arrays, inputs.Keys, 0, inputs[g]);
  }

  lemma LoweredAlone(gemm: Node, inits: seq<Initializer>, inputs: set<string>)
    requires Turned(gemm, Arrays(inits), inputs)
    ensures GemmsHaveOutput([gemm])
    ensures var p := LowerGemms([gemm], 1, Arrays(inits));
      && p.nodes == Product(gemm, 0, RhsOf(gemm))
      && Arrays(inits + p.inits) == Arrays(inits)[RhsOf(gemm) := A.Flip(Arrays(inits)[gemm.inputs[1]])]
  {
    hide Later, Product, A.Flip, Arrays, IsLater;
    var nodes, arrays := [gemm], Arrays(inits);
    assert LowerGemms(nodes, 0, arrays) == Progress([], [], arrays.Keys, 0, []);
    TurnIs(nodes, 0, arrays);
    assert RhsName(gemm, arrays.Keys) == RhsOf(gemm);
    var p := LowerGemms(nodes, 1, arrays);
    assert p.inits == [Initializer(RhsOf(gemm), A.Flip(arrays[gemm.inputs[1]]))];
    ArraysLonger(inits, Initializer(RhsOf(gemm), A.Flip(arrays[gemm.inputs[1]])));
  }

  /** When the graph has an input of that name, the output is kept for every activation if and only if the input supplied is the
      transposed weight. */
  lemma InputClashExactly(be: Backend, gemm: Node, inits: seq<Initializer>, inputs: Env)
    requires Turned(gemm, Arrays(inits), inputs.Keys) && RhsOf(gemm) in inputs && Rank(inputs[RhsOf(gemm)], 2)
    ensures Rank(Arrays(inits)[gemm.inputs[1]], 2)
    ensures (forall a: Tensor | A.CanGemm(a, Arrays(inits)[gemm.inputs[1]], None, false, true) :: KeptWithInput(be, gemm, inits, inputs, a))
            <==> inputs[RhsOf(gemm)] == A.Flip(Arrays(inits)[gemm.inputs[1]])
  {
    TurnedRank(gemm, Arrays(inits), inputs.Keys);
    hide A.MatMul2, A.Flip, A.CanGemm, A.CanMatMul2, Run, LowerGemms, Eval, Arrays, Turned, KeptWithInput;
    var w, t := Arrays(inits)[gemm.inputs[1]], inputs[RhsOf(gemm)];
    FitsTurned(w);
    forall a: Tensor | A.CanGemm(a, w, None, false, true)
      ensures KeptWithInput(be, gemm, inits, inputs, a) <==> A.CanMatMul2(a, t) && A.MatMul2(a, A.Flip(w)) == A.MatMul2(a, t)
    {
      InputClashAt(be, gemm, inits, inputs, a);
    }
    SameProducts(A.Flip(w), t);
  }

  // ---------------------------------------------------------------- a wrong value

  /** A node that produces a zero under the made-up name turns the output 1 of a Gemm into 0. */
  lemma ClashGivesWrongValue(be: Backend)
    ensures var other := Node("c", Constant(Some(OneByOne(0.0))), [], ["w" + "__matmul_rhs"]);
      var gemm := Node("g", Gemm(0, 1, 1.0, 1.0), ["x", "w"], ["y"]);
      var inits := [Initializer("w", OneByOne(1.0))];
      && GemmsHaveOutput([other, gemm])
      && var p := LowerGemms([other, gemm], 2, Arrays(inits));
      var e := Eval(be, map["x" := OneByOne(1.0)] + Arrays(inits), [other, gemm]);
      var r := Eval(be, map["x" := OneByOne(1.0)] + Arrays(inits + p.inits), p.nodes);
      && e.Some? && "y" in e.value && Get2(e.value["y"], 0, 0) == 1.0
      && r.Some? && "y" in r.value && Get2(r.value["y"], 0, 0) == 0.0
  {
    hide A.MatMul2, A.Flip, LowerGemms, Eval, OneByOne, Get2;
    var other := Node("c", Constant(Some(OneByOne(0.0))), [], ["w" + "__matmul_rhs"]);
    var gemm := Node("g", Gemm(0, 1, 1.0, 1.0), ["x", "w"], ["y"]);
    var inits, inputs := [Initializer("w", OneByOne(1.0))], map["x" := OneByOne(1.0)];
    assert inits[..0] == [] && Arrays(inits) == map["w" := OneByOne(1.0)];
    assert |"w" + "__matmul_rhs"| == 13;
    assert Clashes(other, gemm, Arrays(inits), inputs.Keys);
    OneByOneTurned(1.0);
    OneByOneProduct(1.0, 1.0);
    OneByOneProduct(1.0, 0.0);
    FitsTurned(OneByOne(1.0));
    assert inputs["x" := OneByOne(1.0)] == inputs;
    ClashBefore(be, other, gemm, inits, inputs, OneByOne(0.0), OneByOne(1.0));
    ClashAfter(be, other, gemm, inits, inputs, OneByOne(0.0), OneByOne(1.0));
  }
}
