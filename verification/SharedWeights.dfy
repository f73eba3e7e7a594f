/** Gemm nodes that share a weight generate one name for two constants: what the converted nodes then compute. */
module SharedWeights {
  import opened Wrappers
  import opened Tensors
  import opened OnnxGraph
  import opened AffineBlocks
  import opened AffineBlockMeaning
  import opened MatrixProbes
  import A = AffineTensors

  /** Two Gemm nodes without a bias read one weight, and activations of their own. */
  predicate Sharing(m: Node, n: Node, inputs: set<string>) {
    && m.op.Gemm? && n.op.Gemm? && |m.inputs| == 2 && |n.inputs| == 2 && m.inputs[1] == n.inputs[1]
    && m.op.transA == 0 && n.op.transA == 0 && 0 <= m.op.transB <= 1 && 0 <= n.op.transB <= 1
    && |m.outputs| == 1 && |n.outputs| == 1 && m.outputs[0] != n.outputs[0] && m.outputs[0] != "" && n.outputs[0] != ""
    && m.inputs[0] != n.inputs[0] && m.inputs[0] in inputs && n.inputs[0] in inputs && "" !in inputs
    && SharedName(m) !in inputs + {m.outputs[0], n.outputs[0]} && m.outputs[0] !in inputs
  }

  function SharedName(m: Node): string
    requires |m.inputs| >= 2
  {
    m.inputs[1] + "__gemm_matmul"
  }

  /** Both nodes generate a constant of that name; the one added last is the one that both read. */
  lemma LaterConstantWins(m: Node, n: Node, inputs: set<string>, w: Tensor)
    requires Sharing(m, n, inputs)
    ensures Arrays(GemmInits(m, w, None) + GemmInits(n, w, None)) == map[SharedName(m) := GemmMatrix(n.op, w)]
    ensures GemmNodes(m, w, None).Ok? && GemmNodes(n, w, None).Ok?
    ensures GemmNodes(m, w, None).value.inits == GemmInits(m, w, None) && GemmNodes(n, w, None).value.inits == GemmInits(n, w, None)
    ensures GemmNodes(m, w, None).value.nodes == [SharedProduct(m)] && GemmNodes(n, w, None).value.nodes == [SharedProduct(n)]
  {
    hide GemmMatrix;
    var one, two := Initializer(SharedName(m), GemmMatrix(m.op, w)), Initializer(SharedName(m), GemmMatrix(n.op, w));
    var inits := GemmInits(m, w, None) + GemmInits(n, w, None);
    assert inits == [one, two];
    assert inits[..|inits| - 1] == [one] && [one][..0] == [];
    assert Arrays([one]) == map[SharedName(m) := one.value];
  }

  function SharedProduct(m: Node): Node
    requires |m.inputs| >= 2 && |m.outputs| == 1
  {
    Node(Derived(m, "/" + "MatMul"), MatMul, [m.inputs[0], SharedName(m)], [m.outputs[0]])
  }

  lemma SharedProductRuns(be: Backend, e: Env, m: Node, u: Tensor)
    requires |m.inputs| == 2 && |m.outputs| == 1 && m.outputs[0] != "" && m.inputs[0] != "" && m.inputs[0] in e
    requires SharedName(m) in e && e[SharedName(m)] == u && Rank(e[m.inputs[0]], 2) && Rank(u, 2)
    ensures var r := Step(be, e, SharedProduct(m));
      && (r.Some? <==> A.CanMatMul2(e[m.inputs[0]], u))
      && (r.Some? ==> r.value == e[m.outputs[0] := A.MatMul2(e[m.inputs[0]], u)])
  {
    hide A.MatMul2;
    var g, p := SharedName(m), SharedProduct(m);
    assert g != "" by { assert |g| >= |"__gemm_matmul"|; }
    if A.CanMatMul2(e[m.inputs[0]], u) {
      MatMul2Step(be, e, p, m.inputs[0], g, m.outputs[0]);
    } else {
      assert Operands(e, p.inputs) == [Given(e[m.inputs[0]]), Given(u)];
    }
  }

  /** The product with the constant a Gemm generates is the Gemm. */
  lemma OwnConstantIsRight(op: Op, a: Tensor, w: Tensor)
    requires op.Gemm? && op.transA == 0 && Rank(w, 2)
    ensures Rank(GemmMatrix(op, w), 2) && (A.CanGemm(a, w, None, false, op.transB != 0) <==> A.CanMatMul2(a, GemmMatrix(op, w)))
    ensures A.CanGemm(a, w, None, false, op.transB != 0) ==>
      A.MatMul2(a, GemmMatrix(op, w)) == A.Gemm(a, w, None, false, op.transB != 0, op.alpha, op.beta)
  {
    hide A.MatMul2, A.Flip, A.Scale;
    if A.CanGemm(a, w, None, false, op.transB != 0) {
      NoFlip(a);
      A.ScaleRight(op.alpha, a, A.FlipIf(op.transB != 0, w));
    }
  }

  /** Both replacements, with both constants in the order in which they are added. */
  function Converted(be: Backend, m: Node, n: Node, start: Env, w: Tensor): Option<Env>
    requires m.op.Gemm? && n.op.Gemm? && |m.inputs| == 2 && |n.inputs| == 2 && |m.outputs| == 1 && |n.outputs| == 1
  {
    var first, second := GemmNodes(m, w, None), GemmNodes(n, w, None);
    if first.Err? || second.Err? then None
    else Eval(be, start + Arrays(first.value.inits + second.value.inits), first.value.nodes + second.value.nodes)
  }

  lemma ConvertedIs(be: Backend, m: Node, n: Node, inputs: set<string>, start: Env, w: Tensor)
    requires Sharing(m, n, inputs)
    ensures Converted(be, m, n, start, w)
         == Eval(be, start + map[SharedName(m) := GemmMatrix(n.op, w)], [SharedProduct(m)] + [SharedProduct(n)])
  {
    hide GemmMatrix, GemmInits, GemmNodes, Arrays, Eval, SharedName, SharedProduct;
    LaterConstantWins(m, n, inputs, w);
  }

  /** Once both replacements have run, the first node's output is its Gemm at this activation. */
  ghost predicate SharedIsRight(be: Backend, m: Node, n: Node, inputs: Env, w: Tensor, a: Tensor)
    requires Sharing(m, n, inputs.Keys) && Rank(w, 2) && A.CanGemm(a, w, None, false, m.op.transB != 0)
  {
    var r := Converted(be, m, n, inputs[m.inputs[0] := a], w);
    && r.Some? && m.outputs[0] in r.value
    && r.value[m.outputs[0]] == A.Gemm(a, w, None, false, m.op.transB != 0, m.op.alpha, m.op.beta)
  }

  /** The two products, one after the other, in an environment that holds their matrix. */
  lemma ProductsRun(be: Backend, e: Env, m: Node, n: Node, inputs: set<string>, v: Tensor)
    requires Sharing(m, n, inputs) && inputs <= e.Keys && SharedName(m) in e && e[SharedName(m)] == v && Rank(v, 2)
    requires Rank(e[m.inputs[0]], 2) && A.CanMatMul2(e[n.inputs[0]], v)
    ensures var r := Eval(be, e, [SharedProduct(m)] + [SharedProduct(n)]);
      && (r.Some? <==> A.CanMatMul2(e[m.inputs[0]], v))
      && (r.Some? ==> m.outputs[0] in r.value && r.value[m.outputs[0]] == A.MatMul2(e[m.inputs[0]], v))
  {
    hide A.MatMul2, Step, Eval, SharedName, SharedProduct;
    SameName(m, n, inputs);
    SharedProductRuns(be, e, m, v);
    var p, q := SharedProduct(m), SharedProduct(n);
    if A.CanMatMul2(e[m.inputs[0]], v) {
      var mid := e[m.outputs[0] := A.MatMul2(e[m.inputs[0]], v)];
      EvalCons(be, e, p, [q], mid);
      EvalOne(be, mid, q);
      SharedProductRuns(be, mid, n, v);
    } else {
      FailsFirst(be, e, p, [q]);
    }
  }

  lemma SharedAt(be: Backend, m: Node, n: Node, inputs: Env, w: Tensor, a: Tensor)
    requires Sharing(m, n, inputs.Keys) && Rank(w, 2) && A.CanGemm(a, w, None, false, m.op.transB != 0)
    requires A.CanGemm(inputs[n.inputs[0]], w, None, false, n.op.transB != 0)
    ensures var u, v := GemmMatrix(m.op, w), GemmMatrix(n.op, w);
      A.CanMatMul2(a, u) && Rank(v, 2)
      && (SharedIsRight(be, m, n, inputs, w, a) <==> A.CanMatMul2(a, v) && A.MatMul2(a, u) == A.MatMul2(a, v))
  {
    hide A.MatMul2, A.Gemm, A.CanGemm, A.CanMatMul2, GemmMatrix, Converted, Eval, SharedName, SharedProduct;
    var b, v := inputs[n.inputs[0]], GemmMatrix(n.op, w);
    OwnConstantIsRight(m.op, a, w);
    OwnConstantIsRight(n.op, b, w);
    GemmRank(a, w, m.op.transB != 0);
    SameName(m, n, inputs.Keys);
    ConvertedIs(be, m, n, inputs.Keys, inputs[m.inputs[0] := a], w);
    ProductsRun(be, inputs[m.inputs[0] := a] + map[SharedName(m) := v], m, n, inputs.Keys, v);
  }

  lemma GemmRank(a: Tensor, w: Tensor, transB: bool)
    requires A.CanGemm(a, w, None, false, transB)
    ensures Rank(a, 2)
  {}

  lemma SameName(m: Node, n: Node, inputs: set<string>)
    requires Sharing(m, n, inputs)
    ensures SharedName(m) == SharedName(n)
  {}

  lemma FailsFirst(be: Backend, e: Env, n: Node, rest: seq<Node>)
    requires Step(be, e, n).None?
    ensures Eval(be, e, [n] + rest).None?
  {}

  /** Two Gemm nodes that share a weight share a constant, the later one's. The earlier node's output is right for every
      activation if and only if the two scaled matrices are the same. */
  lemma SharedGemmWeightExactly(be: Backend, m: Node, n: Node, inputs: Env, w: Tensor)
    requires Sharing(m, n, inputs.Keys) && Rank(w, 2) && A.CanGemm(inputs[n.inputs[0]], w, None, false, n.op.transB != 0)
    ensures (forall a: Tensor | A.CanGemm(a, w, None, false, m.op.transB != 0) :: SharedIsRight(be, m, n, inputs, w, a))
            <==> GemmMatrix(m.op, w) == GemmMatrix(n.op, w)
  {
    SharingOps(m, n, inputs.Keys);
    hide A.MatMul2, A.Gemm, A.CanGemm, GemmMatrix, Sharing, SharedIsRight;
    var u, v := GemmMatrix(m.op, w), GemmMatrix(n.op, w);
    OwnConstantIsRight(n.op, inputs[n.inputs[0]], w);
    OwnConstantIsRight(m.op, inputs[n.inputs[0]], w);
    forall a: Tensor
      ensures A.CanGemm(a, w, None, false, m.op.transB != 0) <==> A.CanMatMul2(a, u)
      ensures A.CanGemm(a, w, None, false, m.op.transB != 0) ==>
        (SharedIsRight(be, m, n, inputs, w, a) <==> A.CanMatMul2(a, v) && A.MatMul2(a, u) == A.MatMul2(a, v))
    {
      OwnConstantIsRight(m.op, a, w);
      if A.CanGemm(a, w, None, false, m.op.transB != 0) { SharedAt(be, m, n, inputs, w, a); }
    }
    SameProducts(u, v);
  }

  lemma SharingOps(m: Node, n: Node, inputs: set<string>)
    requires Sharing(m, n, inputs)
    ensures m.op.Gemm? && n.op.Gemm? && m.op.transA == 0 && n.op.transA == 0 && |n.inputs| == 2 && n.inputs[0] in inputs
  {}

  /** Scaled by 1 and by 2: of the one-by-one matrix 1 the first Gemm makes 1, and its replacement 2. */
  lemma SharedGemmWeightFails(be: Backend, m: Node, n: Node, inputs: Env)
    requires Sharing(m, n, inputs.Keys) && m.op == Gemm(0, 0, 1.0, 1.0) && n.op == Gemm(0, 0, 2.0, 1.0)
    requires inputs[m.inputs[0]] == inputs[n.inputs[0]] == OneByOne(1.0)
    ensures var w, r := OneByOne(1.0), Converted(be, m, n, inputs, OneByOne(1.0));
      && A.CanGemm(w, w, None, false, false) && Get2(A.Gemm(w, w, None, false, false, 1.0, 1.0), 0, 0) == 1.0
      && r.Some? && m.outputs[0] in r.value && Get2(r.value[m.outputs[0]], 0, 0) == 2.0
  {
    hide A.MatMul2, A.Gemm, A.CanGemm, A.CanMatMul2, GemmMatrix, Converted, Eval, SharedProduct, SharedName, OneByOne, Get2;
    var w := OneByOne(1.0);
    Doubled();
    OwnConstantIsRight(m.op, w, w);
    ConvertedIs(be, m, n, inputs.Keys, inputs, w);
    OneByOneProduct(1.0, 1.0);
    OneByOneProduct(1.0, 2.0);
    ProductsRun(be, inputs + map[SharedName(m) := OneByOne(2.0)], m, n, inputs.Keys, OneByOne(2.0));
  }

  lemma Doubled()
    ensures GemmMatrix(Gemm(0, 0, 1.0, 1.0), OneByOne(1.0)) == OneByOne(1.0)
    ensures GemmMatrix(Gemm(0, 0, 2.0, 1.0), OneByOne(1.0)) == OneByOne(2.0)
  {
    ScaledOne(1.0);
    ScaledOne(2.0);
  }

  lemma ScaledOne(f: real)
    ensures A.Scale(f, OneByOne(1.0)) == OneByOne(f)
  {
    hide WellShaped, InShape, Get, Get2, Make2, A.Scale;
    A.ScaleAt(f, OneByOne(1.0), 0, 0);
    Make2At(1, 1, (_, _) => 1.0, 0, 0);
    Make2At(1, 1, (_, _) => f, 0, 0);
    Extensional2(A.Scale(f, OneByOne(1.0)), OneByOne(f), 1, 1);
  }
}
