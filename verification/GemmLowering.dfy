/** `lower_eligible_gemm_to_matmul` of scripts/asr_onnx_quantization/quantize_hqq_w4a8.py: constant-weight Gemm nodes become
    MatMul and Add, a transposed weight becomes a new constant, every other Gemm stays and is reported. */
module GemmLowering {
  import opened Wrappers
  import opened Tensors
  import opened Numerals
  import opened OnnxGraph
  import opened AffineBlocks
  import opened AffineBlockMeaning
  import A = AffineTensors

  // ---------------------------------------------------------------- a fresh constant name

  function Candidate(base: string, k: nat): string { if k <= 1 then base else base + "_" + Decimal(k) }

  lemma CandidatesDiffer(base: string, j: nat, k: nat)
    requires 1 <= j && 1 <= k && j != k
    ensures Candidate(base, j) != Candidate(base, k)
  {
    hide Decimal;
    if j > 1 && k > 1 {
      if Decimal(j) == Decimal(k) { DecimalInjective(j, k); }
      SuffixesDiffer(base + "_", Decimal(j), Decimal(k));
    }
    assert k > 1 ==> |Candidate(base, k)| > |base|;
    assert j > 1 ==> |Candidate(base, j)| > |base|;
  }

  ghost predicate IsLater(base: string, k: nat, name: string) { exists j: nat :: k <= j && name == Candidate(base, j) }

  ghost function Later(base: string, used: set<string>, k: nat): set<string> { set x | x in used && IsLater(base, k, x) }

  lemma LaterShrinks(base: string, used: set<string>, k: nat)
    requires k >= 1 && Candidate(base, k) in used
    ensures |Later(base, used, k + 1)| < |Later(base, used, k)|
  {
    var small, large := Later(base, used, k + 1), Later(base, used, k);
    var name := Candidate(base, k);
    assert IsLater(base, k, name);
    forall x | x in small ensures x in large && x != name {
      var j: nat :| k + 1 <= j && x == Candidate(base, j);
      CandidatesDiffer(base, j, k);
    }
    assert small <= large - {name};
    Subset(small, large - {name});
  }

  lemma Subset(a: set<string>, b: set<string>)
    requires a <= b
    ensures |a| <= |b|
  {
    if a != {} {
      var x :| x in a;
      Subset(a - {x}, b - {x});
    }
  }

  /** The first unused candidate. */
  function FreshFrom(base: string, used: set<string>, k: nat): (name: string)
    requires k >= 1
    ensures name !in used && IsLater(base, k, name)
    decreases |Later(base, used, k)|
  {
    if Candidate(base, k) !in used then Candidate(base, k)
    else
      LaterShrinks(base, used, k);
      FreshFrom(base, used, k + 1)
  }

  method FreshName(base: string, used: set<string>) returns (name: string)
    ensures name == FreshFrom(base, used, 1)
    ensures name !in used && exists k: nat :: name == Candidate(base, k) && forall j | 1 <= j < k :: Candidate(base, j) in used
  {
    hide Decimal, Later, IsLater;
    var suffix := 1;
    name := base;
    while name in used
      invariant suffix >= 1 && name == Candidate(base, suffix) && FreshFrom(base, used, suffix) == FreshFrom(base, used, 1)
      invariant forall j | 1 <= j < suffix :: Candidate(base, j) in used
      decreases |Later(base, used, suffix)|
    {
      LaterShrinks(base, used, suffix);
      suffix := suffix + 1;
      name := Candidate(base, suffix);
    }
  }

  // ---------------------------------------------------------------- one node

  predicate GemmsHaveOutput(nodes: seq<Node>) { forall k | 0 <= k < |nodes| && nodes[k].op.Gemm? :: |nodes[k].outputs| == 1 && nodes[k].outputs[0] != "" }

  predicate Supported(arrays: Env, n: Node) {
    && n.op.Gemm? && |n.inputs| >= 2 && n.inputs[1] in arrays && n.op.transA == 0 && n.op.alpha == 1.0
    && (|n.inputs| < 3 || n.op.beta == 1.0)
    && (n.op.transB == 1 ==> Rank(arrays[n.inputs[1]], 2))
  }

  function RhsName(n: Node, used: set<string>): string
    requires |n.inputs| >= 2
  {
    FreshFrom(n.inputs[1] + "__matmul_rhs", used, 1)
  }

  function GemmName(n: Node, index: nat): string { if n.name != "" then n.name else "Gemm_" + Decimal(index) }

  function SkippedName(n: Node, index: nat): string { if n.name != "" then n.name else "Gemm[" + Decimal(index) + "]" }

  predicate HasBias(n: Node) { |n.inputs| >= 3 && n.inputs[2] != "" }

  function PreBias(n: Node): string
    requires |n.outputs| == 1
  {
    n.outputs[0] + "__pre_bias"
  }

  function Product(n: Node, index: nat, rhs: string): seq<Node>
    requires |n.inputs| >= 2 && |n.outputs| == 1
  {
    if HasBias(n) then
      [Node(GemmName(n, index) + "/MatMul", MatMul, [n.inputs[0], rhs], [PreBias(n)]),
       Node(GemmName(n, index) + "/BiasAdd", Binary(Add), [PreBias(n), n.inputs[2]], n.outputs)]
    else
      [Node(GemmName(n, index) + "/MatMul", MatMul, [n.inputs[0], rhs], n.outputs)]
  }

  // ---------------------------------------------------------------- the whole list

  datatype Progress = Progress(nodes: seq<Node>, inits: seq<Initializer>, used: set<string>, lowered: nat, skipped: seq<string>)

  function Advance(p: Progress, arrays: Env, n: Node, index: nat): Progress
    requires n.op.Gemm? ==> |n.outputs| == 1
  {
    if !n.op.Gemm? then p.(nodes := p.nodes + [n])
    else if !Supported(arrays, n) then p.(nodes := p.nodes + [n], skipped := p.skipped + [SkippedName(n, index)])
    else if n.op.transB == 1 then
      var rhs := RhsName(n, p.used);
      Progress(p.nodes + Product(n, index, rhs), p.inits + [Initializer(rhs, A.Flip(arrays[n.inputs[1]]))], p.used + {rhs}, p.lowered + 1, p.skipped)
    else p.(nodes := p.nodes + Product(n, index, n.inputs[1]), lowered := p.lowered + 1)
  }

  function LowerGemms(nodes: seq<Node>, k: nat, arrays: Env): Progress
    requires k <= |nodes| && GemmsHaveOutput(nodes)
  {
    if k == 0 then Progress([], [], arrays.Keys, 0, []) else Advance(LowerGemms(nodes, k - 1, arrays), arrays, nodes[k - 1], k - 1)
  }

  lemma SupportedMeans(arrays: Env, n: Node)
    requires Supported(arrays, n)
    ensures n.op.Gemm? && |n.inputs| >= 2 && n.inputs[1] in arrays && (n.op.transB == 1 ==> Rank(arrays[n.inputs[1]], 2))
  {}

  function Gemms(nodes: seq<Node>, k: nat): nat
    requires k <= |nodes|
  {
    if k == 0 then 0 else Gemms(nodes, k - 1) + if nodes[k - 1].op.Gemm? then 1 else 0
  }

  /** Every Gemm is either lowered or reported, once. */
  lemma {:induction false} NoneIsForgotten(nodes: seq<Node>, k: nat, arrays: Env)
    requires k <= |nodes| && GemmsHaveOutput(nodes)
    ensures LowerGemms(nodes, k, arrays).lowered + |LowerGemms(nodes, k, arrays).skipped| == Gemms(nodes, k)
  {
    if k > 0 { NoneIsForgotten(nodes, k - 1, arrays); }
  }
}
