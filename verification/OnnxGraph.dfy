/** ONNX graphs as lists of nodes in single-assignment form, and what evaluating such a list means.
    Operators the rewrites emit or replace have their standard meaning on real tensors; every other
    operator, and every other use of these, is an arbitrary but deterministic function of the backend. */
module OnnxGraph {
  import opened Wrappers
  import opened Tensors
  import A = AffineTensors

  datatype UnaryKind = Erf | Identity | Relu | Sigmoid | Tanh

  datatype BinaryKind = Add | Div | Mul | Sub

  datatype Op =
    | Conv(group: int, autoPad: bool, dilations: seq<int>, strides: seq<int>, pads: seq<int>)
    | Gemm(transA: int, transB: int, alpha: real, beta: real)
    | MatMul
    | Unary(unary: UnaryKind)
    | Binary(binary: BinaryKind)
    | Transpose(perm: Option<seq<int>>)
    | Pad
    | Slice
    | Concat(axis: int)
    | Split(along: int, parts: nat)
    | Constant(value: Option<Tensor>)
    | Other(opType: string, attributes: string)

  datatype Node = Node(name: string, op: Op, inputs: seq<string>, outputs: seq<string>)

  datatype Initializer = Initializer(name: string, value: Tensor)

  type Env = map<string, Tensor>

  /** An optional input is left out by naming it "". */
  datatype Operand = Absent | Given(t: Tensor)

  datatype Backend = Backend(
    unary: (UnaryKind, real) -> real,
    divide: (real, real) -> real,
    foreign: (Op, seq<Operand>) -> Option<seq<Tensor>>)

  // ---------------------------------------------------------------- one operator

  function UnaryOf(be: Backend, k: UnaryKind): real -> real {
    if k == Identity then v => v else v => be.unary(k, v)
  }

  function BinaryOf(be: Backend, k: BinaryKind): (real, real) -> real {
    match k
    case Add => Plus()
    case Sub => (a: real, b: real) => a - b
    case Mul => (a: real, b: real) => a * b
    case Div => be.divide
  }

  /** The window of a one-dimensional convolution, if the attributes describe one. */
  function WindowOf(dilations: seq<int>, strides: seq<int>, pads: seq<int>): Option<A.Window> {
    if |dilations| == 1 && |strides| == 1 && |pads| == 2 &&
       dilations[0] >= 1 && strides[0] >= 1 && pads[0] >= 0 && pads[1] >= 0
    then Some(A.Window(strides[0], dilations[0], pads[0], pads[1])) else None
  }

  function Third(xs: seq<Operand>): Option<Tensor> {
    if |xs| >= 3 && xs[2].Given? then Some(xs[2].t) else None
  }

  predicate Present(xs: seq<Operand>, n: nat) {
    |xs| >= n && forall i | 0 <= i < n :: xs[i].Given?
  }

  /** A convolution whose padded length does not fit the 64-bit dimensions of the standard cannot run. */
  function RunConv(x: Tensor, w: Tensor, bias: Option<Tensor>, win: A.Window): Option<seq<Tensor>> {
    if A.CanConv(x, w, bias, win) && A.FitsInt64(x, win) then Some([A.Conv(x, w, bias, win)]) else None
  }

  function RunMatMul(x: Tensor, w: Tensor): Option<seq<Tensor>>
    requires (Rank(x, 2) || Rank(x, 3)) && Rank(w, 2)
  {
    if A.CanMatMul3(x, w) then Some([A.MatMul3(x, w)])
    else if A.CanMatMul2(x, w) then Some([A.MatMul2(x, w)])
    else None
  }

  predicate OneInt(x: Operand) { x.Given? && x.t.shape == [1] }

  function IntOf(x: Operand): int
    requires x.Given?
  {
    Get1(x.t, 0).Floor
  }

  predicate PadsLastAxis(x: Operand) {
    x.Given? && x.t.shape == [6] && (forall d | 0 <= d < 6 && d != 2 && d != 5 :: Get1(x.t, d) == 0.0)
    && Get1(x.t, 2) >= 0.0 && Get1(x.t, 5) >= 0.0
  }

  /** How long the first of two parts is: given by a tensor of two sizes, or half of the axis, rounded up. */
  function FirstSize(xs: seq<Operand>, length: nat): Option<nat> {
    if |xs| == 1 || (|xs| == 2 && xs[1].Absent?) then Some((length + 1) / 2)
    else if |xs| == 2 && xs[1].t.shape == [2] && Get1(xs[1].t, 0).Floor >= 0 && Get1(xs[1].t, 1).Floor >= 0
            && Get1(xs[1].t, 0).Floor + Get1(xs[1].t, 1).Floor == length
    then Some(Get1(xs[1].t, 0).Floor)
    else None
  }

  function Halves(x: Tensor, axis: nat, size: nat): seq<Tensor>
    requires Rank(x, 3) && 1 <= axis <= 2
  {
    var rest := if size <= x.shape[axis] then x.shape[axis] - size else 0;
    [Part(x, axis, 0, size), Part(x, axis, size, rest)]
  }

  function Run(be: Backend, op: Op, xs: seq<Operand>): Option<seq<Tensor>> {
    match op
    case Conv(group, autoPad, dilations, strides, pads) =>
      if |xs| >= 2 && xs[1].Given? && Rank(xs[1].t, 3) && group == 1 && !autoPad then
        var win := WindowOf(dilations, strides, pads);
        if xs[0].Given? && win.Some? then RunConv(xs[0].t, xs[1].t, Third(xs), win.value) else None
      else be.foreign(op, xs)
    case Gemm(transA, transB, alpha, beta) =>
      if Present(xs, 2) && A.CanGemm(xs[0].t, xs[1].t, Third(xs), transA != 0, transB != 0)
      then Some([A.Gemm(xs[0].t, xs[1].t, Third(xs), transA != 0, transB != 0, alpha, beta)]) else None
    case MatMul =>
      if |xs| == 2 && Present(xs, 2) && (Rank(xs[0].t, 2) || Rank(xs[0].t, 3)) && Rank(xs[1].t, 2)
      then RunMatMul(xs[0].t, xs[1].t) else be.foreign(op, xs)
    case Unary(k) =>
      if |xs| == 1 && Present(xs, 1) then Some([Map(UnaryOf(be, k), xs[0].t)]) else None
    case Binary(k) =>
      if |xs| == 2 && Present(xs, 2) && Broadcastable(xs[0].t.shape, xs[1].t.shape)
      then Some([Zip(BinaryOf(be, k), xs[0].t, xs[1].t)]) else None
    case Transpose(perm) =>
      if perm == Some([0, 2, 1]) then
        if |xs| == 1 && Present(xs, 1) && Rank(xs[0].t, 3) then Some([Swap(xs[0].t)]) else None
      else be.foreign(op, xs)
    case Pad =>
      if |xs| == 2 && Present(xs, 2) && Rank(xs[0].t, 3) && PadsLastAxis(xs[1])
      then Some([A.PadLast(xs[0].t, Get1(xs[1].t, 2).Floor, Get1(xs[1].t, 5).Floor)]) else be.foreign(op, xs)
    case Slice =>
      if |xs| == 5 && Present(xs, 5) && Rank(xs[0].t, 3) && OneInt(xs[1]) && OneInt(xs[2]) && OneInt(xs[3]) && OneInt(xs[4])
         && IntOf(xs[3]) == 2 && IntOf(xs[4]) >= 1
      then Some([A.SliceLast(xs[0].t, IntOf(xs[1]), IntOf(xs[2]), IntOf(xs[4]))]) else be.foreign(op, xs)
    case Concat(axis) =>
      if axis == 1 && Present(xs, |xs|) && A.CanConcat(seq(|xs|, i requires 0 <= i < |xs| => xs[i].t))
      then Some([A.ConcatChannels(seq(|xs|, i requires 0 <= i < |xs| => xs[i].t))]) else be.foreign(op, xs)
    case Split(along, parts) =>
      if 1 <= along <= 2 && parts == 2 && |xs| >= 1 && xs[0].Given? && Rank(xs[0].t, 3) then
        var size := FirstSize(xs, xs[0].t.shape[along]);
        if size.Some? then Some(Halves(xs[0].t, along, size.value)) else None
      else be.foreign(op, xs)
    case Constant(value) =>
      if value.None? then be.foreign(op, xs) else if xs == [] then Some([value.value]) else None
    case Other(_, _) => be.foreign(op, xs)
  }

  // ---------------------------------------------------------------- a list of nodes

  function Names(names: seq<string>): set<string> { set x | x in names && x != "" }

  predicate Ready(e: Env, names: seq<string>) {
    forall i | 0 <= i < |names| :: names[i] == "" || names[i] in e
  }

  function Operands(e: Env, names: seq<string>): (r: seq<Operand>)
    requires Ready(e, names)
    ensures |r| == |names|
  {
    seq(|names|, i requires 0 <= i < |names| => if names[i] == "" then Absent else Given(e[names[i]]))
  }

  /** An output that is not wanted is named "" as well. */
  function Bind(e: Env, names: seq<string>, values: seq<Tensor>): Env
    requires |names| == |values|
    decreases |names|
  {
    if names == [] then e
    else Bind(if names[0] == "" then e else e[names[0] := values[0]], names[1..], values[1..])
  }

  function Step(be: Backend, e: Env, n: Node): Option<Env> {
    if !Ready(e, n.inputs) then None
    else match Run(be, n.op, Operands(e, n.inputs))
      case None => None
      case Some(values) => if |values| == |n.outputs| then Some(Bind(e, n.outputs, values)) else None
  }

  function Eval(be: Backend, e: Env, nodes: seq<Node>): Option<Env>
    decreases |nodes|
  {
    if nodes == [] then Some(e)
    else match Step(be, e, nodes[0])
      case None => None
      case Some(e') => Eval(be, e', nodes[1..])
  }

  function Arrays(inits: seq<Initializer>): Env {
    if inits == [] then map[] else
      Arrays(inits[..|inits| - 1])[inits[|inits| - 1].name := inits[|inits| - 1].value]
  }

  // ---------------------------------------------------------------- facts about evaluation

  lemma {:induction false} EvalAppend(be: Backend, e: Env, ns: seq<Node>, ms: seq<Node>)
    ensures Eval(be, e, ns + ms) ==
            match Eval(be, e, ns) { case None => None case Some(e') => Eval(be, e', ms) }
    decreases |ns|
  {
    if ns == [] {
      assert ns + ms == ms;
    } else {
      assert (ns + ms)[0] == ns[0] && (ns + ms)[1..] == ns[1..] + ms;
      var s := Step(be, e, ns[0]);
      if s.Some? { EvalAppend(be, s.value, ns[1..], ms); }
    }
  }

  lemma EvalOne(be: Backend, e: Env, n: Node)
    ensures Eval(be, e, [n]) == Step(be, e, n)
  {
    assert [n][1..] == [];
  }

  lemma EvalCons(be: Backend, e: Env, n: Node, rest: seq<Node>, e': Env)
    requires Step(be, e, n) == Some(e')
    ensures Eval(be, e, [n] + rest) == Eval(be, e', rest)
  {
    assert ([n] + rest)[1..] == rest;
  }

  /** Evaluating a prefix one node further is one step. */
  lemma EvalPrefix(be: Backend, e: Env, nodes: seq<Node>, k: nat)
    requires k < |nodes|
    ensures Eval(be, e, nodes[..k + 1]) ==
            match Eval(be, e, nodes[..k]) { case None => None case Some(e') => Step(be, e', nodes[k]) }
  {
    assert nodes[..k + 1] == nodes[..k] + [nodes[k]];
    EvalAppend(be, e, nodes[..k], [nodes[k]]);
    var p := Eval(be, e, nodes[..k]);
    if p.Some? { EvalOne(be, p.value, nodes[k]); }
  }

  lemma {:induction false} EvalPrefixes(be: Backend, e: Env, nodes: seq<Node>, k: nat)
    requires Eval(be, e, nodes).Some? && k <= |nodes|
    ensures Eval(be, e, nodes[..k]).Some?
  {
    assert nodes == nodes[..k] + nodes[k..];
    EvalAppend(be, e, nodes[..k], nodes[k..]);
  }

  lemma {:induction false} BindKeys(e: Env, names: seq<string>, values: seq<Tensor>)
    requires |names| == |values|
    ensures Bind(e, names, values).Keys == e.Keys + Names(names)
    ensures forall x | x in e && x !in Names(names) :: Bind(e, names, values)[x] == e[x]
    decreases |names|
  {
    if names != [] {
      BindKeys(if names[0] == "" then e else e[names[0] := values[0]], names[1..], values[1..]);
      assert names == [names[0]] + names[1..];
    }
  }

  /** Two environments that receive the same values under the same names stay related on those names. */
  lemma {:induction false} BindSame(e: Env, e2: Env, names: seq<string>, values: seq<Tensor>)
    requires |names| == |values|
    ensures forall x | x in Names(names) :: x in Bind(e, names, values) && x in Bind(e2, names, values) &&
                                     Bind(e, names, values)[x] == Bind(e2, names, values)[x]
    decreases |names|
  {
    if names != [] {
      var d := if names[0] == "" then e else e[names[0] := values[0]];
      var d2 := if names[0] == "" then e2 else e2[names[0] := values[0]];
      BindSame(d, d2, names[1..], values[1..]);
      BindKeys(d, names[1..], values[1..]);
      BindKeys(d2, names[1..], values[1..]);
    }
  }

  lemma BindOne(e: Env, name: string, value: Tensor)
    requires name != ""
    ensures Bind(e, [name], [value]) == e[name := value]
  {
    assert [name][1..] == [] && [value][1..] == [];
  }

  /** A node reads only what its inputs name. */
  lemma StepFrame(be: Backend, e: Env, e2: Env, n: Node, keep: set<string>)
    requires forall i | 0 <= i < |n.inputs| :: n.inputs[i] in keep
    requires forall x | x in keep && x in e :: x in e2 && e2[x] == e[x]
    requires Step(be, e, n).Some?
    ensures Step(be, e2, n).Some?
    ensures var r, r2 := Step(be, e, n).value, Step(be, e2, n).value;
      forall x | x in keep && x in r :: x in r2 && r2[x] == r[x]
  {
    assert Operands(e, n.inputs) == Operands(e2, n.inputs);
    var values := Run(be, n.op, Operands(e, n.inputs)).value;
    BindKeys(e, n.outputs, values);
    BindKeys(e2, n.outputs, values);
    BindSame(e, e2, n.outputs, values);
  }

  lemma {:induction false} EvalFrame(be: Backend, e: Env, e2: Env, nodes: seq<Node>, keep: set<string>)
    requires forall k, i | 0 <= k < |nodes| && 0 <= i < |nodes[k].inputs| :: nodes[k].inputs[i] in keep
    requires forall x | x in keep && x in e :: x in e2 && e2[x] == e[x]
    requires Eval(be, e, nodes).Some?
    ensures Eval(be, e2, nodes).Some?
    ensures var r, r2 := Eval(be, e, nodes).value, Eval(be, e2, nodes).value;
      forall x | x in keep && x in r :: x in r2 && r2[x] == r[x]
    decreases |nodes|
  {
    if nodes != [] {
      assert forall i | 0 <= i < |nodes[0].inputs| :: nodes[0].inputs[i] in keep;
      StepFrame(be, e, e2, nodes[0], keep);
      forall k, i | 0 <= k < |nodes[1..]| && 0 <= i < |nodes[1..][k].inputs| ensures nodes[1..][k].inputs[i] in keep {
        assert nodes[1..][k] == nodes[k + 1];
      }
      EvalFrame(be, Step(be, e, nodes[0]).value, Step(be, e2, nodes[0]).value, nodes[1..], keep);
    }
  }

  // ---------------------------------------------------------------- single assignment

  predicate Produces(n: Node, x: string) { x != "" && x in n.outputs }

  predicate Reads(n: Node, x: string) { x in n.inputs }

  /** Every tensor has one producer, and none of the given tensors has one. */
  ghost predicate SingleAssignment(nodes: seq<Node>, given: set<string>) {
    && (forall i, j, x | 0 <= i < |nodes| && 0 <= j < |nodes| && Produces(nodes[i], x) && Produces(nodes[j], x) :: i == j)
    && (forall i, x | 0 <= i < |nodes| && Produces(nodes[i], x) :: x !in given)
  }

  /** The tensors produced by the first `k` nodes. */
  function Outs(nodes: seq<Node>, k: nat): set<string>
    requires k <= |nodes|
  {
    if k == 0 then {} else Outs(nodes, k - 1) + Names(nodes[k - 1].outputs)
  }

  lemma {:induction false} OutsIn(nodes: seq<Node>, k: nat, i: nat, x: string)
    requires i < k <= |nodes| && Produces(nodes[i], x)
    ensures x in Outs(nodes, k)
  {
    if i < k - 1 { OutsIn(nodes, k - 1, i, x); }
  }

  lemma {:induction false} OutsFrom(nodes: seq<Node>, k: nat, x: string) returns (i: nat)
    requires k <= |nodes| && x in Outs(nodes, k)
    ensures i < k && Produces(nodes[i], x)
  {
    if Produces(nodes[k - 1], x) {
      i := k - 1;
    } else {
      i := OutsFrom(nodes, k - 1, x);
    }
  }

  lemma StepDomain(be: Backend, e: Env, n: Node)
    requires Step(be, e, n).Some?
    ensures Step(be, e, n).value.Keys == e.Keys + Names(n.outputs)
    ensures forall x | x in e && x !in Names(n.outputs) :: Step(be, e, n).value[x] == e[x]
  {
    BindKeys(e, n.outputs, Run(be, n.op, Operands(e, n.inputs)).value);
  }

  /** What is defined after a prefix: the given tensors and what the prefix produced. */
  lemma {:induction false} EvalDomain(be: Backend, e: Env, nodes: seq<Node>, k: nat)
    requires k <= |nodes| && Eval(be, e, nodes[..k]).Some?
    ensures Eval(be, e, nodes[..k]).value.Keys == e.Keys + Outs(nodes, k)
  {
    hide Run;
    if k == 0 {
      assert nodes[..0] == [];
    } else {
      EvalPrefix(be, e, nodes, k - 1);
      EvalDomain(be, e, nodes, k - 1);
      StepDomain(be, Eval(be, e, nodes[..k - 1]).value, nodes[k - 1]);
    }
  }

  /** A list of nodes changes only what it produces. */
  lemma {:induction false} EvalWrites(be: Backend, e: Env, nodes: seq<Node>)
    requires Eval(be, e, nodes).Some?
    ensures Eval(be, e, nodes).value.Keys == e.Keys + Outs(nodes, |nodes|)
    ensures forall x | x in e && x !in Outs(nodes, |nodes|) :: Eval(be, e, nodes).value[x] == e[x]
    decreases |nodes|
  {
    if nodes != [] {
      var k := |nodes| - 1;
      EvalPrefix(be, e, nodes, k);
      assert nodes[..k + 1] == nodes;
      EvalWrites(be, e, nodes[..k]);
      OutsPrefix(nodes, k);
      StepDomain(be, Eval(be, e, nodes[..k]).value, nodes[k]);
    }
  }

  lemma {:induction false} OutsPrefix(nodes: seq<Node>, k: nat)
    requires k <= |nodes|
    ensures Outs(nodes[..k], k) == Outs(nodes, k)
    decreases k
  {
    if k > 0 {
      OutsPrefix(nodes, k - 1);
      OutsPrefix(nodes[..k], k - 1);
      assert nodes[..k][..k - 1] == nodes[..k - 1];
    }
  }

  lemma {:induction false} OutsAppend(ns: seq<Node>, ms: seq<Node>)
    ensures Outs(ns + ms, |ns| + |ms|) == Outs(ns, |ns|) + Outs(ms, |ms|)
    decreases |ms|
  {
    if ms == [] {
      assert ns + ms == ns;
    } else {
      var k := |ms| - 1;
      assert (ns + ms)[..|ns| + k] == ns + ms[..k];
      OutsPrefix(ns + ms, |ns| + k);
      OutsPrefix(ms, k);
      OutsAppend(ns, ms[..k]);
    }
  }

  lemma {:induction false} OutsMonotone(nodes: seq<Node>, k: nat, m: nat)
    requires k <= m <= |nodes|
    ensures Outs(nodes, k) <= Outs(nodes, m)
    decreases m - k
  {
    if k < m { OutsMonotone(nodes, k, m - 1); }
  }

  /** A list that evaluates finds every tensor it reads: given, or produced by the list. */
  lemma {:induction false} EvalNeeds(be: Backend, e: Env, nodes: seq<Node>, k: nat, x: string)
    requires k < |nodes| && Eval(be, e, nodes).Some? && Reads(nodes[k], x) && x != ""
    ensures x in e || x in Outs(nodes, |nodes|)
  {
    EvalPrefixes(be, e, nodes, k);
    EvalPrefixes(be, e, nodes, k + 1);
    EvalPrefix(be, e, nodes, k);
    EvalDomain(be, e, nodes, k);
    OutsMonotone(nodes, k, |nodes|);
  }
}
