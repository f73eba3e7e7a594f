/** The in-place side of the lowering: the loops of `_has_layout_invariant_path`, `_convnext_ntc_pairs`,
    `_tdnn_nodes`, `lower_affine_nodes` and `_remove_unused_initializers` over a graph object. */
module ModelGraph {
  import opened Wrappers
  import opened Tensors
  import opened OnnxGraph
  import opened AffineBlocks
  import opened AffineLowering
  import opened AffineRegions
  import opened AffineTheorem
  import opened AffineSearch
  import A = AffineTensors

  method HasLayoutInvariantPathLoop(nodes: seq<Node>, outputs: seq<string>, first: Node, second: Node, scalars: set<string>)
    returns (invariantPath: bool)
    requires |first.outputs| == 1 && |second.inputs| >= 1
    ensures invariantPath == HasLayoutInvariantPath(nodes, outputs, first, second, scalars)
  {
    var layout := {first.outputs[0]};
    for k := 0 to |nodes|
      invariant Scan(nodes, k, first, second, scalars) == Some(layout)
    {
      var n := nodes[k];
      if n.name != first.name && n.name != second.name && Touches(n, layout) {
        if !Passes(n, layout, scalars) {
          StuckScan(nodes, k + 1, |nodes|, first, second, scalars);
          return false;
        }
        layout := layout + Names(n.outputs);
      }
    }
    return second.inputs[0] in layout && forall i | 0 <= i < |outputs| :: outputs[i] !in layout;
  }

  lemma {:induction false} StuckScan(nodes: seq<Node>, k: nat, m: nat, first: Node, second: Node, scalars: set<string>)
    requires k <= m <= |nodes| && |first.outputs| == 1 && Scan(nodes, k, first, second, scalars).None?
    ensures Scan(nodes, m, first, second, scalars).None?
    decreases m - k
  {
    if k < m { StuckScan(nodes, k, m - 1, first, second, scalars); }
  }

  method TapLoop(node: Node, activation: string, win: A.Window, reach: nat, kernel: nat)
    returns (nodes: seq<Node>, inits: seq<Initializer>, outputs: seq<string>)
    ensures nodes == TapNodes(node, activation, kernel) && inits == AllTapInits(node, win, reach, kernel)
    ensures outputs == TapOutputs(node, kernel)
  {
    hide TapNode, TapInits, TapName;
    nodes, inits, outputs := [], [], [];
    for tap := 0 to kernel
      invariant nodes == TapNodes(node, activation, tap) && inits == AllTapInits(node, win, reach, tap)
      invariant outputs == TapOutputs(node, tap)
    {
      inits := inits + TapInits(node, win, reach, tap);
      nodes := nodes + [TapNode(node, activation, tap)];
      outputs := outputs + [TapName(node, tap, "_output")];
    }
  }

  /** A model graph whose node and constant lists the conversion replaces. */
  class Graph {
    var nodes: seq<Node>
    var initializers: seq<Initializer>
    const outputs: seq<string>

    constructor (nodes: seq<Node>, initializers: seq<Initializer>, outputs: seq<string>)
      ensures this.nodes == nodes && this.initializers == initializers && this.outputs == outputs
    {
      this.nodes, this.initializers, this.outputs := nodes, initializers, outputs;
    }

    method RemoveUnusedInitializers()
      modifies this`initializers
      ensures initializers == Kept(old(initializers), Used(nodes, outputs))
    {
      var used := Used(nodes, outputs);
      var kept := [];
      for k := 0 to |initializers|
        invariant kept == Kept(initializers[..k], used) && initializers == old(initializers)
      {
        assert initializers[..k + 1][..k] == initializers[..k];
        if initializers[k].name in used { kept := kept + [initializers[k]]; }
      }
      assert initializers[..|initializers|] == initializers;
      initializers := kept;
    }

    /** Either every node is lowered and the unused constants are dropped, or an error leaves the graph as it was. */
    method LowerAffineNodes(excluded: set<string>, optimize: bool) returns (r: Result<(), LoweringError>)
      requires Standard(nodes)
      modifies this
      ensures var ctx := ContextOf(old(nodes), Arrays(old(initializers)), outputs, excluded, optimize);
        match LowerPrefix(old(nodes), |old(nodes)|, ctx)
        case Err(error) => r == Err(error) && nodes == old(nodes) && initializers == old(initializers)
        case Ok(piece) =>
          r == Ok(()) && nodes == piece.nodes
          && initializers == Kept(old(initializers) + piece.inits, Used(piece.nodes, outputs))
      ensures r.Ok? ==> Converts(old(nodes), old(initializers), outputs, excluded, optimize, nodes, initializers)
      ensures (optimize ==> Checked(old(nodes), Arrays(old(initializers)))) ==>
        (r.Ok? <==> Accepts(old(nodes), Arrays(old(initializers)), outputs, excluded, optimize))
    {
      ghost var source, consts := nodes, initializers;
      ConversionComesTo(source, consts, outputs, excluded, optimize);
      var arrays := Arrays(initializers);
      var ctx := ContextOf(nodes, arrays, outputs, excluded, optimize);
      var rewritten, added := [], [];
      for k := 0 to |nodes|
        invariant nodes == old(nodes) && initializers == old(initializers)
        invariant LowerPrefix(nodes, k, ctx) == Ok(Piece(rewritten, added))
      {
        hide ContextOf, LowerNode, Converts, Accepts, Checked;
        assert OneOutput(nodes[k]);
        match LowerNode(nodes[k], ctx) {
          case Err(error) =>
            ErrorSticks(nodes, k + 1, |nodes|, ctx);
            return Err(error);
          case Ok(piece) =>
            rewritten, added := rewritten + piece.nodes, added + piece.inits;
        }
      }
      nodes := rewritten;
      initializers := initializers + added;
      RemoveUnusedInitializers();
      return Ok(());
    }
  }

  lemma ConversionComesTo(source: seq<Node>, consts: seq<Initializer>, outputs: seq<string>, excluded: set<string>, optimize: bool)
    requires Standard(source)
    ensures var r := LowerPrefix(source, |source|, ContextOf(source, Arrays(consts), outputs, excluded, optimize));
      && (r.Ok? ==> Converts(source, consts, outputs, excluded, optimize, r.value.nodes,
                             Kept(consts + r.value.inits, Used(r.value.nodes, outputs))))
      && ((optimize ==> Checked(source, Arrays(consts))) ==> (r.Ok? <==> Accepts(source, Arrays(consts), outputs, excluded, optimize)))
  {
    hide LowerPrefix, ContextOf, Converts, Accepts, Checked, Arrays, Kept, Used;
    if LowerPrefix(source, |source|, ContextOf(source, Arrays(consts), outputs, excluded, optimize)).Ok? {
      ConversionConverts(source, consts, outputs, excluded, optimize);
    }
    if optimize ==> Checked(source, Arrays(consts)) { AcceptsExactly(source, Arrays(consts), outputs, excluded, optimize); }
  }

  lemma {:induction false} ErrorSticks(nodes: seq<Node>, k: nat, m: nat, ctx: Context)
    requires Standard(nodes) && k <= m <= |nodes| && LowerPrefix(nodes, k, ctx).Err?
    ensures LowerPrefix(nodes, m, ctx) == LowerPrefix(nodes, k, ctx)
    decreases m - k
  {
    if k < m { ErrorSticks(nodes, k, m - 1, ctx); }
  }
}
