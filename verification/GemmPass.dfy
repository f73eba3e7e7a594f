/** The in-place side of the Gemm pass. */
module GemmPass {
  import opened Wrappers
  import opened Tensors
  import opened OnnxGraph
  import opened GemmLowering
  import opened GemmComplete
  import A = AffineTensors

  class GemmGraph {
    var nodes: seq<Node>
    var initializers: seq<Initializer>

    constructor (nodes: seq<Node>, initializers: seq<Initializer>)
      ensures this.nodes == nodes && this.initializers == initializers
    {
      this.nodes, this.initializers := nodes, initializers;
    }

    method LowerEligibleGemm() returns (lowered: nat, skipped: seq<string>)
      requires GemmsHaveOutput(nodes)
      modifies this
      ensures var p := LowerGemms(old(nodes), |old(nodes)|, Arrays(old(initializers)));
        nodes == p.nodes && initializers == old(initializers) + p.inits && lowered == p.lowered && skipped == p.skipped
      ensures Lifted(Arrays(old(initializers)), old(nodes), nodes, initializers)
      ensures lowered == Linears(Arrays(old(initializers)), old(nodes))
    {
      var arrays := Arrays(initializers);
      var usedNames := arrays.Keys;
      var replacement: seq<Node> := [];
      ghost var added: seq<Initializer> := [];
      lowered, skipped := 0, [];
      for index := 0 to |nodes|
        invariant nodes == old(nodes) && initializers == old(initializers) + added
        invariant LowerGemms(nodes, index, arrays) == Progress(replacement, added, usedNames, lowered, skipped)
      {
        hide Product, FreshFrom, Supported;
        var node := nodes[index];
        if !node.op.Gemm? {
          replacement := replacement + [node];
        } else if !Supported(arrays, node) {
          skipped := skipped + [SkippedName(node, index)];
          replacement := replacement + [node];
        } else {
          assert |node.inputs| >= 2 && node.inputs[1] in arrays && (node.op.transB == 1 ==> Rank(arrays[node.inputs[1]], 2)) by {
            SupportedMeans(arrays, node);
          }
          var rhs := node.inputs[1];
          if node.op.transB == 1 {
            rhs := FreshName(node.inputs[1] + "__matmul_rhs", usedNames);
            usedNames := usedNames + {rhs};
            var flipped := Initializer(rhs, A.Flip(arrays[node.inputs[1]]));
            added := added + [flipped];
            initializers := initializers + [flipped];
          }
          replacement := replacement + Product(node, index, rhs);
          lowered := lowered + 1;
        }
      }
      assert nodes[..|nodes|] == nodes;
      ProgressLifts(nodes, |nodes|, arrays);
      LiftedBehind(arrays, nodes, replacement, old(initializers), added);
      nodes := replacement;
    }
  }
}
