# Verified model of Parapper

Parapper is a desktop speech-recognition application together with the scripts that convert and evaluate its models.
This project models the parts of it where a mistake would be silent, and proves what those parts promise.

- **Graph conversion** (`Tensors`, `AffineTensors`, `OnnxGraph`, `Numerals`, `AffineBlocks`, `AffineBlockMeaning`,
  `AffineLowering`, `AffineRegions`, `AffineTheorem`, `ModelGraph`, `AffineLimits`, `AffineComplete`, `AffineSearch`,
  `MatrixProbes`, `SharedWeights`). A small compiler on ONNX graphs: tensors are indexed real functions, a graph is a list
  of nodes in single-assignment form, and evaluation is a fold over the list. The affine lowering replaces Conv and Gemm
  nodes by MatMul and moves whole regions to another layout. Operators have the meaning the ONNX operator specification
  gives Conv, Slice, Pad, Concat, Transpose, MatMul and Gemm.
- **Conformer conversion** (`GraphAgreement`, `PairLowering`, `PairMeaning`, `PairDeleting`, `PairTheorem`, `PairKeeping`,
  `PairSearch`, `PairPasses`, `PairSeparate`, `PairLimits`, `PairComplete`, `PairExample`, `PairGraph`, `Lookups`,
  `GemmLowering`, `GemmTheorem`, `GemmComplete`, `GemmPass`, `GemmLimits`). On the same graphs: the pointwise convolution
  pairs of FastConformer blocks become MatMul, in a variant that deletes two transposes and moves an axis and in one that
  does not, block after block; and constant-weight Gemm nodes become MatMul and Add.
- **Graph cut** (`GraphCut`). A CTC graph is cut in two at its encoder boundary by two backward walks.
- **Dynamic programs** (`Alignment`, `Lattice`, `LatticeSwitches`, `UnigramTokenizer`). Each computes a declared optimum,
  or a declared set.
- **Streaming buffers** (`OverlapAdd`, `OverlapCalls`, `StreamingFrontend`, `InterimStream`, `InterimSegments`). Each
  answers the same however its input is chunked.
- **Session state machines** (`AsrSessions`, `AsrAudio`, `SessionOwnership`, `SessionStatus`, `SessionOutcomes`). One is a
  backend call protocol over all runs, the other the ownership of the recognition session over all interleavings of
  concurrent calls under four locks.
- **Codes and lists** (`RowQuantization`, `ReadingDictionary`, `LogCsv`, `Profiles`). Row-wise 8-bit quantization and
  nibble packing; a sorted text searched by bisection; an invertible printer; a list of profiles under its editing
  operations.

Objects that the program updates in place are classes whose methods are proved against functions of the old state, and the
theorems are about those functions. Foreign calls (Fourier transforms, model sessions, mel filters, Unicode normalisation,
operators that the rewrites pass through) are arbitrary deterministic functions of what they are given.

Where the code does less than it could be taken to promise, the model follows the code, and the theorems named say exactly
when the promise holds, and on which input it fails:

- The pointwise lowering ignores strides and pads (`AffineLimits.PointwiseExactly`).
- A bias that the graph computes is dropped (`AffineLimits.DroppedBiasExactly`, `AffineLimits.DroppedGemmBiasExactly`).
- Gemm nodes that share a weight overwrite each other's constant (`SharedWeights.SharedGemmWeightExactly`,
  `SharedWeights.SharedGemmWeightFails`).
- A graph output produced by a removed transpose disappears (`AffineTheorem.OutputsPreserved`).
- A pair that opens with a depthwise convolution yields a graph that cannot run (`AffineLimits.DepthwisePairBreaks`).
- Lowering a conformer pair does not look at graph outputs (`PairPasses.DeletingOutputsExactly`,
  `PairLimits.DeletingOutputsByShape`, `PairLimits.KeepingOutputsExactly`), nor at who else reads five tensors inside the
  block (`PairLimits.StrayReaderIsTransposed`, `PairExample.StrayReaderFails`).
- The variant that keeps NCT fails unless both convolutions have a bias (`PairLimits.MissingBiasExactly`).
- A Gemm whose transposition flag is neither 0 nor 1 is lowered untransposed (`GemmLimits.OddFlagExactly`), and the names
  made up for its constants are checked against constants alone (`GemmLimits.NodeClashExactly`,
  `GemmLimits.InputClashExactly`, `GemmLimits.ClashGivesWrongValue`).
- The head of a cut graph runs only if it meets the graph inputs through the boundary alone
  (`GraphCut.HeadFinishesEncoder`).
- Legacy sources of two turn sessions share session ids, and so do a legacy source without a segment and a numbered one
  (`AsrSessions.RunObeys`, `AsrSessions.LegacyTurnSessionsCollide`, `AsrSessions.LegacyWithoutSegmentCollides`).
- Deleting a profile fails on a list where all ids are the deleted one (`Profiles.CrashesExactly`).
- The recognition status is set after the locks are released, so it can disagree with what is installed
  (`SessionStatus.LagsExactly`, `SessionStatus.StatusCanLag`).

## Model

| member | source | states |
|---|---|---|
| `AffineTensors.PointwiseIsMatMul` | scripts/supertonic3_onnx/quantize_supertonic3_onnx.py:117-163 | A one-tap convolution is, in the transposed layout, the row-by-column product with the kernel matrix plus the bias, for every signal, kernel and optional bias |
| `AffineTensors.TapShape` | scripts/supertonic3_onnx/quantize_supertonic3_onnx.py:374-404 | Every tap slice of the padded signal has the convolution's output length, whatever the taps, dilation, stride and pads |
| `AffineTensors.TdnnIsConv` | scripts/supertonic3_onnx/quantize_supertonic3_onnx.py:331-455 | Pad, Slice per tap, Concat, Transpose, MatMul, Add and Transpose compute ONNX Conv, for all weights, biases, dilations, strides and pads with the padded length at least the effective kernel |
| `AffineTensors.ScaleRight` | scripts/supertonic3_onnx/quantize_supertonic3_onnx.py:464-481 | Scaling the weight constant by alpha is scaling the product |
| `AffineTensors.DilationUnused` | scripts/supertonic3_onnx/quantize_supertonic3_onnx.py:546-559 | A one-tap convolution does not depend on its dilation, so the pointwise path may ignore it |
| `AffineBlocks.TapNamesDiffer` | scripts/supertonic3_onnx/quantize_supertonic3_onnx.py:377-404 | Names generated for different taps differ, because decimal numerals are injective |
| `AffineBlockMeaning.PointwiseRuns` | scripts/supertonic3_onnx/quantize_supertonic3_onnx.py:117-163 | Evaluating the emitted Transpose/MatMul/Add/Transpose nodes binds the output of the node to the value of the convolution |
| `AffineBlockMeaning.PointwiseNtcRuns` | scripts/supertonic3_onnx/quantize_supertonic3_onnx.py:166-213 | In either mode the emitted nodes read the transposed signal and leave the convolution's value, transposed or not |
| `AffineBlockMeaning.TdnnRuns` | scripts/supertonic3_onnx/quantize_supertonic3_onnx.py:331-455 | Evaluating the emitted node list of any kernel width binds the output to the convolution's value |
| `AffineBlockMeaning.GemmRuns` | scripts/supertonic3_onnx/quantize_supertonic3_onnx.py:458-495 | Evaluating MatMul and Add binds the output to Gemm with its alpha, beta and transB |
| `AffineRegions.PairsAreChecked` | scripts/supertonic3_onnx/quantize_supertonic3_onnx.py:270-328 | Every pair the search returns has a transposing producer read by nobody else and a region closed under element-wise nodes |
| `AffineRegions.ScanOrigin` | scripts/supertonic3_onnx/quantize_supertonic3_onnx.py:238-267 | A tensor of the layout region is the pair's opening output or the output of an element-wise node that reads the region |
| `AffineRegions.NonElementWiseReadsPlain` | scripts/supertonic3_onnx/quantize_supertonic3_onnx.py:249-267 | Nodes outside the regions never read a tensor whose layout changed |
| `AffineTheorem.Simulation` | scripts/supertonic3_onnx/quantize_supertonic3_onnx.py:506-585 | After every prefix of the node list the rewritten list has evaluated to a related state: region tensors transposed, all others equal |
| `AffineTheorem.LoweringSimulates` | scripts/supertonic3_onnx/quantize_supertonic3_onnx.py:506-585 | The rewritten model evaluates whenever the original does; each region tensor holds the transpose of its old value, every other original tensor its old value |
| `AffineTheorem.OutputsPreserved` | scripts/supertonic3_onnx/quantize_supertonic3_onnx.py:506-585 | All graph outputs are unchanged if and only if none is the output of a removed transpose |
| `AffineLimits.ConversionPreservesOutputs` | scripts/supertonic3_onnx/quantize_supertonic3_onnx.py:506-585 | The conversion with the pairs it finds itself: all outputs unchanged without layout optimization, and with it exactly when no output is a removed transpose's |
| `AffineLimits.PointwiseExactly` | scripts/supertonic3_onnx/quantize_supertonic3_onnx.py:546-559 | The pointwise lowering, which ignores strides and pads, is right on all signals the convolution accepts, with or without a bias, if and only if the stride is 1 and there are no pads |
| `AffineLimits.DroppedBiasExactly` | scripts/supertonic3_onnx/quantize_supertonic3_onnx.py:545-549 | A bias of a convolution that is not a constant is dropped; the result is right if and only if that bias is zero |
| `AffineLimits.DroppedGemmBiasExactly` | scripts/supertonic3_onnx/quantize_supertonic3_onnx.py:571-573 | So is a C of a Gemm that is not a constant; the result is right if and only if beta times C, broadcast, is zero everywhere |
| `SharedWeights.SharedGemmWeightExactly` | scripts/supertonic3_onnx/quantize_supertonic3_onnx.py:469-473 | Two Gemm nodes sharing a weight get one constant, the later one's; evaluated after conversion the earlier one has its value for all activations if and only if the two scaled matrices are equal |
| `SharedWeights.SharedGemmWeightFails` | scripts/supertonic3_onnx/quantize_supertonic3_onnx.py:469-473 | With scales 1 and 2 on the one-by-one matrix 1 the first node yields 2 instead of 1 |
| `AffineLimits.DepthwisePairBreaks` | scripts/supertonic3_onnx/quantize_supertonic3_onnx.py:288-327 | When a pair opens with a depthwise convolution, the converted graph evaluates on no input at all |
| `ModelGraph.HasLayoutInvariantPathLoop` | scripts/supertonic3_onnx/quantize_supertonic3_onnx.py:238-267 | The scanning loop decides exactly the region condition used by the theorems |
| `ModelGraph.TapLoop` | scripts/supertonic3_onnx/quantize_supertonic3_onnx.py:377-404 | The loop over taps emits exactly the slices the block theorem evaluates |
| `ModelGraph.Graph.RemoveUnusedInitializers` | scripts/supertonic3_onnx/quantize_supertonic3_onnx.py:498-503 | Keeps, in order, exactly the constants that a node or a graph output names |
| `ModelGraph.Graph.LowerAffineNodes` | scripts/supertonic3_onnx/quantize_supertonic3_onnx.py:506-585 | Nodes and constants are replaced in place; an error, which comes exactly if a node that is not dropped is refused, leaves the graph as it was. After success no layer is left but excluded and depthwise ones, every other layer has its product, every product reads a constant that is there, nodes that are no layers are as they were, unused constants are gone, and with layout optimization every pair has lost its transpose |
| `AffineSearch.ConversionConverts` | scripts/supertonic3_onnx/quantize_supertonic3_onnx.py:506-585 | What a successful conversion leaves, in terms of the old and the new lists alone |
| `AffineSearch.AcceptsExactly` | scripts/supertonic3_onnx/quantize_supertonic3_onnx.py:506-585 | The conversion succeeds if and only if it refuses no node but those it drops |
| `AffineComplete.RefusesExactly` | scripts/supertonic3_onnx/quantize_supertonic3_onnx.py:523-577 | A node is refused exactly if it is excluded and no layer, a convolution without a constant weight, one of several taps that is grouped, not one-dimensional or not fully described, or a Gemm that transposes its activation or has an odd flag |
| `AffineComplete.KeptFilters` | scripts/supertonic3_onnx/quantize_supertonic3_onnx.py:498-503 | Dropping unused constants is filtering: what is in use stays, in order, and nothing else |
| `AffineSearch.PathExactly` | scripts/supertonic3_onnx/quantize_supertonic3_onnx.py:238-267 | The scan accepts a pair if and only if the least set of tensors closed under what is made of them, from the first output on, is element-wise all through with nothing but scalars besides, feeds the second convolution and holds no output |
| `AffineSearch.PairsExactly` | scripts/supertonic3_onnx/quantize_supertonic3_onnx.py:270-328 | The search returns exactly the pairs of one-tap convolutions with such a region whose first one is the one reader of a transpose |
| `AffineSearch.PairIsOptimized` | scripts/supertonic3_onnx/quantize_supertonic3_onnx.py:529-563 | Every such pair loses its transpose; its first product reads the tensor behind it and its second one the region |
| `GraphAgreement.EvalFromAgrees` | scripts/asr_onnx_quantization/quantize_hqq_w4a8.py:448-464 | A list that reads only what is there evaluates to any values every node of it agrees with, in whatever order the rewrite put the nodes |
| `GraphAgreement.AgreesFromEval` | scripts/asr_onnx_quantization/quantize_hqq_w4a8.py:448-464 | In single-assignment form, every node of a graph that evaluated agrees with the final values |
| `PairSearch.EndsFound` | scripts/asr_onnx_quantization/quantize_hqq_w4a8.py:224-283 | A found block opens with the only reader of a transpose and closes with the only reader of its second convolution, a transpose |
| `PairSearch.GluFound` | scripts/asr_onnx_quantization/quantize_hqq_w4a8.py:230-258 | A found block splits the first convolution in two and multiplies one half by the sigmoid of the other |
| `PairSearch.ActivationFound` | scripts/asr_onnx_quantization/quantize_hqq_w4a8.py:260-277 | In front of the second convolution stands a tensor times its own sigmoid, possibly behind a transpose of its own |
| `PairSearch.WeightsFound` | scripts/asr_onnx_quantization/quantize_hqq_w4a8.py:208-216 | The two kernels and the biases are constants, each kernel read by its convolution alone |
| `PairMeaning.SplitAgrees` | scripts/asr_onnx_quantization/quantize_hqq_w4a8.py:389 | Splitting the transposed tensor along the other axis gives the transposed halves, with sizes or without |
| `PairDeleting.PieceAgrees` | scripts/asr_onnx_quantization/quantize_hqq_w4a8.py:389-464 | After the rewrite every node of the list, in the block or not, agrees with the old values, the seven inner tensors transposed |
| `PairTheorem.RebuiltOrdered` | scripts/asr_onnx_quantization/quantize_hqq_w4a8.py:448-464 | The rewritten list stays topologically ordered although nodes move and edges are redirected |
| `PairTheorem.DeletingPreserves` | scripts/asr_onnx_quantization/quantize_hqq_w4a8.py:373-478 | The variant that deletes two transposes: the rewritten graph evaluates, inner tensors hold the transpose of what they held, all others what they held |
| `PairPasses.DeletingOutputsExactly` | scripts/asr_onnx_quantization/quantize_hqq_w4a8.py:373-478 | The pass does not look at graph outputs: they all survive if and only if none is a deleted tensor and every one inside the block equals its own transpose |
| `PairLimits.DeletingOutputsByShape` | scripts/asr_onnx_quantization/quantize_hqq_w4a8.py:373-478 | Unless an output inside the block has as many channels as positions, all outputs survive if and only if none is inside the block or deleted |
| `PairLimits.StrayReaderIsTransposed` | scripts/asr_onnx_quantization/quantize_hqq_w4a8.py:224-283 | The search does not look at who reads five of the inner tensors. A further element-wise reader of one goes unnoticed, and after the rewrite, which runs, its output is the transpose of what it was: kept if and only if it equals its transpose |
| `PairExample.StrayReaderFails` | scripts/asr_onnx_quantization/quantize_hqq_w4a8.py:224-283 | A graph of a block with one channel and two positions and one more reader of the split: lowered, it runs and that reader's output is another |
| `PairKeeping.KeepingOrdered` | scripts/asr_onnx_quantization/quantize_hqq_w4a8.py:348-358 | The variant that keeps NCT stays topologically ordered |
| `PairKeeping.KeepingPreserves` | scripts/asr_onnx_quantization/quantize_hqq_w4a8.py:285-371 | The variant that keeps NCT, with both biases: the rewritten graph evaluates and every tensor that is left holds what it held |
| `PairLimits.KeepingOutputsExactly` | scripts/asr_onnx_quantization/quantize_hqq_w4a8.py:285-371 | The variant that keeps NCT does not look at graph outputs either: they all survive if and only if none is one of the two tensors it removes |
| `PairLimits.MissingBiasExactly` | scripts/asr_onnx_quantization/quantize_hqq_w4a8.py:285-346 | The pass fails for a missing bias if and only if a block in that variant, with kernels it could lower, has a convolution without one |
| `PairSearch.PairPreserves` | scripts/asr_onnx_quantization/quantize_hqq_w4a8.py:203-478 | One turn of the loop, in either variant, keeps every output |
| `PairPasses.StaysSingle` | scripts/asr_onnx_quantization/quantize_hqq_w4a8.py:448-464 | No two nodes of the rewritten list produce the same tensor |
| `PairPasses.TurnStaysProper` | scripts/asr_onnx_quantization/quantize_hqq_w4a8.py:198-478 | A lowered model is again in proper form, so the next pair can be lowered |
| `PairPasses.PassKeepsOutputs` | scripts/asr_onnx_quantization/quantize_hqq_w4a8.py:197-481 | The pass over any number of pairs, on any model each of whose turns is safe: the result evaluates on every input the graph evaluates on and keeps every output |
| `PairSeparate.SearchStays` | scripts/asr_onnx_quantization/quantize_hqq_w4a8.py:203-283 | Lowering a block leaves what the search finds for every separate pair as it was |
| `PairSeparate.TurnStays` | scripts/asr_onnx_quantization/quantize_hqq_w4a8.py:203-371 | And whether that pair is skipped, fails or is lowered |
| `PairSeparate.StartStays` | scripts/asr_onnx_quantization/quantize_hqq_w4a8.py:197-478 | The condition on a model that its blocks are separate and undisturbed survives a turn, for the names that are left |
| `PairSeparate.SafeTurnsFollow` | scripts/asr_onnx_quantization/quantize_hqq_w4a8.py:197-478 | That condition on the model at the start makes every turn safe |
| `PairSeparate.PassFailsExactly` | scripts/asr_onnx_quantization/quantize_hqq_w4a8.py:197-478 | Under it the pass fails if and only if some pair would fail on the model as it is at the start |
| `PairSeparate.ConformerPassKeepsOutputs` | scripts/asr_onnx_quantization/quantize_hqq_w4a8.py:180-486 | The whole pass, on a condition on the initial model alone: it fails only where some pair of that model would, and otherwise the result evaluates on every input the graph evaluates on and keeps every output |
| `PairComplete.BlockIsFound` | scripts/asr_onnx_quantization/quantize_hqq_w4a8.py:203-283 | A block wired as the search wants it is found |
| `PairComplete.TurnComesTo` | scripts/asr_onnx_quantization/quantize_hqq_w4a8.py:285-388 | And its turn fails for a name that is taken, for a kernel of more taps or for a missing bias, and lowers the block otherwise |
| `PairComplete.ReplacedAtEnd` | scripts/asr_onnx_quantization/quantize_hqq_w4a8.py:204 | The partner has the name with the second suffix for the first |
| `PairComplete.EveryBlockIsLowered` | scripts/asr_onnx_quantization/quantize_hqq_w4a8.py:180-486 | On a safe model, told from the old and the new lists alone: when the pass fails, and that otherwise no convolution of a block that can be lowered is left, both matrices are constants and all outputs are kept |
| `PairGraph.RebuildNodes` | scripts/asr_onnx_quantization/quantize_hqq_w4a8.py:448-463 | The loop that rebuilds the list puts each node's replacement in its place |
| `PairGraph.ConformerGraph.LowerBlock` | scripts/asr_onnx_quantization/quantize_hqq_w4a8.py:448-475 | Nodes and constants of the graph after one block, in place |
| `PairGraph.ConformerGraph.LowerPairs` | scripts/asr_onnx_quantization/quantize_hqq_w4a8.py:180-486 | The loop lowers exactly the pairs the pass describes. On every safe model it fails if and only if the turn of some first convolution would fail on the model as it is; otherwise it keeps the outputs, and of every block that can be lowered both convolutions are gone and both matrices are constants |
| `PairGraph.DeletingSavesTwo` | scripts/asr_onnx_quantization/quantize_hqq_w4a8.py:477-478 | The deleting variant removes two transposes from the graph, net of the one it adds |
| `GemmLowering.FreshName` | scripts/asr_onnx_quantization/quantize_hqq_w4a8.py:102-109 | The search for a constant name ends, with the first candidate no constant has |
| `GemmPass.GemmGraph.LowerEligibleGemm` | scripts/asr_onnx_quantization/quantize_hqq_w4a8.py:64-146 | The loop replaces nodes and adds constants as specified and returns the skipped names. No Gemm is left that is a plain product with a constant, each of them has its product and addition, every other node is still there, and the count is theirs |
| `GemmLowering.NoneIsForgotten` | scripts/asr_onnx_quantization/quantize_hqq_w4a8.py:78-146 | Every Gemm is lowered or reported as skipped, and none twice |
| `GemmComplete.ProgressLifts` | scripts/asr_onnx_quantization/quantize_hqq_w4a8.py:78-146 | After every prefix of the list the Gemm nodes left are exactly those that transpose or scale or whose weight is not a constant matrix |
| `GemmComplete.ProgressReports` | scripts/asr_onnx_quantization/quantize_hqq_w4a8.py:78-101 | The report holds the name or the place of every Gemm left, and nothing else |
| `GemmTheorem.ProductRuns` | scripts/asr_onnx_quantization/quantize_hqq_w4a8.py:114-141 | MatMul, and Add if there is a bias, give the output of a supported Gemm, in any environment that holds the new constant |
| `GemmTheorem.LoweringKeepsEveryTensor` | scripts/asr_onnx_quantization/quantize_hqq_w4a8.py:64-146 | The lowered graph evaluates whenever the original does and every tensor of the original keeps its value, if no tensor of the graph and no input has the name of a constant the pass may make up |
| `GemmLimits.OddFlagExactly` | scripts/asr_onnx_quantization/quantize_hqq_w4a8.py:96-112 | A transposition flag other than 0 and 1 is set but not acted on; the product is right for all activations if and only if the weight is symmetric |
| `GemmLimits.NodeClashExactly` | scripts/asr_onnx_quantization/quantize_hqq_w4a8.py:102-112 | Only constants are asked whether a made-up name is taken. When a node produces a tensor of that name, the lowered graph gives the Gemm its value for all activations if and only if that tensor is the transposed weight |
| `GemmLimits.InputClashExactly` | scripts/asr_onnx_quantization/quantize_hqq_w4a8.py:102-112 | The same for a graph input of that name: right for all activations if and only if the input supplied is the transposed weight |
| `GemmLimits.ClashGivesWrongValue` | scripts/asr_onnx_quantization/quantize_hqq_w4a8.py:102-112 | Two nodes and one weight whose lowered graph runs and gives 0 where the original gives 1 |
| `GraphCut.ReverseSlice` | scripts/asr_onnx_quantization/extract_encoder_from_ctc.py:65-108 | The worklist returns the least set of nodes closed under producers up to the stop tensors, and exactly the tensors it reads |
| `GraphCut.EncoderSlice` | scripts/asr_onnx_quantization/extract_encoder_from_ctc.py:223-241 | The second worklist, which marks tensors instead of nodes, returns the backward cone of the two boundary tensors |
| `GraphCut.PartEval` | scripts/asr_onnx_quantization/extract_encoder_from_ctc.py:243-244 | A kept part, with its inputs supplied, recomputes the full graph's values |
| `GraphCut.EncoderReturnsBoundary` | scripts/asr_onnx_quantization/extract_encoder_from_ctc.py:243-271 | The encoder half returns the two boundary tensors of the full graph |
| `GraphCut.HeadFinishesEncoder` | scripts/asr_onnx_quantization/extract_encoder_from_ctc.py:138-192 | The head evaluates if and only if its nodes meet the graph inputs only through the boundary, and then gives the full graph's result |
| `GraphCut.CutIsSound` | scripts/asr_onnx_quantization/extract_encoder_from_ctc.py:138-271 | head(encoder(x)) is the full graph's result for every input, under exactly that condition |
| `Alignment.AlignCharacters` | diagnostics/python/asr_eval_metrics.py:38-112 | Table filling and backtrace return the specified alignment; the backtrace never meets an empty cell |
| `Alignment.BestAligns` | diagnostics/python/asr_eval_metrics.py:95-112 | The result is an alignment of the two sequences and its cost is the distance |
| `Alignment.DistIsLeast` | diagnostics/python/asr_eval_metrics.py:50-93 | No alignment of the two sequences costs less |
| `Alignment.BestIsPreferred` | diagnostics/python/asr_eval_metrics.py:55-93 | Among all alignments of least cost it is the one that, read from the end, prefers correct, then substitution, deletion, insertion |
| `Alignment.DistSymmetric` | scripts/asr_onnx_quantization/compare_asr_transcripts.py:18-33 | The distance is symmetric, which is what lets the two-row form swap its arguments |
| `Alignment.EditDistance` | diagnostics/python/summarize_reazon_hotword_eval.py:22-36 | The rolling two-row form returns the least alignment cost |
| `Alignment.EditDistanceLongerFirst` | scripts/asr_onnx_quantization/compare_asr_transcripts.py:18-33 | The form that swaps its arguments returns it too |
| `Alignment.CountsAddUp` | diagnostics/python/asr_eval_metrics.py:115-121 | Substitutions, deletions and insertions add up to the cost, and with the correct ones to both lengths |
| `Alignment.SummarizeAlignment` | diagnostics/python/asr_eval_metrics.py:115-150 | The run counters return the longest, the leading and the trailing run of deletions |
| `Lattice.StructuralCandidates` | diagnostics/python/summarize_reazon_approximate_lattice.py:86-137 | Enumerates exactly the sequences whose every position-and-last-two-tokens transition some seed takes and whose end state some seed ends in; fails exactly when no assignment of characters to tokens reads all seeds |
| `Lattice.SeedsAreAccepted` | diagnostics/python/summarize_reazon_approximate_lattice.py:99-119 | Every seed is among the candidates |
| `Lattice.AfterIs` | diagnostics/python/summarize_reazon_approximate_lattice.py:99-119 | A state knows how many tokens were read and the last two of them, and no more |
| `Lattice.Collect` | diagnostics/python/summarize_reazon_approximate_lattice.py:99-119 | The filled arcs, states and terminals are those of the seeds |
| `LatticeSwitches.SupportersExist` | diagnostics/python/summarize_reazon_lattice_width_search.py:94-104 | Every position of a candidate has a supporting seed, so the lookups and minima never fail |
| `LatticeSwitches.MinSourceSwitches` | diagnostics/python/summarize_reazon_lattice_width_search.py:105-114 | The dynamic program returns the least number of changes over all assignments of one supporting seed per position |
| `LatticeSwitches.NoSwitchExactlySeeds` | diagnostics/python/summarize_reazon_lattice_width_search.py:105-114 | That number is 0 exactly when the candidate is a seed |
| `OverlapAdd.Engine.PopHop` | crates/parapper-models/src/nc.rs:211-231 | Plays the normalised front hop and shifts both buffers by one hop of zeros |
| `OverlapAdd.Engine.ProcessFrame` | crates/parapper-models/src/nc.rs:112-141 | One frame through window, transforms and model: the whole new state, also when a foreign call fails; `OverlapCalls` says what it means |
| `OverlapAdd.Engine.Process` | crates/parapper-models/src/nc.rs:188-203 | The call drains every complete hop and stops at the first failure |
| `OverlapAdd.PairedInterleaved` | crates/parapper-models/src/nc.rs:143-148 | Splitting the interleaved parts again gives the spectrum back |
| `OverlapAdd.DrainAppend` | crates/parapper-models/src/nc.rs:188-203 | Draining and then appending samples is appending and then draining |
| `OverlapAdd.DrainWhole` | crates/parapper-models/src/nc.rs:193-203 | A successful call plays 256 * floor(n / 256) samples and keeps the rest pending |
| `OverlapAdd.ChunksDoNotMatter` | crates/parapper-models/src/nc.rs:188-203 | However the input is split, the calls succeed exactly when one call would, with the same joined output and the same final state |
| `OverlapAdd.SteadyFrame` | crates/parapper-models/src/nc.rs:112-141 | With a transparent model a frame plays the hop before it, and leaves the overlap of its own second half |
| `OverlapAdd.Reconstructs` | crates/parapper-models/src/nc.rs:112-141 | With a transparent model sample n is input sample n - 256 exactly where the two windows weigh more than the threshold, and silence elsewhere and in the first hop |
| `OverlapAdd.HannIsHeard` | crates/parapper-models/src/nc.rs:244-251 | The Hann window exceeds the threshold at every offset |
| `OverlapAdd.HannDelaysByOneHop` | crates/parapper-models/src/nc.rs:205-208 | The declared output delay is exact, for any chunking |
| `OverlapAdd.InterleavedAt` | crates/parapper-models/src/nc.rs:143-148 | In the model's input the real part of each bin stands before the imaginary one |
| `OverlapCalls.FrameCalls` | crates/parapper-models/src/nc.rs:112-187 | A frame succeeds exactly if the model answers with the right sizes and the inverse transform answers; caches are replaced as far as their sizes are right; what is played is the first half of the new frame over the second half of the last, by weight |
| `OverlapCalls.FeedMakesCalls` | crates/parapper-models/src/nc.rs:112-203 | Over any chunking the feed succeeds exactly if there is a sequence of session calls, the first with caches of zeros, each other with those the call before it returned and with the transform of its own two hops; every sample played is then given by the frames that came back |
| `InterimStream.AudioAndVadRange` | crates/parapper-stt-engine/src/runtime.rs:234-260 | Returns exactly the clipped samples and the verdicts of the chunks that have a sample in the range |
| `InterimStream.SuffixPrefixOverlap` | crates/parapper-stt-engine/src/runtime.rs:216-232 | The downward search returns the overlap |
| `InterimStream.OverlapIsLongest` | crates/parapper-stt-engine/src/runtime.rs:216-232 | The overlap joins bit for bit and no longer one does |
| `InterimStream.EvenRangesTile` | crates/parapper-stt-engine/src/runtime.rs:324-345 | One range per verdict, tiling the audio without gap, lengths differing by at most one with the longer ones first; none when there are more verdicts than samples |
| `InterimStream.ChunksOfKeepAudio` | crates/parapper-stt-engine/src/runtime.rs:263-298 | Cutting into chunks loses no sample, leaves no chunk empty, and keeps every verdict when there are enough samples |
| `InterimStream.DropPrefixDrops` | crates/parapper-stt-engine/src/runtime.rs:300-322 | Dropping n samples drops exactly the first n and leaves no chunk empty |
| `InterimStream.InterimAsrState.StartStreamingSegment` | crates/parapper-stt-engine/src/runtime.rs:69-102 | The new state and the emitted request of a start, continuing or opening |
| `InterimStream.InterimAsrState.ExtendStreamingSegment` | crates/parapper-stt-engine/src/runtime.rs:104-141 | The new state and the emitted request of an extension |
| `InterimStream.InterimAsrState.ClearStreamingIfSegment` | crates/parapper-stt-engine/src/runtime.rs:156-164 | Clears only the segment asked for and returns its display id |
| `InterimStream.InterimAsrState.TakePendingDelta` | crates/parapper-stt-engine/src/runtime.rs:173-200 | Emits what was not emitted before, with everything collected, and nothing when there is nothing new |
| `InterimStream.RunConsistent` | crates/parapper-stt-engine/src/runtime.rs:69-200 | Over every run of calls the log of a segment and its state agree |
| `InterimStream.DeltasAddUp` | crates/parapper-stt-engine/src/runtime.rs:173-200 | Over every run the deltas up to a request join to its source audio (and verdicts), later requests extend earlier ones, the range is as long as the audio, and identity and start never change |
| `InterimStream.ContinuationJoins` | crates/parapper-stt-engine/src/runtime.rs:81-89 | A continuation keeps the old audio as a prefix and has the new audio as a suffix, joined at the longest bit-equal overlap |
| `InterimSegments.ActiveIs` | crates/parapper-stt-engine/src/runtime.rs:69-171 | Over every run of calls: a segment is active exactly if some call brought audio and nothing ended its segment since; it has the id, frame and start of the first such call, the id under which audio came last, and the audio of all of them, joined |
| `AsrSessions.AsrExecutionRuntime.StartStream` | crates/parapper-stt-engine/src/asr.rs:167-190 | State, calls and answer of a start, including the number spent when the model is missing or refuses |
| `AsrSessions.AsrExecutionRuntime.PushStream` | crates/parapper-stt-engine/src/asr.rs:197-218 | State, calls and answer of a push; `AsrAudio` says what they mean |
| `AsrSessions.AsrExecutionRuntime.FinishStream` | crates/parapper-stt-engine/src/asr.rs:225-244 | The stream is forgotten whatever the model answers |
| `AsrSessions.AsrExecutionRuntime.CancelStream` | crates/parapper-stt-engine/src/asr.rs:251-266 | The stream is forgotten and its session cancelled |
| `AsrSessions.AsrExecutionRuntime.ResetStreamingSessionsForSource` | crates/parapper-stt-engine/src/asr.rs:142-160 | Cancels the streams of the source, in whatever order the map lists them |
| `AsrSessions.AsrExecutionRuntime.Execute` | crates/parapper-stt-engine/src/asr.rs:115-131 | Streaming requests open, push and cancel on failure; all others reset their source first, and streaming-only models refuse them; `AsrAudio` says what the models hear |
| `AsrSessions.StepKeeps` | crates/parapper-stt-engine/src/asr.rs:115-309 | Every operation keeps the invariant, and breaks the call protocol exactly when it opens a session under an id in use |
| `AsrSessions.RunObeys` | crates/parapper-stt-engine/src/asr.rs:115-309 | Over every run, whatever the models answer, the calls they receive obey the protocol if and only if no operation opened a session under an id another stream of that model held |
| `AsrSessions.SessionShape` | crates/parapper-stt-engine/src/asr.rs:167-266 | What the protocol means: a use lies between a successful start and the first finish or cancel after it, and two successful starts have a finish or cancel between them |
| `AsrSessions.LiveMeans` | crates/parapper-stt-engine/src/asr.rs:167-266 | A session is live exactly when some successful start was not closed since |
| `AsrSessions.SourceResetIsExact` | crates/parapper-stt-engine/src/asr.rs:142-160 | A source reset sends one cancel for each stream of that source, and leaves every other stream alone |
| `AsrSessions.DropClosesEverything` | crates/parapper-stt-engine/src/asr.rs:342-346 | Dropping the runtime leaves no session open on any model |
| `AsrSessions.NumberedSourcesObey` | crates/parapper-stt-engine/src/asr.rs:268-275 | Without legacy sources, while the counter is not exhausted, active streams have distinct ids and every run obeys the protocol |
| `AsrSessions.OneLegacySourceObeys` | crates/parapper-stt-engine/src/asr.rs:354-359 | So does every run of one legacy source |
| `AsrSessions.MixedSourcesObey` | crates/parapper-stt-engine/src/asr.rs:268-275 | So does every run of numbered sources and one legacy turn session together, if every legacy key has a segment |
| `AsrSessions.LegacyWithoutSegmentCollides` | crates/parapper-stt-engine/src/asr.rs:268-275 | A legacy key without a segment collides with the numbered session its turn is the number of |
| `AsrSessions.LegacyTurnSessionsCollide` | crates/parapper-stt-engine/src/asr.rs:354-359 | Two legacy turn sessions with the same turn and segment share a session id, and the protocol breaks |
| `AsrAudio.HeldIsServed` | crates/parapper-stt-engine/src/asr.rs:167-266 | Over every run that keeps ids apart, the registry holds exactly the sessions that an operation on their key opened and nothing closed since |
| `AsrAudio.SessionHears` | crates/parapper-stt-engine/src/asr.rs:197-218 | From the operation that opens a session to the one that closes it, the joined audio of its pushes is the joined audio of the operations on its key |
| `AsrAudio.ServedSends` | crates/parapper-stt-engine/src/asr.rs:167-309 | Over every run, an operation on a key with an open session sends that session what it brings: its audio, one finish, one cancel |
| `AsrAudio.UnservedSends` | crates/parapper-stt-engine/src/asr.rs:167-309 | On a key without one, pushes, finishes and cancels send nothing, and starts and streaming requests ask for a session first |
| `AsrAudio.OtherRequestsSend` | crates/parapper-stt-engine/src/asr.rs:121-130 | Any other request cancels the sessions of its source and then hands the model its audio, unless the model is for streaming only |
| `AsrAudio.AnswersAreReplies` | crates/parapper-stt-engine/src/asr.rs:115-309 | The answer is the model's reply to the last call made, and an error exactly if none was made or it was refused |
| `SessionOwnership.RecognitionSessionSlot.Insert` | src-tauri/src/state.rs:89-99 | Fills an empty slot, or names the owner and changes nothing |
| `SessionOwnership.RecognitionSessionSlot.Take` | src-tauri/src/state.rs:105-110 | Hands the input back to its owner and to nobody else |
| `SessionOwnership.StepKeeps` | src-tauri/src/state.rs:302-515 | Every step of every task keeps the invariant |
| `SessionOwnership.NeverBoth` | src-tauri/src/state.rs:302-515 | In every interleaving a desktop session and a streaming server are never both installed, no insertion fails after its owner check, and no two tasks hold one lock |
| `SessionOwnership.OnlyOwnerReleases` | src-tauri/src/state.rs:351-465 | Only the owner's stop call empties the slot, nobody replaces a running session, and only a stop call removes the server |
| `SessionOwnership.LocksAreOrdered` | src-tauri/src/state.rs:302-515 | What a task waits for ranks above every lock it holds |
| `SessionOwnership.NoDeadlock` | src-tauri/src/state.rs:302-515 | In every interleaving, while a call is unfinished some call can go on |
| `SessionOwnership.StepsRunOut` | src-tauri/src/state.rs:302-515 | No schedule of the calls made so far goes on forever |
| `SessionStatus.LagsExactly` | src-tauri/src/state.rs:302-515 | In every run without direct status calls, with every call done: the status says Listening while nothing is installed if and only if a stop call emptied the slot between the moment the call that wrote last let go of it and its write, and nothing was put in since |
| `SessionStatus.OneByOneIsTrue` | src-tauri/src/state.rs:302-515 | If no start or stop call is made while another is unfinished, a status of Listening is true whenever every call is done |
| `SessionStatus.StatusCanLag` | src-tauri/src/state.rs:340-348 | A run of just one desktop start and one stop ends with nothing installed and the status Listening |
| `SessionOutcomes.CallOutcome` | src-tauri/src/state.rs:302-515 | What each call comes to in every run, when it is made and finished while every other call is done: both starts, both stops, a network start and end, for every configuration, every failure and every state at rest |
| `SessionOutcomes.CallCompletes` | src-tauri/src/state.rs:302-515 | After every run that is at rest every call can be made and finished so, whatever it meets |
| `SessionOutcomes.ServerIsInstalled` | src-tauri/src/state.rs:466-515 | A start in WebSocket mode whose server starts ends with the server waiting for a client |
| `SessionOutcomes.DesktopIsRefused` | src-tauri/src/state.rs:314-319 | A desktop start after it leaves the slot empty and the server in place |
| `SessionOutcomes.ServerStopDrains` | src-tauri/src/state.rs:351-364 | A stop of the server shows that it drains before it says that it has stopped |
| `StreamingFrontend.Reflect` | diagnostics/nemo-reference/export_onnx_nemotron_reference.py:37-40 | The loop ends for every integer and every positive size and returns the mirror image with period 2 * size |
| `StreamingFrontend.Frontend.Push` | diagnostics/nemo-reference/export_onnx_nemotron_reference.py:60-81 | Features stay a function of the samples so far, and exactly the windows complete since the last call are returned |
| `StreamingFrontend.FrameIsFinal` | diagnostics/nemo-reference/export_onnx_nemotron_reference.py:62-69 | A complete frame reads the same samples whatever arrives later |
| `StreamingFrontend.CompleteMeans` | diagnostics/nemo-reference/export_onnx_nemotron_reference.py:62 | Frame f is complete as soon as 280 + 160 f samples are there |
| `StreamingFrontend.FeatureReads` | diagnostics/nemo-reference/export_onnx_nemotron_reference.py:65-74 | A feature is made of 400 samples from 120 before its place on, each less 0.97 of the one before, mirrored in front of the first |
| `StreamingFrontend.WindowsAre` | diagnostics/nemo-reference/export_onnx_nemotron_reference.py:75-81 | Window i holds the features from i shifts on and is handed on as soon as one more than it needs is there |
| `StreamingFrontend.WindowsContinue` | diagnostics/nemo-reference/export_onnx_nemotron_reference.py:75-80 | Windows handed on stay as they are when features are added, and the rest follow from where those stopped |
| `StreamingFrontend.ChunksDoNotMatter` | diagnostics/nemo-reference/export_onnx_nemotron_reference.py:60-81 | Any split of the samples into pushes hands on exactly the windows of one push |
| `UnigramTokenizer.StaticEmbeddingModel.constructor` | diagnostics/python/static_embedding_numpy.py:33-44 | The trie holds exactly the non-empty pieces past the unknown id |
| `UnigramTokenizer.StaticEmbeddingModel.MatchesAt` | diagnostics/python/static_embedding_numpy.py:88-98 | The walk along the text finds exactly the vocabulary entries that match there |
| `UnigramTokenizer.StaticEmbeddingModel.Tokenize` | diagnostics/python/static_embedding_numpy.py:77-120 | Always succeeds (no position is ever lost) and returns the pieces of a segmentation of the whole text whose score no other segmentation exceeds |
| `UnigramTokenizer.LookupInserted` | diagnostics/python/static_embedding_numpy.py:41-44 | Inserting a piece adds its token at the end of that piece's list and nowhere else |
| `UnigramTokenizer.BestBounds` | diagnostics/python/static_embedding_numpy.py:84-110 | No segmentation up to a position scores more than the table says |
| `UnigramTokenizer.PathSpells` | diagnostics/python/static_embedding_numpy.py:107-120 | The pieces spell the text, and their covered counts add up to its characters other than the space mark |
| `UnigramTokenizer.PieceIs` | diagnostics/python/static_embedding_numpy.py:87-120 | Each piece is a vocabulary entry that spells what its hop covers, or one unknown character where nothing matches, and starts where the piece before it ended |
| `UnigramTokenizer.UnknownCosts` | diagnostics/python/static_embedding_numpy.py:36-36 | Where nothing matches, one unknown character is taken for 10 less than the worst score of the vocabulary |
| `UnigramTokenizer.VisibleCounts` | diagnostics/python/static_embedding_numpy.py:107-109 | The covered count is the number of characters other than the space mark |
| `RowQuantization.RangeOf` | scripts/asr_onnx_quantization/quantize_parakeet_q4.py:176-177 | The least and the greatest weight of a row, with 0 among them |
| `RowQuantization.QuantizeRow` | scripts/asr_onnx_quantization/quantize_parakeet_q4.py:173-190 | Zero weights are restored exactly and all others to within half the scale, in every row |
| `RowQuantization.CodeWithinHalf` | scripts/asr_onnx_quantization/quantize_parakeet_q4.py:186-189 | In units of the scale: the lower clip never acts, the upper one only on a tie at the very top, and then costs exactly the half |
| `RowQuantization.RowError` | scripts/asr_onnx_quantization/quantize_parakeet_q4.py:186-189 | Every entry of a row is restored to within half the scale, ties, clipping and rows below the least normal number included |
| `RowQuantization.CodesReachTheEnds` | scripts/asr_onnx_quantization/quantize_parakeet_q4.py:183-189 | The least weight gets the code 0 and the greatest 255, or 254 where both ends round down, so the scale is no wider than it needs to be |
| `RowQuantization.ZeroIsExact` | scripts/asr_onnx_quantization/quantize_parakeet_q4.py:183-190 | Zero is restored as zero, in every row |
| `RowQuantization.TheTopCanTie` | scripts/asr_onnx_quantization/quantize_parakeet_q4.py:186-189 | A row whose greatest weight ties up to 256 and is clipped |
| `RowQuantization.PackRow` | scripts/asr_onnx_quantization/quantize_parakeet_q4.py:97-102 | Two zero points a byte; the reading side gets them back, for an even and for an odd number of blocks |
| `RowQuantization.PackingIsUnique` | scripts/asr_onnx_quantization/analyze_parakeet_q4_error.py:51-57 | Only one row of bytes is read back as the same zero points |
| `ReadingDictionary.FromText` | src-tauri/src/hotword_reading.rs:101-125 | Loading succeeds exactly when no line is at fault, and otherwise reports the first fault: no tab, an empty or unsorted key, no value, an offset past 32 bits |
| `ReadingDictionary.FaultIs` | src-tauri/src/hotword_reading.rs:101-125 | Which lines are at fault, and how: no tab; an empty key, empty values or a key that does not come after the one before; a start past 32 bits |
| `ReadingDictionary.LessMeans` | src-tauri/src/hotword_reading.rs:101-131 | The order of keys: where two part, the one that ends or has the smaller byte comes first |
| `ReadingDictionary.LineAtStart` | src-tauri/src/hotword_reading.rs:105-119 | The stored offsets recover the lines, with or without a final newline |
| `ReadingDictionary.BisectFinds` | src-tauri/src/hotword_reading.rs:128-131 | Bisection finds a line of the range with the key if there is one |
| `ReadingDictionary.GetIsScan` | src-tauri/src/hotword_reading.rs:127-151 | Looking up is scanning the lines; it returns nothing exactly when no line has the key, and at most one has |
| `ReadingDictionary.PrintedRowsAreFound` | src-tauri/src/hotword_reading.rs:101-151 | Rows that are printed, loaded and looked up come back |
| `ReadingDictionary.SplitJoins` | src-tauri/src/hotword_reading.rs:134-139 | Splitting the values loses nothing |
| `LogCsv.ReadEscaped` | src/lib/recognition-log-csv.ts:35-39 | A reader that follows section 2 of RFC 4180 gets an escaped cell back, whatever it holds |
| `LogCsv.PlainStays` | src/lib/recognition-log-csv.ts:35-39 | A cell is printed as it is exactly if it holds no quote, no comma and no line break |
| `LogCsv.ExportIsInvertible` | src/lib/recognition-log-csv.ts:48-69 | The same reader recovers all cells of every list of rows, of two cells or more each (the export writes four), with or without a final line break |
| `Profiles.NextProfileId` | src/lib/stt-profiles.ts:226-234 | The search for an id ends within as many steps as there are profiles, with the first unused one |
| `Profiles.Pigeonhole` | src/lib/stt-profiles.ts:226-234 | As many profiles as consecutive taken ordinals, because no two ordinals print alike |
| `Profiles.NextAvailableInputChannel` | src/lib/stt-profiles.ts:236-275 | The first free channel of the first candidate that has one; none exactly when every channel of every candidate is taken |
| `Profiles.Add` | src/lib/stt-profiles.ts:356-394 | An enabled copy of the selected profile under a fresh id on a free channel, or nothing when there is none |
| `Profiles.DeleteIs` | src/lib/stt-profiles.ts:396-419 | Place by place what deleting leaves, which profile is selected and when it is switched on |
| `Profiles.DeleteKeepsValid` | src/lib/stt-profiles.ts:396-419 | Deletion is refused exactly for the last profile or an unknown id, does not fail, and leaves a valid list without the id |
| `Profiles.CrashesExactly` | src/lib/stt-profiles.ts:404-405 | Without unique ids, deletion fails exactly when several profiles all have the deleted id |
| `Profiles.SetEnabledKeepsValid` | src/lib/stt-profiles.ts:425-445 | Switching changes one flag, or nothing if that would leave nothing to run |
| `Profiles.RunsStayValid` | src/lib/stt-profiles.ts:356-445 | Over every run of adding, deleting and switching from a valid list, ids and places stay unique and something stays enabled |

## Left out

- Floating point: samples, weights and scores are reals, except that interim audio is compared bit by bit. Rounding is not modelled.
- Widths: sample positions and counters of the interim accumulator are unbounded; the session counter of the executor saturates at 2^64 - 1 as in the code.
- ONNX: the reports the conversions return, value information, the validation of the saved model, external data and file output. Padded lengths beyond 2^63 - 1 do not evaluate.
- ONNX: an automatic padding mode, and any use of an operator outside the forms the rewrites rely on, is a foreign operator.
- GraphCut: the renaming of the head's result to `logprobs`, and the failure when no node is kept.
- Lattice: the rank of a candidate and the joining of its characters, which only format the result.
- LatticeSwitches: supporter sets are written as comprehensions over the seeds where the program looks up dictionaries filled beforehand; the support scores are not modelled.
- UnigramTokenizer: the nested dictionaries of the trie are values that each insertion rebuilds. Unicode normalisation, the embedding matrix and the coherence scores are not modelled.
- UnigramTokenizer.StaticEmbeddingModel.Tokenize: does not say which of several segmentations of the same best score is returned.
- OverlapAdd: model loading. The reuse of the hop buffer between calls has no visible effect.
- StreamingFrontend: the window and the mel matrix are part of the foreign feature function; the recognition loop around the front end.
- InterimStream: the two fields of a request that are always the same, and `interim_request`, which returns its argument or nothing.
- AsrSessions: stream configurations, audio normalisation and padding, error texts, and the registration of engines, which cannot be replaced once registered.
- SessionOwnership: what the calls return, what happens inside starting and stopping an input or a server, the saved configuration itself, and the translation listener, which shares none of these locks.
- PairSeparate.ConformerPassKeepsOutputs: asks of the initial model that nothing else looks into its blocks, that the made-up names are free and that blocks do not look at each other's tensors, because the pass checks none of these; the first is needed, as `PairLimits.StrayReaderIsTransposed` shows.
- PairLowering: a convolution is looked up by its name where the program keeps the object, which is the same for unique names; the counters of the report; the state after a pass that fails.
- GemmTheorem.LoweringKeepsEveryTensor: asks that no tensor of the graph has a made-up name, because the pass compares with constants only, and that transposition flags are 0 or 1 (`GemmLimits` says what happens otherwise).
- The quantizer itself, block-wise 4-bit quantization and the rewriting of Gather nodes.
- RowQuantization: bytes are the integers below 256, shifting and merging by four bits is arithmetic with 16.
- ReadingDictionary: decompression, and the spelling and phoneme rules behind the dictionaries.
- LogCsv: the formatting of times and numbers into cells, and the WAV writer.
- Profiles: the settings a new profile copies are one value; migration from the older configuration, renaming and colours.
- The driver of the recognition engine, threads, transport, devices, downloads and the user interface.
