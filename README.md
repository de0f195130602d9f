# MultiWayBlock in Dafny

A model of `MultiWayBlock`, the multi-path self-attention block of
`lib/multiwayblock.py`. It also models the head-split check that
`MultiHeadSelfAttention` makes on each path's width.

The block takes a token sequence of N tokens with D channels. It views them as
a (D, H, H) feature map and runs `num_path` transformer paths over it. Each
path works at its own resolution: `PixelUnshuffle` trades space for channels,
and `PixelShuffle` trades channels for space. The block then fuses the path
outputs, either by concatenating them along the channels and projecting the
result back to D channels (`self.norm`, `self.fc`) or by summing them.
The model covers:

- **The constructor** (`MultiWay.NewMultiWayBlock`, `MultiWay.MultiWayBlock.constructor`).
  It checks `direction` and `num_path`, derives `median` and `total_dim`, and
  calls `make_path`.
- **`make_path`** (`MultiWay.MultiWayBlock.MakePath`). It writes each path's
  width into the shared `config.hidden_size`, builds the path from the config,
  and finally writes `dim` back. The caller's `block` factory is a parameter.
- **The width table** (`PathPlan.PathWidth`) and **the resample of each path**
  (`PathPlan.PathResample`), both read through one descriptor table
  (`PathPlan.Descriptor`).
- **PixelShuffle, PixelUnshuffle and the token/map transpose**, as index maps
  over flat row-major sequences (`Reshape`).
- **`_forward_each_paths`** (`MultiWay.MultiWayBlock.ForwardEachPaths`) and
  **`forward`** (`MultiWay.MultiWayBlock.Forward`). Each is proved equal to a
  functional specification in `ForwardSpec`, and the properties are proved
  about that specification.

Tensors are one sample of the batch, stored as flat `seq<int>` in row-major
order. A path block is a value `PathBlock(width, run)`. `width` is the
`hidden_size` it was built for; its layer norm rejects any other channel
count. `run` is what the block computes on a (tokens, width) sequence, and
it returns the output tokens and an attention map.

Three facts about the code shape the model:

- **The paths are chained.** `_forward_each_paths` reassigns `x` inside its
  loop (lines 182-187), so path i+1 runs on path i's output, and only path 1
  runs on the block's input (`ForwardSpec.RunPathsStepAt`,
  `ForwardSpec.RunPathsInputAt`).
- **The offsets of direction 0 count from each end.** Path i below the median
  uses offset i, and path i above it uses offset i - median (lines 136-141 and
  160-166).
- **No width is checked for being positive.** `int(dim / f**e)` can truncate
  to 0 (lines 140 and 147), and make_path passes it on to the factory.

## Model

| member | source | states |
|---|---|---|
| PathPlan.CheckConfig | lib/multiwayblock.py:115-117 | Construction fails with InvalidDirection exactly when direction is not 0, 1 or 2. It fails with EvenPathsForDirectionZero exactly when direction is 0 and num_path is even. It passes exactly when neither holds. |
| PathPlan.Median | lib/multiwayblock.py:121 | For an odd num_path, the median has as many paths before it as after it. For an even num_path it is half the count. For num_path >= 1 it is a valid path index. |
| PathPlan.Descriptor | lib/multiwayblock.py:136-147 | A path keeps the resolution exactly when it is the median (direction 0) or path 1 (directions 1 and 2). Every other path has an offset of at least 1. |
| PathPlan.ShrinkWidth | lib/multiwayblock.py:140 | `int(dim / f**(2k))` raises a division by zero exactly when f == 0. Otherwise it is the floor quotient, with width * f^(2k) <= dim < (width + 1) * f^(2k). |
| PathPlan.PathWidth | lib/multiwayblock.py:136-147 | make_path's width for path i raises a division by zero exactly when the path shrinks and f == 0. The path that keeps the resolution gets dim. The other widths are stated by WidthFollowsDescriptor, ExpandingWidthsGrow and ShrinkingWidthsFall. |
| PathPlan.PathResample | lib/multiwayblock.py:160-180 | _forward_each_paths clears `flag` exactly for the path that keeps the resolution. It unshuffles first exactly on expanding paths, and it always resamples by f times the offset. |
| PathPlan.WidthFollowsDescriptor | lib/multiwayblock.py:136-147 | make_path's branch ladder gives each path the width the descriptor table calls for. |
| PathPlan.ResampleFollowsDescriptor | lib/multiwayblock.py:160-180 | _forward_each_paths's branch ladder gives each path the resample the same descriptor table calls for. |
| PathPlan.ResampleInShape | lib/multiwayblock.py:182 | shuf1 maps (d, h, w) to (d r², h/r, w/r) when it unshuffles and to (d/r², h r, w r) when it shuffles. It raises exactly when r <= 0 or r does not divide the spatial sides (unshuffle) or the channels (shuffle). The identity always applies. |
| PathPlan.SquaredFactorIsPowerIff | lib/multiwayblock.py:138-174 | For f >= 2 and offset k >= 1, the resample's channel factor (f k)² equals the width factor f^(2k) exactly when k == 1 or f == k == 2. |
| PathPlan.SquaredFactorAtMostPower | lib/multiwayblock.py:138-174 | For f >= 2 the resample's channel factor (f k)² never exceeds the width factor f^(2k). |
| PathPlan.WidthMatchesChannelsAtSmallOffsets | lib/multiwayblock.py:136-182 | When the offset is 1 (or 2 with f == 2) and shuf1 applies, path i is fed exactly the channel count make_path built it for. |
| PathPlan.WidthMismatchBeyondSmallOffsets | lib/multiwayblock.py:136-182 | For f >= 2, dim > 0 and any other offset, path i is fed a channel count that differs from its built width. This is the code as written. |
| PathPlan.IntendedWidthMatchesChannels | lib/multiwayblock.py:136-182 | With the resample factor f^k, every path whose resample applies is fed exactly its built width, whatever the offset. This is the corrected resample. |
| PathPlan.CentrePathIsUnique | lib/multiwayblock.py:136-168 | For direction 0, f >= 2 and dim > 0, the median is the only path that skips resampling. It is also the only path whose width is dim. |
| PathPlan.ExpandingWidthsGrow | lib/multiwayblock.py:142-144 | For direction 1 with f >= 2 and dim > 0, each path is strictly wider than the one before it. |
| PathPlan.ShrinkingWidthsFall | lib/multiwayblock.py:145-147 | For direction 2 with f >= 2, every width is defined and no path is wider than the one before it. |
| PathPlan.HeadDim | lib/multiwayblock.py:35-37 | The head width is defined only for a non-zero head count, and then head width * num_heads == dim. A zero head count is the division-by-zero error. |
| PathPlan.HeadDimOfMultiple | lib/multiwayblock.py:35-37 | Every multiple q * num_heads of a positive head count passes the check, with head width q. |
| PathPlan.ExpandedPathsSplitIntoHeads | lib/multiwayblock.py:136-147 | When the base width splits into the heads, so does every path that keeps or expands the width. |
| PathPlan.ShrunkPathCanFailHeadSplit | lib/multiwayblock.py:145-147 | A shrinking path can break the head split: with dim 64 and f 2, path 3 of direction 2 is 4 wide, which 8 heads do not divide. |
| PathPlan.ThreeWayExample | lib/multiwayblock.py:136-168 | For hidden_size 64, three paths, direction 0, f 2 and a 14 x 14 map, the paths are 256 wide at 7 x 7, 64 at 14 x 14 and 16 at 28 x 28. Each is fed its built width. |
| PathPlan.FourPathMismatchExample | lib/multiwayblock.py:142-174 | For direction 1, four paths, hidden_size 64 and f 2, path 4 is built for 4096 channels. On a 12 x 12 map, PixelUnshuffle(6) feeds it 2304. |
| Reshape.Unshuffle | lib/multiwayblock.py:182 | PixelUnshuffle(r) turns a (c, ho r, wo r) map into c r² ho wo elements. Where each value goes is stated by UnshuffleAt, and the round trips below. |
| Reshape.Shuffle | lib/multiwayblock.py:187 | PixelShuffle(r) turns a (c r², ho, wo) map into c (ho r)(wo r) elements. Where each value goes is stated by ShuffleAt, and the round trips below. |
| Reshape.Transpose | lib/multiwayblock.py:184 | The (rows, cols) to (cols, rows) permute, which lines 184, 186, 196, 200 and 206 apply. It keeps the element count. TransposeAt and TransposeTwice state what it does. |
| Reshape.UnshuffleAt | lib/multiwayblock.py:182 | In PixelUnshuffle's output, channel (a r + i) r + j at (h, w) holds input channel a at (h r + i, w r + j). |
| Reshape.ShuffleAt | lib/multiwayblock.py:187 | PixelShuffle places the values the opposite way. |
| Reshape.ShuffleUndoesUnshuffle | lib/multiwayblock.py:182-187 | PixelShuffle(r) after PixelUnshuffle(r) gives back the map. |
| Reshape.UnshuffleUndoesShuffle | lib/multiwayblock.py:182-187 | PixelUnshuffle(r) after PixelShuffle(r) gives back the map. |
| Reshape.TransposeAt | lib/multiwayblock.py:184 | The view-and-permute moves element (i, j) of the (D, H*W) map to (j, i) of the (H*W, D) tokens. |
| Reshape.TransposeTwice | lib/multiwayblock.py:184-186 | Permuting the tokens back restores the map. |
| ForwardSpec.ResampleIn | lib/multiwayblock.py:182 | shuf1 of a path: it produces as many elements as the shape ResampleInShape gives. |
| ForwardSpec.ResampleOut | lib/multiwayblock.py:187 | shuf2 of a path: it gives back a (d, h, w) map. ResampleRoundTrip says it restores shuf1's input. |
| ForwardSpec.ResampleRoundTrip | lib/multiwayblock.py:161-187 | Each path's shuf2 undoes its shuf1 exactly, in shape and in values. |
| ForwardSpec.PathStep | lib/multiwayblock.py:182-187 | A path that succeeds returns a map of its input's size. A path that fails names itself in the error: shuf1 raising, a width its block was not built for, or a block that changed the size. |
| ForwardSpec.PathStepOkIff | lib/multiwayblock.py:182-187 | With a block that keeps the element count, a path succeeds exactly when its resample applies and feeds the block its built width. |
| ForwardSpec.PathStepOfIdentityBlock | lib/multiwayblock.py:182-187 | A path whose block returns its tokens unchanged returns its input map exactly. |
| ForwardSpec.RunPaths | lib/multiwayblock.py:159-190 | The loop yields one output per path, each the size of the input map. An error names one of the paths of the range. |
| ForwardSpec.RunPathsStepAt | lib/multiwayblock.py:182-189 | From the second path on, each path runs on the previous path's output, and its step yields its own feature (the paths are chained). |
| ForwardSpec.RunPathsInputAt | lib/multiwayblock.py:182-189 | Path j + 1 runs on the block's input when j == 0, and on feature j otherwise. Its step yields feature j + 1. |
| ForwardSpec.RunPathsOkIff | lib/multiwayblock.py:159-190 | With blocks that keep the element count, the loop succeeds exactly when every path's resample applies and feeds its block its built width. |
| ForwardSpec.RunPathsOfIdentityBlocks | lib/multiwayblock.py:159-190 | When every block returns its tokens and every resample applies, every feature equals the input map. |
| ForwardSpec.EachPaths | lib/multiwayblock.py:156-191 | _forward_each_paths either fails inside a path or has no path at all (attn_probs unbound). Otherwise it returns one feature per path, each the size of the input map. |
| ForwardSpec.EachPathsOfRun | lib/multiwayblock.py:189-191 | The features are the chain's outputs in path order, and the attention map is the last path's. |
| ForwardSpec.AttnComesFromLastPath | lib/multiwayblock.py:185-191 | The returned attention map and the last feature both come from the last path's block. That block was applied to the previous path's feature, or on the input when there is one path. |
| ForwardSpec.ChainFixesWidth | lib/multiwayblock.py:159-187 | On a built block, the loop succeeds only on maps of dim channels. |
| ForwardSpec.KeepPathExists | lib/multiwayblock.py:136-177 | A built block has a path that keeps the resolution: the median for direction 0, path 1 otherwise. It skips resampling and has width dim. |
| ForwardSpec.ISqrt | lib/multiwayblock.py:195 | H = W is the floor of the square root of N: H² <= N < (H + 1)². |
| ForwardSpec.Concat | lib/multiwayblock.py:199 | torch.cat of the features: every feature fits in it. ConcatAt and ConcatLength state where each feature lies. |
| ForwardSpec.SumOfFeatures | lib/multiwayblock.py:203-205 | The sum of the features has one feature's length. SumOfCopies and MultiWay.SumFeatures state its values. |
| ForwardSpec.ConcatAt | lib/multiwayblock.py:199 | Channel block j of torch.cat(features, dim=1) is feature j. |
| ForwardSpec.ConcatLength | lib/multiwayblock.py:199-200 | The concatenation has num_path times one feature's elements. |
| ForwardSpec.SumOfCopies | lib/multiwayblock.py:203-205 | Summing copies of one map multiplies it by their number. |
| ForwardSpec.Project | lib/multiwayblock.py:201 | `self.fc(self.norm(x))` is a per-token layer. It maps N tokens of total_dim channels to N tokens of dim channels. |
| ForwardSpec.ProjectAt | lib/multiwayblock.py:201 | Channel c of output token t is the layer applied to input token t alone. |
| ForwardSpec.ConcatTokenAt | lib/multiwayblock.py:199-200 | Token t of the concatenation, once viewed and permuted, holds channel c of path j's feature at channel j * dim + c. |
| ForwardSpec.ConcatFusionAt | lib/multiwayblock.py:199-201 | In concat mode, channel c of output token t is the projection of token t of the concatenated features. |
| ForwardSpec.Fuse | lib/multiwayblock.py:198-206 | A successful fusion has N tokens of dim channels, in both modes. The only way it fails is a view that does not fit. |
| ForwardSpec.FuseOfBlockWidth | lib/multiwayblock.py:198-206 | The views of both fusions fit for num_path features of dim * N elements. |
| ForwardSpec.FuseOfCopies | lib/multiwayblock.py:203-206 | Sum fusion of copies of one map gives that map's tokens scaled by the number of copies. |
| ForwardSpec.Forward | lib/multiwayblock.py:193-208 | A successful forward returns N tokens of dim channels, in both fusion modes. |
| ForwardSpec.FuseEachPaths | lib/multiwayblock.py:197-208 | Once the tokens are a (D, H, H) map, forward cannot raise NotSquare any more. When it succeeds, it returns N tokens of dim channels. |
| ForwardSpec.ForwardNeedsSquare | lib/multiwayblock.py:194-196 | For D > 0, forward raises NotSquare exactly when N is not a perfect square. |
| ForwardSpec.ForwardOfSquare | lib/multiwayblock.py:193-208 | On a square N, forward runs the paths on the (D, H, H) map and then fuses their features. |
| ForwardSpec.SumFusionOfIdentityPaths | lib/multiwayblock.py:193-208 | End to end in sum mode with blocks that return their tokens: forward returns every input token multiplied by num_path, in the input's layout. |
| ForwardSpec.BuiltBlockFusionSucceeds | lib/multiwayblock.py:193-208 | On a built block the fusion's view never fails. A forward that succeeds had D == dim and returns N tokens of D channels: the output has the input's shape, in both fusion modes. |
| ForwardSpec.AsWrittenForwardFailsBeyondSmallOffsets | lib/multiwayblock.py:162-185 | As written, with f >= 2, the loop raises wherever a path with an offset other than 1 (or 2 with f == 2) has a resample that applies. |
| ForwardSpec.IntendedPlansRun | lib/multiwayblock.py:159-187 | With the corrected resample and size-keeping blocks, the loop on a built block succeeds whenever every resample applies. |
| MultiWay.BuildStep | lib/multiwayblock.py:136-151 | One pass of make_path's loop succeeds exactly when path i builds. It then appends one path, of the width it writes to hidden_size, and keeps the earlier paths. A failure is a division by zero, which leaves hidden_size alone, or a rejection of path i. |
| MultiWay.BuildUpTo | lib/multiwayblock.py:134-151 | After paths 1..count, a build still running holds count paths. A failed one names a path in 1..count. BuildSucceedsIff, BuiltPaths and BuildFailure state the rest. |
| MultiWay.BuildSucceedsIff | lib/multiwayblock.py:134-151 | make_path builds every path exactly when each path's width is defined and the factory accepts the config with that width. |
| MultiWay.BuiltPaths | lib/multiwayblock.py:134-151 | After a full build there are num_path paths. Path i was built by the factory from the config with hidden_size set to its width from the table. hidden_size holds the last width written. |
| MultiWay.BuildFailure | lib/multiwayblock.py:134-151 | A failed build stops at the first path that does not build. A division by zero leaves hidden_size at the previous width, or untouched at path 1. A rejected block leaves it at that path's width. |
| MultiWay.BuildFailureSticks | lib/multiwayblock.py:134-151 | An exception ends the loop: the later paths change nothing. |
| MultiWay.HeadSplitBuildIff | lib/multiwayblock.py:149-151 | With blocks that split into num_heads heads, make_path succeeds exactly when every width is defined and divisible by the head count. |
| MultiWay.HeadSplitRejectsShrunkPath | lib/multiwayblock.py:145-151 | hidden_size 64, three paths, direction 2, f 2 and 8 heads: path 3 is rejected, and the config is left with hidden_size 4. |
| MultiWay.MultiWayBlock.constructor | lib/multiwayblock.py:119-125 | The fields copied from the config, median (PathPlan.Median) and total_dim; no paths yet. |
| MultiWay.MultiWayBlock.MakePath | lib/multiwayblock.py:133-154 | The paths built and the config's hidden_size are those of the build specification. hidden_size is restored to dim on success and left at the last width written when an exception stops the build. |
| MultiWay.MultiWayBlock.RunPath | lib/multiwayblock.py:160-187 | One pass of the loop body, statement by statement, is the path step of the specification. |
| MultiWay.MultiWayBlock.ForwardEachPaths | lib/multiwayblock.py:156-191 | The loop returns the specification's features and attention map, including every error. |
| MultiWay.SumFeatures | lib/multiwayblock.py:203-205 | The running sum is the element-wise sum of all features. |
| MultiWay.MultiWayBlock.Forward | lib/multiwayblock.py:193-208 | forward on a built block returns the specification's result, including every error and the concat-mode projection. |
| MultiWay.NewMultiWayBlock | lib/multiwayblock.py:111-130 | A bad config gives the check's error, with the config untouched. A failed build gives its error, with hidden_size where the build left it. In concat mode a negative total_dim (a negative num_path) makes the fusion layers fail. Otherwise the result is a fresh, valid block whose fields and paths come from the config and the build, with the config restored and fusion layers only in concat mode. |

## Left out

- The batch axis: every tensor is one sample, and the batch dimension B of lines 183-206 is not modelled.
- What a path block computes (attention, MLP, DropPath and the layer norms of `Block`) is not modelled. It is floating-point numerics. A block is an opaque function, and the model keeps only the fact that its layer norm rejects a channel count other than its built width.
- The weights and arithmetic of `self.norm` and `self.fc` (line 201) are left out, because they are floating-point numerics. The model keeps their shape: a per-token map from total_dim channels to dim channels (`ForwardSpec.Projection`). It is a parameter of `MultiWay.NewMultiWayBlock`, because torch initialises the weights at random.
- ForwardSpec.ISqrt: `int(np.sqrt(N))` is computed in double precision. The model uses the exact integer square root.
  - The two agree for N <= 2^52.
  - Beyond that bound only a non-square N can differ, because a square's root is exact.
  - For a non-square N with D > 0, both reject the view at line 196, so forward's outcome differs only when D == 0.
- PathPlan.ShrinkWidth: `int(dim / f**e)` is a correctly rounded floating-point division. The model uses the exact floor quotient.
  - The two agree for dim < 2^53.
  - A quotient that is not an integer lies at least 1/f^e below the next integer, which is more than half an ulp.
- Values of the features are integers, not floats. The reshapes move values without computing on them, so only the sums of the fusion depend on this.
- `hidden_size` is a natural number. The negative sizes that torch itself would reject are not modelled.
- The `block` factory is code outside this file. It is a parameter that sees the config's current values and either builds a path or raises. Its constant second argument (`False`) and the transformer settings it reads (num_heads, mlp_ratio, dropout rates) are not modelled. The head split of `MultiHeadSelfAttention` is one such factory (`MultiWay.HeadSplitFactory`).
- `add_module(f"path{i}", ...)` is modelled as the order of the `paths` sequence, and `getattr(self, f"path{i}")` as indexing it.
- The rest of the repository (datasets, training scripts, backbones) is not part of this model.

## Findings

| source | as written | input that shows it | evidently intended | confidence | as-written member | corrected member |
|---|---|---|---|---|---|---|
| lib/multiwayblock.py:162-180 | Path i resamples by `pixshuf_factor * k`, where k is its offset. Its channels then change by (f k)². make_path built the path for f^(2k) (lines 138-147). The two agree only for k == 1, or for k == 2 with f == 2. | direction 1, num_path 4, hidden_size 64, pixshuf_factor 2, on a 12 x 12 map: path 4 is built for 4096 channels, and PixelUnshuffle(6) feeds it 2304, so its layer norm raises. | A resample factor of f^k, so that every path is fed the width make_path gave it. | not executed | ForwardSpec.AsWrittenForwardFailsBeyondSmallOffsets | ForwardSpec.IntendedPlansRun |

The main model keeps the factor as written, because it models the code.
`PathPlan.WidthMismatchBeyondSmallOffsets` and
`PathPlan.FourPathMismatchExample` state the discrepancy for a single path.
`PathPlan.IntendedPathResample` and `ForwardSpec.IntendedPlans` are the
corrected resample. `PathPlan.IntendedWidthMatchesChannels` and
`ForwardSpec.IntendedPlansRun` prove that the corrected resample feeds every
path its built width.
