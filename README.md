# ComfyUI-FDG frequency-decoupled guidance, modelled in Dafny

ComfyUI-FDG is a ComfyUI node that swaps the sampler's classifier-free guidance
(CFG) for frequency-decoupled guidance. Both model predictions are split into a
Laplacian pyramid. Each pyramid level gets its own guidance scale. Within a
level, the part of the difference `cond - uncond` that lies along `cond` is
re-weighted by a per-level parallel weight. The image is then rebuilt from the
guided levels. This happens only for the first `fdg_steps` sampling steps;
later steps fall back to plain CFG.

The model covers the core of `nodes.py`, one module per concern:

- `Schedule` (`schedule.dfy`) models `create_guidance_scales`. That means linear
  and cosine interpolation over `torch.linspace`, the single-level shortcut, the
  unknown-method error and the negative-level error.
- `Text` (`text.dfy`) models the two Python string builtins the node uses.
  `str.split` splits on one separator character. `str.strip` removes whitespace
  from both ends, using the full `str.isspace` character set.
- `Weights` (`weights.dfy`) models how the `parallel_weights` text is turned
  into a list. It is split on commas, and every piece is stripped and parsed. If
  any piece fails to parse, the list falls back to all ones. The list is then
  padded with ones or truncated to `levels` entries.
- `Planes` (`planes.dfy`) models a tensor as one 2-D real plane. It gives the
  element-wise arithmetic, the inner product and the `[..., :h, :w]` crop.
- `Projection` (`projection.dfy`) models `project`. That is
  `torch.nn.functional.normalize`, with its `eps` of 1e-12, and the split into a
  parallel part and an orthogonal part.
- `Pyramid` (`pyramid.dfy`) models two things:
  - the size each pyramid level is cropped to;
  - `build_image_from_pyramid`, as a downward loop proved equal to a recursive fold.
- `Guidance` (`guidance.dfy`) models `laplacian_guidance`. That is the `zip`
  loop over the levels, the per-level formula and the reconstruction.
- `Node` (`node.dfy`) models two things:
  - `FDGNode.patch`, which builds the configuration the callback captures;
  - the callback `fdg_function`. The model has its decision as the function
    `Gate` and the callback itself as the imperative method `FdgFunction`.
    `math.isclose` and Python's negative indexing are modelled.

Foreign numerics become function parameters, so the proofs hold for every
implementation of them:
- `parse` stands for Python `float()`;
- `cos` stands for `torch.cos`;
- `sqrt` stands for the square root inside `normalize`;
- `TensorLibrary.buildPyramid` stands for kornia's `build_laplacian_pyramid`;
- `TensorLibrary.pyrup` stands for kornia's `pyrup`.

Where a property needs something of these functions, the lemma states it as a
precondition. For example, `sqrt(x) * sqrt(x) == x`, or a cosine that does not
increase on [0, pi].

Three behaviours of the code are easy to miss; the model follows them:
- The step gate indexes `sample_sigmas` with Python semantics. A negative
  `fdg_steps` counts from the end, and an empty schedule raises `IndexError`.
  `Gate` and `FdgFunction` model both of these.
- `levels` is an integer that is not checked. The value 1 answers before the
  method name is looked at. A negative value with a known method makes
  `torch.linspace` raise, which the model calls `NegativeSteps`.
- `laplacian_guidance` zips four sequences, so it guides only as many levels as
  the shortest of them has. An empty guided pyramid makes `pyramid[-1]` raise,
  which the model calls `EmptyGuidedPyramid`.

## Model

| member | source | states |
|---|---|---|
| Schedule.Linspace | nodes.py:89 | `torch.linspace(start, end, steps)` has `steps` points. The first is `start`. With two or more points the last is `end`, and consecutive points differ by exactly `(end - start) / (steps - 1)`. |
| Schedule.CosineSchedule | nodes.py:90-92 | The cosine ease has one scale per level (its values: see the lemmas below). |
| Schedule.CreateGuidanceScales | nodes.py:83-96 | One level gives `[high]` whatever the method is. An unknown method gives the `ValueError` outcome. The call succeeds exactly when `levels == 1`, or when `levels >= 0` and the method is `linear` or `cosine`. On success there are `levels` scales. The linear case runs from `high` to `low` in equal steps. A negative `levels` with a known method gives `NegativeSteps`. The cosine case is exactly `CosineSchedule`. |
| Schedule.LinearNonIncreasing | nodes.py:88-89 | If `high >= low`, the linear schedule never grows from a finer level to a coarser one. |
| Schedule.UnitLinspaceBounds | nodes.py:91 | The cosine phases `t = linspace(0, 1, n)` lie in [0, 1] and grow with the index. |
| Schedule.PhaseBounds | nodes.py:91-92 | The angles `t * pi` lie in [0, pi] and grow with the index. |
| Schedule.CosineEndpoints | nodes.py:90-92 | If cos(0) = 1 and cos(pi) = -1, the cosine schedule starts at `high` and ends at `low`. |
| Schedule.CosinePairOrder | nodes.py:92 | If `high >= low`, two cosine-schedule entries compare the same way as their cosines do. |
| Schedule.CosineNonIncreasing | nodes.py:90-92 | If `high >= low` and cos does not increase on [0, pi], the cosine schedule does not increase. |
| Schedule.SingleLevelExample | test_nodes.py:20-22 | One level gives `[10.0]` whatever method is named, including the default `"linear"`. |
| Schedule.LinearExample | test_nodes.py:7-12 | 10 down to 1 over four levels is exactly `[10, 7, 4, 1]`. |
| Text.Split | nodes.py:147 | `str.split(sep)` gives at least one piece. No piece contains `sep`, and joining the pieces with `sep` gives back the input. |
| Text.TrimStart | nodes.py:147 | Leading whitespace is removed. What is removed is all whitespace, and what is left is a suffix that does not start with whitespace. |
| Text.TrimEnd | nodes.py:147 | Trailing whitespace is removed. What is removed is all whitespace, and what is left is a prefix that does not end with whitespace. |
| Text.Strip | nodes.py:147 | `str.strip()` is no longer than its input, and it neither starts nor ends with whitespace. |
| Text.StripOf | nodes.py:147 | Stripping whitespace + core + whitespace gives back exactly the core. |
| Text.SplitWithoutSeparator | nodes.py:147 | A text without the separator splits into itself alone. |
| Text.SplitAtSeparator | nodes.py:147 | A separator after a piece without one splits that piece off the front. |
| Weights.Ones | nodes.py:150 | `[1.0] * n` has `n` entries, all 1.0. |
| Weights.ParseAll | nodes.py:147 | The comprehension succeeds exactly when every stripped piece parses, and the values are those of the pieces in order. |
| Weights.ParseWeightList | nodes.py:146-150 | If every piece parses, the list is the parsed values, one per comma-separated piece. If any piece fails, it is `levels` ones. |
| Weights.EmptyTextFallsBack | nodes.py:146-150 | An empty text whose single empty piece does not parse falls back to all ones. |
| Weights.ParseTwo | nodes.py:147 | `"a,b"` with two numerals parses to their two values. |
| Weights.NormalizeWeights | nodes.py:153-156 | The result has exactly `levels` entries. Entries below the input's length are kept, and the rest are 1.0. |
| Planes.Crop | nodes.py:61-62 | `p[..., :h, :w]` has `min(h, H)` rows. Each row is the first `min(w, W)` entries of the original row. |
| Planes.CropShape | nodes.py:60-62 | Two planes of the same shape stay the same shape after the same crop. |
| Planes.DotZero | nodes.py:11 | The summed element-wise product is zero when either plane is all zeros. |
| Planes.DotSymmetric | nodes.py:11 | The inner product used by `project` is symmetric. |
| Planes.DotSub | nodes.py:12 | The inner product distributes over subtraction. |
| Planes.DotScale | nodes.py:11 | The inner product is linear in a scaled argument. |
| Projection.Normalize | nodes.py:10 | `v / max(norm, 1e-12)` keeps the shape of `v`. |
| Projection.Project | nodes.py:6-13 | For planes of equal shape, both parts have that shape, and the parallel and orthogonal parts add back to `v0`. |
| Projection.ProjectOrthogonal | nodes.py:10-12 | If the norm of `v1` is exact and at least `eps`, the orthogonal part has inner product zero with `v1`. |
| Projection.NormalizeUnit | nodes.py:10 | If the norm is exact and at least `eps`, the normalised plane has unit norm. |
| Projection.ProjectZeroReference | nodes.py:10-12 | A zero reference gives a zero parallel part, and the orthogonal part is all of `v0`, for any `sqrt`. |
| Pyramid.LevelSize | nodes.py:60 | Level `idx` has the floor sizes `H // 2**idx` and `W // 2**idx`: `2**idx` times the size fits in the image, and `2**idx` times one more does not. |
| Pyramid.LevelSizeHalves | nodes.py:60 | `H // 2**(idx+1)` is `(H // 2**idx) // 2`, and the same holds for the width. |
| Pyramid.LevelSizeNonIncreasing | nodes.py:60 | Level 0 is the original size, and a coarser level is never larger than a finer one. |
| Pyramid.UpsampledSize | nodes.py:60 | Doubling level `idx + 1` gives level `idx`'s size exactly when that size is even. |
| Pyramid.BuildImageFromPyramid | nodes.py:15-20 | An empty pyramid fails exactly as `pyramid[-1]` does. Otherwise the loop equals the fold `Reconstruct`: start from the coarsest level, then upsample and add the next finer level. |
| Pyramid.ReconstructCoarsestPair | nodes.py:17-19 | Merging the two coarsest levels into `pyrup(pyramid[-1]) + pyramid[-2]`, the loop's first step, leaves the reconstruction unchanged. |
| Pyramid.ReconstructSplit | nodes.py:17-19 | Folding every level from `k` on into one and putting it in their place leaves the reconstruction unchanged, for any `k` within the pyramid. |
| Guidance.Reweight | nodes.py:68-71 | `par_weight * diff_parallel + diff_orthogonal` keeps the shape of the difference. |
| Guidance.GuidedLevel | nodes.py:74 | `p_cond + (scale - 1) * diff` keeps the shape of the conditional level. |
| Guidance.CfgCombine | nodes.py:177 | `uncond + (cond - uncond) * scale` keeps the shape of `cond`. |
| Guidance.ReweightUnit | nodes.py:68-71 | A parallel weight of 1.0 leaves the difference unchanged. |
| Guidance.UnitScaleKeepsCond | nodes.py:74 | A level with guidance scale 1.0 is its conditional level, whatever its weight. |
| Guidance.UnitWeightIsCfg | nodes.py:65-74 | With weight 1.0, a guided level is exactly the classifier-free blend `uncond + (cond - uncond) * scale` at the level's scale. |
| Guidance.GuidedPyramid | nodes.py:51-75 | The guided levels number as many as the shortest of the four zipped sequences, and no more than any of them. |
| Guidance.DefaultWeights | nodes.py:42-44 | With no weights given there is one 1.0 per scale. Otherwise the given weights are used. |
| Guidance.GuidedImage | nodes.py:42-80 | The result of `laplacian_guidance` fails exactly when one of the zipped sequences is empty. |
| Guidance.UnitScalesKeepCond | nodes.py:58-75 | With every scale 1.0, each guided level is the cropped conditional level. |
| Guidance.GuideLevels | nodes.py:58-75 | The `enumerate(zip(...))` loop appends guided level `k` at step `k`, and ends with exactly the levels of `GuidedPyramid`. |
| Guidance.LaplacianGuidance | nodes.py:42-80 | It calls `GuideLevels` and `BuildImageFromPyramid`; its result is `GuidedImage`. |
| Guidance.UnitScalesImage | nodes.py:58-78 | With every scale 1.0, the result is the reconstruction of the cropped conditional levels: guidance adds nothing to the image. |
| Node.Patch | nodes.py:140-156 | A schedule error aborts the call. On success it stores the schedule, `fdg_steps` and the high scale, and both lists have `levels` entries. Weight `i` is the parsed value `i` when all pieces parse and `i` is within the list, and 1.0 otherwise. |
| Node.IsClose | nodes.py:161 | `math.isclose` holds for equal values, and close values differ by at most 1e-9 of the larger magnitude. |
| Node.IsCloseSymmetric | nodes.py:161 | `math.isclose(a, b)` and `math.isclose(b, a)` agree. |
| Node.CloseToOneWindow | nodes.py:161 | `math.isclose(x, 1.0)` with the default tolerances holds exactly on [1 - 1e-9, 1 / (1 - 1e-9)]. |
| Node.EffectiveScale | nodes.py:161 | The blend's scale is the high scale inside that window, and the host's scale outside it. |
| Node.PyIndex | nodes.py:169 | Python indexing succeeds exactly for indices in [-n, n). A non-negative index gives that element, and a negative index `i` gives element `n + i`. |
| Node.Gate | nodes.py:158-180 | No `uncond` means passthrough, and an empty sigma schedule means `IndexError`. Full guidance happens exactly when `sigma > sigmas[min(fdg_steps, S - 1)]`, and otherwise the step gets the blend at the effective scale. A negative `fdg_steps` succeeds exactly when it is at least `-S`, and then compares with `sigmas[S + fdg_steps]`, blending at the effective scale when the step is not guided. |
| Node.GateMonotone | nodes.py:169 | A noise level above one that is guided is guided too. |
| Node.DecreasingApart | nodes.py:169 | In a strictly decreasing schedule, an earlier entry is larger than a later one. |
| Node.GateLeadingSteps | nodes.py:164-169 | On a strictly decreasing schedule, the step at `sigmas[j]` gets full guidance exactly when `j < min(fdg_steps, S - 1)`. |
| Node.GateExample | nodes.py:166-178 | On `[10, 8, 6, 4, 2, 0]` with two guided steps, sigma 9 is guided and sigma 3 is blended. |
| Node.FdgFunction | nodes.py:158-180 | The callback returns `cond` unchanged on passthrough, and the blend on a plain-CFG step. On a guided step it returns `laplacian_guidance` of the captured schedule and weights. Errors are propagated for an out-of-range sigma index and for an empty guided pyramid. |

## Left out

- Floating point: every value is a real number. The model leaves out float32
  rounding in `torch.linspace`, `.tolist()`, the float64 round trip inside
  `project`, and `.to(dtype)`.
- Tensor layout: a tensor is one 2-D plane. `project` sums over the last three
  axes for each batch item; the model has one plane and so one sum. Batch and
  channel axes are not modelled.
- Element-wise operations on planes of different shapes take the common extent.
  torch would broadcast or raise instead. The lemmas that matter require equal
  shapes.
- The internals of kornia's `build_laplacian_pyramid` and `pyrup` are not part of
  this model. They are parameters. The model does not claim that the pyramid
  reconstructs the original image.
- Pyramid.BuildImageFromPyramid: does not model the shape error of
  `pyrup(img) + pyramid[i]`. kornia's `pyrup` doubles the size, so when a cropped
  level `H // 2**i` with `i < levels - 1` is odd, the sum raises in torch. An
  example is a 125 x 125 latent with `levels = 2`. The model instead adds over
  the common extent. `UpsampledSize` states exactly when the sizes agree.
- Default arguments are not modelled as such; the model's operations take every
  argument. nodes.py passes every argument. test_nodes.py:21 leaves out `method`.
  Because the `levels == 1` check answers before dispatch, `CreateGuidanceScales`
  gives `[high]` whatever string stands in for it (`SingleLevelExample`). The
  other defaults are `interpolation_method` and `parallel_weights` in `patch`
  (nodes.py:140) and `guidance_scale=[1.0, 1.0]` of `laplacian_guidance`
  (nodes.py:25). The `parallel_weights=None` default is modelled, as
  `DefaultWeights`.
- Python `float()` is the parameter `parse`; its grammar is not modelled.
  `torch.cos` and the square root of `normalize` are parameters too.
- Schedule.CosineSchedule: its own contract states only the length. Its values
  are stated by `CosineEndpoints` and `CosineNonIncreasing` under assumptions
  about `cos`. This is because `cos` is not interpreted.
- The following are host integration with no logic to prove and are not modelled:
  - `FDGNode.INPUT_TYPES`, `RETURN_TYPES`, `FUNCTION` and `CATEGORY`;
  - the UI bounds on the inputs;
  - `model.clone()` and `set_model_sampler_cfg_function`;
  - the dictionary lookups on `args`;
  - `.item()`.
- The warning printed when the weights do not parse is console output and is
  not modelled.
- The bare `except:` in `patch` also catches exceptions other than a failed
  `float()`, such as a keyboard interrupt. Only parse failure is modelled.
