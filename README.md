# Nunchaku Qwen compatibility shim, modelled in Dafny

This project models `nunchaku_compat.py`, the runtime shim that makes a Nunchaku Qwen-Image
transformer accept text conditioning of the wrong width, and lets a rank-4 tiling sampler
(TiledDiffusion) accept rank-5 latents. It proves properties of that model.

The shim has five parts, each a module here:

- `Detect`: the structural detectors. `is_nunchaku_qwen_model` and `get_expected_txt_dim` look for
  `diffusion_model.txt_norm.normalized_shape`. The installed hook tests for `txt_norm`, `txt_in`,
  `img_in` and `transformer_blocks`. Model objects are records of optional attributes.
- `Tensors` and `Cache`: the repair projection and its memo table.
  - A tensor is its shape plus its elements grouped into rows along the last axis, with an opaque
    device and dtype.
  - The bias-free `nn.Linear` maps each row by its weight matrix. Weights are integers.
  - `ProjectionCache` is the per-wrapper dict keyed by (actual width, expected width, device,
    dtype). Its ghost construction log proves that each key is built at most once.
- `ApplyModel`: `patched_apply_model`, which repairs the `context` keyword.
- `Forward`: two pieces.
  - `patch_diffusion_model_forward` finds the conditioning tensor among the keywords `context`,
    `encoder_hidden_states` and `text_embeds`, else in `args[1]`. It rewrites that one slot.
  - `patched_module_call` is the hook installed over `nn.Module.__call__`.
- `Tiling`: `patched_tiled_call`, which squeezes axis 2 of `[N, C, 1, H, W]`. It unsqueezes a
  rank-4 result. It mutates the caller's request dict in place.
- `Install`: `apply_nunchaku_patches` with its `_patch_applied` flag.
- `Py`: Python values, argument lists and the errors a wrapper raises itself.

The two width-repair wrappers are classes that own their cache. Each has a `Call` method that
mirrors the Python steps and is proved equal to a step function of (arguments, cache contents).
The installed hook `Forward.PatchedModuleCall` is a free method: it sets a module's marker and
runs a freshly built forward wrapper. The tiling adapter `Tiling.PatchedTiledCall` is a free method
over a `KwargsDict` object, the caller's request dict, which it updates in place. It is proved
equal to the step function `Tiling.TiledStep`. The lemmas state the shim's promises about
that function:

- pass-through cases;
- truncation and zero-padding;
- single-slot rewrite;
- cache stability;
- squeeze/unsqueeze round trips;
- installer idempotence.

The wrapped callables (`original_func`, `original_forward`, `original_tiled_call`) are foreign
code. The apply-model and forward wrappers return the `Invocation` they forward, or the Python
error they raise before forwarding. The tiling adapter takes its delegate as a function of the
request contents.

Points where the code differs from what the module's header comment (nunchaku_compat.py:3-4) and
its names suggest, modelled as the code does them:

- Both branches of `patched_apply_model`'s construction produce `eye(expected, actual)`:
  `Tensors.PaddingWeightsIsEye`.
- The installed forward path never assigns weights when the input is narrower. The weights keep
  the library's random initialisation, which is a parameter `draw` here. It does not zero-pad.
- `patched_module_call` builds a new forward wrapper, and so an empty cache, on every call. The
  cache is therefore not process-wide, and two calls with the same key can use different
  projections: `Forward.FreshCacheRedraws`.
- `apply_nunchaku_patches` installs only the module-call hook and the tiling adapter.
  `patched_apply_model` is defined but never installed by it. It is modelled as a wrapper on
  its own.
- With an empty `normalized_shape`, the detector fires but the resolver returns None.
  `get_expected_txt_dim` swallows the IndexError. The forward wrapper does not: it raises.
- The keyword search stops at the first candidate present, even when it holds None. A None
  `context` therefore masks a tensor under `encoder_hidden_states` or `text_embeds`:
  `Forward.LaterCandidateMasked`.
- A tensor taken from `args[1]` is written back under the name `"args[1]"` when a keyword of that
  literal name exists: `Forward.ForwardPositionalNameClash`.

## Model

| member | source | states |
|---|---|---|
| Detect.IsNunchakuQwenModel | nunchaku_compat.py:14-23 | the detector fires only when `diffusion_model`, its `txt_norm` and that layer's `normalized_shape` all exist; it never raises |
| Detect.IsNunchakuDiffusion | nunchaku_compat.py:172-177 | the hook's test: `txt_norm`, `txt_in`, `img_in` and `transformer_blocks` all exist; its definition is that conjunction, with no contract of its own |
| Detect.HookTestAndDetectorDiffer | nunchaku_compat.py:14-23 | the hook's test and the model-level detector are incomparable: each accepts a module the other rejects |
| Detect.GetExpectedTxtDim | nunchaku_compat.py:26-35 | yields a width exactly when the detector fires and `normalized_shape` is non-empty, and the width is its first entry; otherwise None |
| Detect.ResolverImpliesDetector | nunchaku_compat.py:14-35 | a resolved width implies detection; detection without a width happens only for an empty `normalized_shape` |
| Detect.EmptyShapeDetectedButUnresolved | nunchaku_compat.py:14-35 | there is a model that the detector accepts and the resolver maps to None |
| Tensors.Eye | nunchaku_compat.py:63-64 | `eye(rows, cols)` is rows×cols, one on the diagonal, zero elsewhere |
| Tensors.DotUnitRow | nunchaku_compat.py:72 | a unit weight row selects one input coordinate, or gives 0 when its one lies outside the input |
| Tensors.EyeMatVec | nunchaku_compat.py:62-72 | applying `eye(e, a)` gives e outputs: input coordinate i for i < a, zero beyond |
| Tensors.EyeTruncatesRow | nunchaku_compat.py:62-64 | when the input is wider, a row becomes its first `expected` coordinates |
| Tensors.EyePadsRow | nunchaku_compat.py:65-69 | when the input is narrower, a row is kept and followed by zeros up to `expected` |
| Tensors.EyeOneHot | nunchaku_compat.py:62-69 | a one-hot input at i < actual maps to one-hot at i when i < expected, and to the zero vector otherwise |
| Tensors.PaddingWeights | nunchaku_compat.py:66-69 | zeros of shape expected×actual whose first `actual` rows are overwritten by `eye(actual)`: an expected×actual matrix whose rows past `actual` are zero |
| Tensors.PaddingWeightsIsEye | nunchaku_compat.py:65-69 | zeros with `eye(actual)` written over the first `actual` rows equals `eye(expected, actual)` |
| Tensors.Linear | nunchaku_compat.py:72 | the bias-free layer keeps the rank, the leading dimensions, the number of rows, the device and the dtype, and sets the last dimension to the number of output features |
| Tensors.LinearShape | nunchaku_compat.py:59-60 | the layer keeps every leading dimension, device and dtype, sets the last to the output width, and maps each row by the weights |
| Tensors.LinearTruncates | nunchaku_compat.py:62-64 | over a well-formed tensor, truncation keeps the leading dimensions and the first `expected` coordinates of each row |
| Tensors.LinearPads | nunchaku_compat.py:65-69 | over a well-formed tensor, padding keeps the leading dimensions and each row, zero-extended |
| Cache.Lookup | nunchaku_compat.py:56-72 | a hit returns the stored projection with the table unchanged; a miss stores the built one under the key; no entry is ever removed or changed |
| Cache.LookupStable | nunchaku_compat.py:58-72 | after a key is stored, later lookups return the same projection and leave the table alone, whatever would have been built |
| Cache.NoDuplicatesCount | nunchaku_compat.py:58-70 | a construction log without repeats records each key at most once, and once exactly when present |
| Cache.ProjectionCache.constructor | nunchaku_compat.py:40 | a wrapper's cache starts empty, with nothing built |
| Cache.ProjectionCache.Insert | nunchaku_compat.py:70 | storing a key not yet present adds exactly that entry and logs one construction, keeping the invariant that every stored key was built once and every projection has its key's shape |
| Cache.ProjectionCache.BuiltAtMostOnce | nunchaku_compat.py:58-70 | within one cache no key is ever constructed twice, and stored keys exactly once |
| ApplyModel.RepairWeights | nunchaku_compat.py:59-69 | the projection built on a miss is an expected×actual matrix |
| ApplyModel.ApplyModelStep | nunchaku_compat.py:42-75 | one call never removes or changes a cached entry, keeps every entry shaped to its key, leaves the cache alone when it raises, and forwards the same positional arguments with at most the `context` keyword added |
| ApplyModel.RepairWeightsIsEye | nunchaku_compat.py:62-69 | the projection built on a miss is `eye(expected, actual)` in both branches |
| ApplyModel.ApplyModelPassThrough | nunchaku_compat.py:43-52 | a non-target model, an unresolved width, a missing or None `context`, or a `context` already of the expected width forwards the identical arguments and leaves the cache |
| ApplyModel.ApplyModelRaises | nunchaku_compat.py:50-53 | a `context` that is not a tensor, or a rank-0 one, raises before delegating |
| ApplyModel.ApplyModelRepairs | nunchaku_compat.py:52-75 | on a mismatch only `context` is rewritten, to the truncated or zero-padded tensor of the expected width; the key is cached |
| ApplyModel.ApplyModelKeepsEyeCache | nunchaku_compat.py:58-70 | every projection this wrapper stores is the identity-shaped matrix of its key |
| ApplyModel.ApplyModelCacheTransparent | nunchaku_compat.py:56-72 | with such a cache, what is forwarded does not depend on which keys are cached |
| ApplyModel.ApplyModelRepeatStable | nunchaku_compat.py:56-72 | repeating a call hits the cache: same result, table unchanged |
| ApplyModel.ApplyModelWrapper.Call | nunchaku_compat.py:42-75 | the wrapper forwards and caches as the step function says, keeps its cache invariant, and builds at most one projection per call and none on a hit |
| Forward.FirstPresent | nunchaku_compat.py:100-104 | the index found is the first candidate name present in kwargs; no earlier one is present |
| Forward.Locate | nunchaku_compat.py:96-112 | a found value always has a recorded name; a value from `args[1]` is a rank ≥ 2 tensor with more than one positional argument; a keyword name is a candidate present in kwargs holding that value |
| Forward.LocateConditioning | nunchaku_compat.py:96-112 | the loop with its `break`, then the positional fallback, finds exactly what `Locate` describes |
| Forward.LocatePriority | nunchaku_compat.py:100-104 | the first candidate keyword present with a value wins over later ones and over `args[1]` |
| Forward.LocateFallback | nunchaku_compat.py:100-112 | when no candidate keyword is present, or the first one present holds None, a rank ≥ 2 tensor in `args[1]` is taken, whatever later candidates hold |
| Forward.LaterCandidateMasked | nunchaku_compat.py:100-112 | when the first candidate present holds None and `args[1]` is not a rank ≥ 2 tensor, the call is forwarded unchanged, even if a later candidate holds a tensor of the wrong width |
| Forward.LaterCandidateMaskedExample | nunchaku_compat.py:100-112 | a None `context` next to a too-wide `encoder_hidden_states` is forwarded unrepaired |
| Forward.ForwardWeights | nunchaku_compat.py:125-133 | the projection built on a miss is an expected×actual matrix |
| Forward.InitWeights | nunchaku_compat.py:126-128 | a freshly constructed layer's weights are an expected×actual matrix of drawn values |
| Forward.ForwardStep | nunchaku_compat.py:84-147 | one call never removes or changes a cached entry, keeps every entry shaped to its key, and can raise only IndexError, leaving the cache alone |
| Forward.ForwardPassThrough | nunchaku_compat.py:86-120 | no `txt_norm.normalized_shape`, no rank ≥ 2 conditioning tensor, or matching widths forwards the identical arguments and leaves the cache |
| Forward.HookMatchWithoutShapePassesThrough | nunchaku_compat.py:86-87 | a module the hook accepts whose `txt_norm` has no `normalized_shape` is rejected by the model-level detector, and the forward wrapper on its fresh cache forwards every call to it unchanged |
| Forward.ForwardRaisesOnEmptyShape | nunchaku_compat.py:89 | an empty `normalized_shape` raises IndexError |
| Forward.ForwardRewritesKeyword | nunchaku_compat.py:118-141 | on a mismatch only the found keyword is rewritten, using the cached or newly built projection; a new projection is `eye` when wider and the initial draw otherwise; for a wider input each row keeps its prefix, on a miss or when the cache holds only truncating identities for wider inputs |
| Forward.ForwardKeepsEyeWhenWider | nunchaku_compat.py:125-134 | the wrapper stores only `eye(expected, actual)` for a wider input |
| Forward.ForwardRewritesPositional | nunchaku_compat.py:139-145 | a mismatched `args[1]` is replaced in place; all other arguments and keywords are unchanged |
| Forward.ForwardPositionalNameClash | nunchaku_compat.py:140-145 | if a keyword named `"args[1]"` exists, the tensor repaired with the stored or newly built projection replaces that keyword; every other keyword and all positional arguments stay as they were |
| Forward.ForwardRepeatStable | nunchaku_compat.py:123-137 | within one wrapper a repeated call reuses the cached projection, ignoring a different initial draw |
| Forward.NarrowExampleForwardsDraw | nunchaku_compat.py:125-137 | with an empty cache, a width-1 `context` against width 2 is forwarded as the first column of the freshly drawn weights, never assigned |
| Forward.FreshCacheRedraws | nunchaku_compat.py:185 | with the fresh empty cache of each installed call, the same key and input forward different tensors whenever the initial draws differ |
| Forward.ForwardWrapper.Call | nunchaku_compat.py:84-147 | the wrapper forwards and caches as the step function says, keeps its cache invariant (including the truncating identity for every wider key), and builds at most one projection per call |
| Forward.PatchedModuleCall | nunchaku_compat.py:169-188 | matched modules get the marker set and are forwarded through a forward wrapper with an empty cache; other modules are forwarded unchanged |
| Tiling.Squeeze2 | nunchaku_compat.py:211 | `squeeze(2)` turns `[N, C, 1, H, W]` into `[N, C, H, W]` and keeps the data, device and dtype |
| Tiling.Unsqueeze2 | nunchaku_compat.py:218 | `unsqueeze(2)` turns `[N, C, H, W]` into `[N, C, 1, H, W]` and keeps the data, device and dtype |
| Tiling.TiledStep | nunchaku_compat.py:200-225 | the request dict keeps its keys and every entry except `input`, and is untouched when the adapter raises, which it does only with AttributeError |
| Tiling.ProdUnitAxis | nunchaku_compat.py:211 | a size-one axis does not change the element count |
| Tiling.SqueezeShape | nunchaku_compat.py:207-211 | squeezing `[N, C, 1, H, W]` gives `[N, C, H, W]` with the same data, device and dtype |
| Tiling.UnsqueezeShape | nunchaku_compat.py:216-218 | unsqueezing `[N, C, H, W]` gives `[N, C, 1, H, W]` with the same data |
| Tiling.UnsqueezeSqueeze | nunchaku_compat.py:209-218 | unsqueeze after squeeze restores the rank-5 tensor |
| Tiling.SqueezeUnsqueeze | nunchaku_compat.py:209-218 | squeeze after unsqueeze restores the rank-4 tensor |
| Tiling.TiledPassThrough | nunchaku_compat.py:202-225 | no input, a rank other than 5, or a frame axis other than 1: the delegate gets the request untouched and its result is returned as is |
| Tiling.TiledRaisesOnNonTensor | nunchaku_compat.py:205 | a non-tensor input raises before the delegate runs |
| Tiling.TiledSqueezes | nunchaku_compat.py:209-221 | the delegate gets the squeezed input and the other keys unchanged; a rank-4 result comes back with the frame axis restored; any other result comes back untouched |
| Tiling.TiledRoundTrip | nunchaku_compat.py:209-221 | if the delegate returns its input, the call returns exactly the original rank-5 tensor |
| Tiling.PatchedTiledCall | nunchaku_compat.py:200-225 | the adapter returns, and leaves in the caller's dict, what the step function says |
| Install.ApplyPatches | nunchaku_compat.py:152-238 | `nn.Module.__call__` is wrapped once exactly when the flag goes from down to up; TiledDiffusion is wrapped at most once per call, and only in that same call |
| Install.AppliedIsFinal | nunchaku_compat.py:156-158 | once the flag is set, the installer changes nothing |
| Install.FlagOnlyOnSuccess | nunchaku_compat.py:160-238 | the flag is set exactly when the module hook is installed; an earlier failure leaves the state unchanged; a TiledDiffusion failure only skips that hook |
| Install.ApplyPatchesIdempotent | nunchaku_compat.py:152-238 | two calls in the same environment give the state of one |
| Install.ApplyPatchesKeepsConsistent | nunchaku_compat.py:152-238 | the installer keeps "flag set exactly when `nn.Module.__call__` is wrapped once" |
| Install.WrappedAtMostOnce | nunchaku_compat.py:152-238 | however many times the installer runs, and whichever of the modelled failures occur (the module hook failing, TiledDiffusion being absent, its hook failing), neither call mechanism is wrapped twice |
| Install.Patcher.constructor | nunchaku_compat.py:12 | the process starts with the flag down and nothing wrapped |
| Install.Patcher.ApplyNunchakuPatches | nunchaku_compat.py:152-238 | one installer call updates the flag and the hooks as `ApplyPatches` says, absorbs every failure, and preserves consistency |

## Left out

- All `print` output and the traceback: they are observational only. This includes the warning for a frame axis other than 1.
  The prints are assumed not to raise. If the print at nunchaku_compat.py:230 or :232 raised, the
  outer `except` at :235 would leave `nn.Module.__call__` wrapped with `_patch_applied` still False,
  and the next call would wrap it again. `Install.WrappedAtMostOnce` covers only the failure points
  `InstallEnv` models.
- The monkey-patching mechanics are not modelled: the reassignment of `nn.Module.__call__` and `TiledDiffusion.__call__`, and the `sys.modules` lookup. The installer's state records how often each mechanism is wrapped. The environment supplies which steps raise.
- Floating-point numerics, real devices and dtypes are left out. Weights and elements are integers, and the 0/1 weights make the identity projection exact. Device and dtype are opaque identifiers used only as cache-key components.
- The random default initialisation of `torch.nn.Linear` is an input `draw`, not a distribution.
- Exceptions raised by the wrapped callables are not modelled: the delegates are foreign, and their exceptions propagate unchanged in the code.
- Whatever the TiledDiffusion delegate does to the request dict is left out. The model records the dict's contents as the adapter leaves them.
- Attribute lookups on foreign objects are reduced to present or absent. An exception other than AttributeError raised inside `hasattr` is not modelled.
- The unused module global `_original_apply_model` is not modelled.
- Concurrency is left out: the code assumes one invocation thread.
- `__init__.py` (the scheduler node) is not part of this model, and neither are the diagnostic scripts under `trash/` and `check_vq_scheduler_sigmas.py`.
- Tensors of rank 0 have no rows in this model. The model only needs their shape, to raise IndexError.
- Forward.ForwardRewritesKeyword: for a narrower input the contents of the rewritten tensor are given only through the drawn or cached weights, because the code never assigns those weights.
