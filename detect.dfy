/** Structural detection of the targeted transformer family and of its expected text width. */
module Detect {
  import opened Py

  /** A normalisation layer; `normalizedShape` is absent when the attribute does not exist. */
  datatype Norm = Norm(normalizedShape: Option<seq<nat>>)

  /** The attributes of a module that the detectors probe with `hasattr`. */
  datatype ModuleAttrs = ModuleAttrs(txtNorm: Option<Norm>, txtIn: bool, imgIn: bool, transformerBlocks: bool)

  /** A model wrapper; `diffusionModel` is absent when the attribute does not exist. */
  datatype ModelHandle = ModelHandle(diffusionModel: Option<ModuleAttrs>)

  /** `txt_norm.normalized_shape` when both attributes exist. */
  function NormalizedShape(dm: ModuleAttrs): (r: Option<seq<nat>>)
    ensures r.Some? <==> dm.txtNorm.Some? && dm.txtNorm.value.normalizedShape.Some?
    ensures r.Some? ==> r.value == dm.txtNorm.value.normalizedShape.value
  {
    match dm.txtNorm
    case None => None
    case Some(norm) => norm.normalizedShape
  }

  /** `is_nunchaku_qwen_model`: the model has `diffusion_model.txt_norm.normalized_shape`.
      Attribute lookups that fail give false; nothing is raised. */
  predicate IsNunchakuQwenModel(model: ModelHandle)
    ensures IsNunchakuQwenModel(model) ==>
              model.diffusionModel.Some? && model.diffusionModel.value.txtNorm.Some? &&
              model.diffusionModel.value.txtNorm.value.normalizedShape.Some?
  {
    model.diffusionModel.Some? && NormalizedShape(model.diffusionModel.value).Some?
  }

  /** `get_expected_txt_dim`: the first entry of `normalized_shape`, or None when the attribute
      chain is missing or the shape is empty (the IndexError is swallowed). */
  function GetExpectedTxtDim(model: ModelHandle): (r: Option<nat>)
    ensures r.Some? <==> IsNunchakuQwenModel(model) && |NormalizedShape(model.diffusionModel.value).value| > 0
    ensures r.Some? ==> r.value == NormalizedShape(model.diffusionModel.value).value[0]
  {
    match model.diffusionModel
    case None => None
    case Some(dm) =>
      match NormalizedShape(dm)
      case None => None
      case Some(shape) => if |shape| > 0 then Some(shape[0]) else None
  }

  /** The conjunction the installed module-call hook tests: `txt_norm`, `txt_in`, `img_in`
      and `transformer_blocks` all exist. */
  predicate IsNunchakuDiffusion(dm: ModuleAttrs)
  {
    dm.txtNorm.Some? && dm.txtIn && dm.imgIn && dm.transformerBlocks
  }

  /** Whenever the resolver yields a width, the detector has fired; the converse fails only
      for an empty `normalized_shape`. */
  lemma ResolverImpliesDetector(model: ModelHandle)
    ensures GetExpectedTxtDim(model).Some? ==> IsNunchakuQwenModel(model)
    ensures IsNunchakuQwenModel(model) && GetExpectedTxtDim(model).None? ==>
              NormalizedShape(model.diffusionModel.value).value == []
  {
  }

  /** The hook's test and the model-level detector are incomparable: the hook accepts a
      module whose `txt_norm` has no `normalized_shape`, which the detector rejects, and the
      detector accepts a module lacking `txt_in`, `img_in` and `transformer_blocks`. */
  lemma HookTestAndDetectorDiffer()
    ensures var dm := ModuleAttrs(Some(Norm(None)), true, true, true);
      IsNunchakuDiffusion(dm) && !IsNunchakuQwenModel(ModelHandle(Some(dm)))
    ensures var dm := ModuleAttrs(Some(Norm(Some([3]))), false, false, false);
      !IsNunchakuDiffusion(dm) && IsNunchakuQwenModel(ModelHandle(Some(dm)))
  {
  }

  /** A concrete model on which the two disagree: the detector fires, the resolver gives None. */
  lemma EmptyShapeDetectedButUnresolved()
    ensures var m := ModelHandle(Some(ModuleAttrs(Some(Norm(Some([]))), false, false, false)));
      IsNunchakuQwenModel(m) && GetExpectedTxtDim(m) == None
  {
  }
}
