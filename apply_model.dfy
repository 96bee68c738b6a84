/** `patched_apply_model`: the wrapper around a model's `apply_model` that repairs the width of
    the `context` keyword argument before delegating. */
module ApplyModel {
  import opened Tensors
  import opened Py
  import opened Detect
  import opened Cache

  /** The projection this wrapper builds on a cache miss: `eye(expected, actual)` when the input
      is wider, otherwise zeros with `eye(actual)` written over the first `actual` rows. */
  function RepairWeights(actual: nat, expected: nat): (w: Matrix)
    ensures IsMatrix(w, expected, actual)
  {
    if actual > expected then Eye(expected, actual) else PaddingWeights(expected, actual)
  }

  /** Both branches of the construction give the identity-shaped `eye(expected, actual)`. */
  lemma RepairWeightsIsEye(actual: nat, expected: nat)
    ensures RepairWeights(actual, expected) == Eye(expected, actual)
  {
    if actual <= expected {
      PaddingWeightsIsEye(expected, actual);
    }
  }

  /** One call of the wrapper, given the cache it finds: what it forwards (or raises) and the
      cache it leaves behind. */
  function ApplyModelStep(model: ModelHandle, call: Invocation, entries: Entries): (r: (Outcome, Entries))
    ensures forall k :: k in entries ==> k in r.1 && r.1[k] == entries[k]
    ensures r.0.Raised? ==> r.1 == entries
    ensures WellShaped(entries) ==> WellShaped(r.1)
    ensures r.0.Forwarded? ==> r.0.call.args == call.args && r.0.call.kwargs.Keys <= call.kwargs.Keys + {"context"}
  {
    if !IsNunchakuQwenModel(model) then (Forwarded(call), entries)
    else match GetExpectedTxtDim(model)
      case None => (Forwarded(call), entries)
      case Some(expected) =>
        match KwargGet(call.kwargs, "context")
        case NoneVal => (Forwarded(call), entries)
        case OtherVal(_) => (Raised(AttributeError), entries)
        case TensorVal(t) =>
          if |t.shape| == 0 then (Raised(IndexError), entries)
          else if LastDim(t) == expected then (Forwarded(call), entries)
          else
            var key := CacheKey(LastDim(t), expected, t.device, t.dtype);
            var (w, entries') := Lookup(entries, key, RepairWeights(LastDim(t), expected));
            (Forwarded(Invocation(call.args, call.kwargs["context" := TensorVal(Linear(w, t))])), entries')
  }

  /** Every projection in the table is the identity-shaped matrix of its key. */
  ghost predicate EyeCache(entries: Entries)
  {
    forall k :: k in entries ==> entries[k] == Eye(k.expected, k.actual)
  }

  /** The four pass-through cases forward the very same arguments and leave the cache alone. */
  lemma ApplyModelPassThrough(model: ModelHandle, call: Invocation, entries: Entries)
    requires || !IsNunchakuQwenModel(model)
             || GetExpectedTxtDim(model).None?
             || KwargGet(call.kwargs, "context") == NoneVal
             || (var c := KwargGet(call.kwargs, "context");
                 c.TensorVal? && |c.t.shape| > 0 && LastDim(c.t) == GetExpectedTxtDim(model).value)
    ensures ApplyModelStep(model, call, entries) == (Forwarded(call), entries)
  {
  }

  /** A `context` that is not a tensor, or a rank-0 tensor, makes the wrapper raise. */
  lemma ApplyModelRaises(model: ModelHandle, call: Invocation, entries: Entries)
    requires GetExpectedTxtDim(model).Some?
    requires var c := KwargGet(call.kwargs, "context");
      c.OtherVal? || (c.TensorVal? && c.t.shape == [])
    ensures ApplyModelStep(model, call, entries).0.Raised?
    ensures ApplyModelStep(model, call, entries).1 == entries
  {
  }

  /** On a width mismatch only the `context` slot is rewritten: to the input truncated to its
      first `expected` coordinates, or zero-padded up to `expected`. Positional arguments and
      all other keywords pass through; the key is now cached with the identity-shaped matrix. */
  lemma ApplyModelRepairs(model: ModelHandle, call: Invocation, entries: Entries, t: Tensor)
    requires EyeCache(entries)
    requires GetExpectedTxtDim(model).Some?
    requires "context" in call.kwargs && call.kwargs["context"] == TensorVal(t)
    requires WellFormed(t) && LastDim(t) != GetExpectedTxtDim(model).value
    ensures var e := GetExpectedTxtDim(model).value;
      var (out, entries') := ApplyModelStep(model, call, entries);
      out.Forwarded? && out.call.args == call.args &&
      out.call.kwargs.Keys == call.kwargs.Keys &&
      (forall n :: n in call.kwargs && n != "context" ==> out.call.kwargs[n] == call.kwargs[n]) &&
      out.call.kwargs["context"].TensorVal? &&
      var r := out.call.kwargs["context"].t;
      WellFormed(r) && LeadingDims(r) == LeadingDims(t) && LastDim(r) == e &&
      r.device == t.device && r.dtype == t.dtype && |r.rows| == |t.rows| &&
      (forall k :: 0 <= k < |t.rows| ==>
         r.rows[k] == if LastDim(t) > e then t.rows[k][..e] else t.rows[k] + Zeros(e - LastDim(t))) &&
      CacheKey(LastDim(t), e, t.device, t.dtype) in entries' &&
      EyeCache(entries')
  {
    var e := GetExpectedTxtDim(model).value;
    var a := LastDim(t);
    var key := CacheKey(a, e, t.device, t.dtype);
    RepairWeightsIsEye(a, e);
    assert Lookup(entries, key, RepairWeights(a, e)).0 == Eye(e, a);
    if a > e {
      LinearTruncates(e, t);
    } else {
      LinearPads(e, t);
    }
  }

  /** The wrapper keeps the table made of identity-shaped matrices only. */
  lemma ApplyModelKeepsEyeCache(model: ModelHandle, call: Invocation, entries: Entries)
    requires EyeCache(entries)
    ensures EyeCache(ApplyModelStep(model, call, entries).1)
  {
    match KwargGet(call.kwargs, "context")
    case TensorVal(t) =>
      if |t.shape| > 0 && GetExpectedTxtDim(model).Some? {
        RepairWeightsIsEye(LastDim(t), GetExpectedTxtDim(model).value);
      }
    case _ =>
  }

  /** Construction is deterministic: with such a table, what is forwarded does not depend on
      which keys are already cached. */
  lemma ApplyModelCacheTransparent(model: ModelHandle, call: Invocation, entries: Entries)
    requires EyeCache(entries)
    ensures ApplyModelStep(model, call, entries).0 == ApplyModelStep(model, call, map[]).0
  {
    match KwargGet(call.kwargs, "context")
    case TensorVal(t) =>
      if |t.shape| > 0 && GetExpectedTxtDim(model).Some? {
        RepairWeightsIsEye(LastDim(t), GetExpectedTxtDim(model).value);
      }
    case _ =>
  }

  /** Repeating a call hits the cache: the same result, and the table does not change again. */
  lemma ApplyModelRepeatStable(model: ModelHandle, call: Invocation, entries: Entries)
    ensures var (out, entries') := ApplyModelStep(model, call, entries);
      ApplyModelStep(model, call, entries') == (out, entries')
  {
    match KwargGet(call.kwargs, "context")
    case TensorVal(t) =>
      if |t.shape| > 0 && GetExpectedTxtDim(model).Some? {
        var e := GetExpectedTxtDim(model).value;
        LookupStable(entries, CacheKey(LastDim(t), e, t.device, t.dtype), RepairWeights(LastDim(t), e),
                     RepairWeights(LastDim(t), e));
      }
    case _ =>
  }

  /** The closure returned by `patched_apply_model`, with its own `projection_cache`. */
  class ApplyModelWrapper {
    const cache: ProjectionCache

    ghost predicate Valid()
      reads this, cache
    {
      cache.Valid() && EyeCache(cache.entries)
    }

    constructor ()
      ensures Valid() && fresh(cache) && cache.entries == map[]
    {
      cache := new ProjectionCache();
    }

    /** `wrapper(self, *args, **kwargs)`: returns the invocation handed to `original_func`.
        A call builds at most one projection, and none when its key is already cached. */
    method Call(model: ModelHandle, call: Invocation) returns (out: Outcome)
      requires Valid()
      modifies cache
      ensures Valid()
      ensures (out, cache.entries) == ApplyModelStep(model, call, old(cache.entries))
      ensures |cache.built| <= |old(cache.built)| + 1
      ensures cache.entries.Keys == old(cache.entries).Keys ==> cache.built == old(cache.built)
    {
      if !IsNunchakuQwenModel(model) {
        return Forwarded(call);
      }
      var expectedDim := GetExpectedTxtDim(model);
      if expectedDim.None? {
        return Forwarded(call);
      }
      var expected := expectedDim.value;
      var kwargs := call.kwargs;
      var context := KwargGet(kwargs, "context");
      if context != NoneVal {
        if context.OtherVal? {
          return Raised(AttributeError);
        }
        var t := context.t;
        if |t.shape| == 0 {
          return Raised(IndexError);
        }
        var actual := LastDim(t);
        if actual != expected {
          var key := CacheKey(actual, expected, t.device, t.dtype);
          if key !in cache.entries {
            var w: Matrix;
            if actual > expected {
              w := Eye(expected, actual);
            } else {
              w := PaddingWeights(expected, actual);
            }
            RepairWeightsIsEye(actual, expected);
            cache.Insert(key, w);
          }
          kwargs := kwargs["context" := TensorVal(Linear(cache.entries[key], t))];
        }
      }
      return Forwarded(Invocation(call.args, kwargs));
    }
  }
}
