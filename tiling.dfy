/** `patched_tiled_call`: lets a rank-4 tiling sampler accept `[N, C, 1, H, W]` inputs by
    dropping the frame axis on the way in and restoring it on the way out. */
module Tiling {
  import opened Tensors
  import opened Py

  /** The wrapped `TiledDiffusion.__call__` (with its `self` and `model_function`): given the
      contents of the request dict it is handed, the value it returns. */
  type TiledDelegate = Kwargs -> Value

  datatype TiledResult = Returned(value: Value) | Failed(error: PyError)

  /** `x.squeeze(2)` on a rank-5 tensor whose axis 2 has size 1. */
  function Squeeze2(t: Tensor): (r: Tensor)
    requires |t.shape| == 5 && t.shape[2] == 1
    ensures r.shape == [t.shape[0], t.shape[1], t.shape[3], t.shape[4]]
    ensures r.rows == t.rows && r.device == t.device && r.dtype == t.dtype
  {
    t.(shape := t.shape[..2] + t.shape[3..])
  }

  /** `x.unsqueeze(2)` on a rank-4 tensor. */
  function Unsqueeze2(t: Tensor): (r: Tensor)
    requires |t.shape| == 4
    ensures r.shape == [t.shape[0], t.shape[1], 1, t.shape[2], t.shape[3]]
    ensures r.rows == t.rows && r.device == t.device && r.dtype == t.dtype
  {
    t.(shape := t.shape[..2] + [1] + t.shape[2..])
  }

  /** An axis of size one does not change the element count. */
  lemma {:induction false} ProdUnitAxis(a: seq<nat>, b: seq<nat>)
    ensures Prod(a + [1] + b) == Prod(a + b)
    decreases |a|
  {
    if a == [] {
      assert a + [1] + b == [1] + b && a + b == b;
      assert ([1] + b)[1..] == b;
    } else {
      assert (a + [1] + b)[1..] == a[1..] + [1] + b;
      assert (a + b)[1..] == a[1..] + b;
      ProdUnitAxis(a[1..], b);
    }
  }

  /** Squeezing keeps the data and the device, and drops exactly the frame axis. */
  lemma SqueezeShape(t: Tensor)
    requires WellFormed(t) && |t.shape| == 5 && t.shape[2] == 1
    ensures var r := Squeeze2(t);
      WellFormed(r) && r.shape == [t.shape[0], t.shape[1], t.shape[3], t.shape[4]] && r.rows == t.rows &&
      r.device == t.device && r.dtype == t.dtype
  {
    var r := Squeeze2(t);
    assert LeadingDims(t) == t.shape[..2] + [1] + [t.shape[3]];
    assert LeadingDims(r) == t.shape[..2] + [t.shape[3]];
    ProdUnitAxis(t.shape[..2], [t.shape[3]]);
  }

  /** Unsqueezing keeps the data and inserts a size-one axis at position 2. */
  lemma UnsqueezeShape(t: Tensor)
    requires WellFormed(t) && |t.shape| == 4
    ensures var r := Unsqueeze2(t);
      WellFormed(r) && r.shape == [t.shape[0], t.shape[1], 1, t.shape[2], t.shape[3]] && r.rows == t.rows
  {
    var r := Unsqueeze2(t);
    assert LeadingDims(t) == t.shape[..2] + [t.shape[2]];
    assert LeadingDims(r) == t.shape[..2] + [1] + [t.shape[2]];
    ProdUnitAxis(t.shape[..2], [t.shape[2]]);
  }

  /** Restoring the frame axis undoes squeezing it. */
  lemma UnsqueezeSqueeze(t: Tensor)
    requires |t.shape| == 5 && t.shape[2] == 1
    ensures Unsqueeze2(Squeeze2(t)) == t
  {
    assert Unsqueeze2(Squeeze2(t)).shape == t.shape;
  }

  /** Squeezing a restored frame axis gives back the rank-4 tensor. */
  lemma SqueezeUnsqueeze(t: Tensor)
    requires |t.shape| == 4
    ensures Squeeze2(Unsqueeze2(t)) == t
  {
    assert Squeeze2(Unsqueeze2(t)).shape == t.shape;
  }

  /** One call on the request dict `kw`: what is returned (or raised) and what the dict holds
      afterwards, which is also what the delegate was handed. */
  function TiledStep(kw: Kwargs, original: TiledDelegate): (r: (TiledResult, Kwargs))
    ensures r.1.Keys == kw.Keys
    ensures forall n :: n in kw && n != "input" ==> r.1[n] == kw[n]
    ensures r.0.Failed? ==> r.0.error == AttributeError && r.1 == kw
  {
    match KwargGet(kw, "input")
    case NoneVal => (Returned(original(kw)), kw)
    case OtherVal(_) => (Failed(AttributeError), kw)
    case TensorVal(x) =>
      if |x.shape| == 5 && x.shape[2] == 1 then
        var kw' := kw["input" := TensorVal(Squeeze2(x))];
        var result := original(kw');
        if result.TensorVal? && |result.t.shape| == 4 then (Returned(TensorVal(Unsqueeze2(result.t))), kw')
        else (Returned(result), kw')
      else (Returned(original(kw)), kw)
  }

  /** No input, an input whose rank is not 5, or a frame axis other than 1: the delegate gets the
      request untouched and its result is returned as it is. */
  lemma TiledPassThrough(kw: Kwargs, original: TiledDelegate)
    requires var x := KwargGet(kw, "input");
      x == NoneVal || (x.TensorVal? && (|x.t.shape| != 5 || x.t.shape[2] != 1))
    ensures TiledStep(kw, original) == (Returned(original(kw)), kw)
  {
  }

  /** A non-tensor input makes `.shape` raise before the delegate runs. */
  lemma TiledRaisesOnNonTensor(kw: Kwargs, original: TiledDelegate)
    requires KwargGet(kw, "input").OtherVal?
    ensures TiledStep(kw, original) == (Failed(AttributeError), kw)
  {
  }

  /** With input `[N, C, 1, H, W]` the delegate is handed `[N, C, H, W]` (same data), the rest of
      the request unchanged; a rank-4 result `[N, C, H', W']` comes back as `[N, C, 1, H', W']`
      and any other result untouched. The caller's dict keeps the squeezed input. */
  lemma TiledSqueezes(kw: Kwargs, original: TiledDelegate, x: Tensor)
    requires "input" in kw && kw["input"] == TensorVal(x)
    requires WellFormed(x) && |x.shape| == 5 && x.shape[2] == 1
    ensures var (out, kw') := TiledStep(kw, original);
      kw'.Keys == kw.Keys && (forall n :: n in kw && n != "input" ==> kw'[n] == kw[n]) &&
      kw'["input"].TensorVal? &&
      kw'["input"].t.shape == [x.shape[0], x.shape[1], x.shape[3], x.shape[4]] &&
      kw'["input"].t.rows == x.rows &&
      var result := original(kw');
      (result.TensorVal? && |result.t.shape| == 4 ==>
         out.Returned? && out.value.TensorVal? &&
         out.value.t.shape == [result.t.shape[0], result.t.shape[1], 1, result.t.shape[2], result.t.shape[3]] &&
         out.value.t.rows == result.t.rows) &&
      (!(result.TensorVal? && |result.t.shape| == 4) ==> out == Returned(result))
  {
    SqueezeShape(x);
  }

  /** Round trip: a delegate that hands back its input tensor unchanged makes the whole call
      return exactly the original rank-5 input. */
  lemma TiledRoundTrip(kw: Kwargs, original: TiledDelegate, x: Tensor)
    requires "input" in kw && kw["input"] == TensorVal(x)
    requires |x.shape| == 5 && x.shape[2] == 1
    requires var kw' := kw["input" := TensorVal(Squeeze2(x))]; original(kw') == kw'["input"]
    ensures TiledStep(kw, original).0 == Returned(TensorVal(x))
  {
    UnsqueezeSqueeze(x);
  }

  /** A request dict shared with the caller, updated in place. */
  class KwargsDict {
    var items: Kwargs

    constructor (items: Kwargs)
      ensures this.items == items
    {
      this.items := items;
    }
  }

  /** `patched_tiled_call(self, model_function, kwargs)`. */
  method PatchedTiledCall(kwargs: KwargsDict, original: TiledDelegate) returns (out: TiledResult)
    modifies kwargs
    ensures (out, kwargs.items) == TiledStep(old(kwargs.items), original)
  {
    var xIn := KwargGet(kwargs.items, "input");
    if xIn != NoneVal {
      if xIn.OtherVal? {
        return Failed(AttributeError);
      }
      if |xIn.t.shape| == 5 {
        var frames := xIn.t.shape[2];
        if frames == 1 {
          kwargs.items := kwargs.items["input" := TensorVal(Squeeze2(xIn.t))];
          var result := original(kwargs.items);
          if result.TensorVal? && |result.t.shape| == 4 {
            result := TensorVal(Unsqueeze2(result.t));
          }
          return Returned(result);
        }
      }
    }
    return Returned(original(kwargs.items));
  }
}
