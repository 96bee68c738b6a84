/** `patch_diffusion_model_forward` and the installed `patched_module_call` hook: find the
    conditioning tensor among the arguments, repair its width, rewrite that one slot. */
module Forward {
  import opened Tensors
  import opened Py
  import opened Detect
  import opened Cache

  /** Keyword names tried, in priority order. */
  const CandidateNames: seq<string> := ["context", "encoder_hidden_states", "text_embeds"]

  /** The name recorded when the tensor was taken from the second positional argument. */
  const PositionalSlot: string := "args[1]"

  /** The weight a freshly constructed `torch.nn.Linear` holds at (row, column) before any
      assignment: the library's random initialisation, supplied from outside. */
  type InitDraw = (nat, nat) -> int

  /** Index of the first of `names` present in `kwargs`, or `|names|` when none is. */
  function FirstPresent(names: seq<string>, kwargs: Kwargs): (i: nat)
    ensures i <= |names|
    ensures forall j :: 0 <= j < i ==> names[j] !in kwargs
    ensures i < |names| ==> names[i] in kwargs
  {
    if names == [] then 0
    else if names[0] in kwargs then 0
    else 1 + FirstPresent(names[1..], kwargs)
  }

  /** The value found and the name recorded for it: the first candidate keyword present (even
      when it holds None); failing a non-None value there, the second positional argument when
      it is a tensor of rank at least 2. */
  function Locate(args: seq<Value>, kwargs: Kwargs): (r: (Value, Option<string>))
    ensures r.0 != NoneVal ==> r.1.Some?
    ensures r.1 == Some(PositionalSlot) ==>
              |args| > 1 && r.0 == args[1] && IsTensorOfRankAtLeast(args[1], 2)
    ensures r.1.Some? && r.1.value != PositionalSlot ==>
              r.1.value in CandidateNames && r.1.value in kwargs && r.0 == kwargs[r.1.value]
  {
    var i := FirstPresent(CandidateNames, kwargs);
    var (found, name) :=
      if i < |CandidateNames| then (kwargs[CandidateNames[i]], Some(CandidateNames[i])) else (NoneVal, None);
    if found == NoneVal && |args| > 1 && IsTensorOfRankAtLeast(args[1], 2) then (args[1], Some(PositionalSlot))
    else (found, name)
  }

  /** The search loop with its early `break`, then the positional fallback. */
  method LocateConditioning(args: seq<Value>, kwargs: Kwargs) returns (found: Value, paramName: Option<string>)
    ensures (found, paramName) == Locate(args, kwargs)
  {
    found, paramName := NoneVal, None;
    var names := CandidateNames;
    var i := 0;
    while i < |names|
      invariant 0 <= i <= |names|
      invariant forall j :: 0 <= j < i ==> names[j] !in kwargs
      invariant found == NoneVal && paramName == None
    {
      if names[i] in kwargs {
        found, paramName := kwargs[names[i]], Some(names[i]);
        break;
      }
      i := i + 1;
    }
    if found == NoneVal && |args| > 1 {
      if IsTensorOfRankAtLeast(args[1], 2) {
        found, paramName := args[1], Some(PositionalSlot);
      }
    }
  }

  /** Built on a cache miss: `eye(expected, actual)` when the input is wider; otherwise the
      weights are never assigned and keep their initial draw. */
  function ForwardWeights(actual: nat, expected: nat, draw: InitDraw): (w: Matrix)
    ensures IsMatrix(w, expected, actual)
  {
    if actual > expected then Eye(expected, actual) else InitWeights(expected, actual, draw)
  }

  function InitWeights(rows: nat, cols: nat, draw: InitDraw): (w: Matrix)
    ensures IsMatrix(w, rows, cols)
  {
    seq(rows, i requires 0 <= i < rows => seq(cols, j requires 0 <= j < cols => draw(i, j)))
  }

  /** Every stored projection for a wider input is the truncating `eye(expected, actual)`. */
  ghost predicate EyeWhenWider(entries: Entries)
  {
    forall k :: k in entries && k.actual > k.expected ==> entries[k] == Eye(k.expected, k.actual)
  }

  /** One call of the forward wrapper on module `dm`, given the cache it finds. */
  function ForwardStep(dm: ModuleAttrs, call: Invocation, entries: Entries, draw: InitDraw): (r: (Outcome, Entries))
    ensures forall k :: k in entries ==> k in r.1 && r.1[k] == entries[k]
    ensures r.0.Raised? ==> r.0.error == IndexError && r.1 == entries
    ensures WellShaped(entries) ==> WellShaped(r.1)
  {
    match NormalizedShape(dm)
    case None => (Forwarded(call), entries)
    case Some(shape) =>
      if |shape| == 0 then (Raised(IndexError), entries)
      else
        var expected := shape[0];
        var (found, name) := Locate(call.args, call.kwargs);
        if !IsTensorOfRankAtLeast(found, 2) || LastDim(found.t) == expected then (Forwarded(call), entries)
        else
          var t := found.t;
          var key := CacheKey(LastDim(t), expected, t.device, t.dtype);
          var (w, entries') := Lookup(entries, key, ForwardWeights(LastDim(t), expected, draw));
          var y := TensorVal(Linear(w, t));
          var call' :=
            if name.value in call.kwargs then Invocation(call.args, call.kwargs[name.value := y])
            else if name.value == PositionalSlot then Invocation(call.args[1 := y], call.kwargs)
            else call;
          (Forwarded(call'), entries')
  }

  /** The first candidate keyword present wins, whatever comes after it. */
  lemma LocatePriority(args: seq<Value>, kwargs: Kwargs, i: nat)
    requires i < |CandidateNames| && CandidateNames[i] in kwargs && kwargs[CandidateNames[i]] != NoneVal
    requires forall j :: 0 <= j < i ==> CandidateNames[j] !in kwargs
    ensures Locate(args, kwargs) == (kwargs[CandidateNames[i]], Some(CandidateNames[i]))
  {
    var f := FirstPresent(CandidateNames, kwargs);
    assert f == i;
  }

  /** When no candidate keyword is present, or the first one present holds None, a rank >= 2
      tensor in `args[1]` is taken, whatever later candidates hold. */
  lemma LocateFallback(args: seq<Value>, kwargs: Kwargs)
    requires var i := FirstPresent(CandidateNames, kwargs);
      i == |CandidateNames| || kwargs[CandidateNames[i]] == NoneVal
    requires |args| > 1 && IsTensorOfRankAtLeast(args[1], 2)
    ensures Locate(args, kwargs) == (args[1], Some(PositionalSlot))
  {
  }

  /** A None under the first candidate present masks the later candidates: without a rank >= 2
      tensor in `args[1]` the call is forwarded untouched, even when a later candidate holds a
      tensor of the wrong width. */
  lemma LaterCandidateMasked(dm: ModuleAttrs, call: Invocation, entries: Entries, draw: InitDraw)
    requires NormalizedShape(dm).Some? && |NormalizedShape(dm).value| > 0
    requires var i := FirstPresent(CandidateNames, call.kwargs);
      i == |CandidateNames| || call.kwargs[CandidateNames[i]] == NoneVal
    requires !(|call.args| > 1 && IsTensorOfRankAtLeast(call.args[1], 2))
    ensures ForwardStep(dm, call, entries, draw) == (Forwarded(call), entries)
  {
    assert Locate(call.args, call.kwargs).0 == NoneVal;
  }

  /** The concrete case: `context=None` next to a too-wide `encoder_hidden_states`. */
  lemma LaterCandidateMaskedExample(entries: Entries, draw: InitDraw)
    ensures var dm := ModuleAttrs(Some(Norm(Some([1]))), true, true, true);
      var t := Tensor([1, 2], [[5, 7]], Device("cuda"), DType("bf16"));
      var call := Invocation([], map["context" := NoneVal, "encoder_hidden_states" := TensorVal(t)]);
      ForwardStep(dm, call, entries, draw) == (Forwarded(call), entries)
  {
    var dm := ModuleAttrs(Some(Norm(Some([1]))), true, true, true);
    var t := Tensor([1, 2], [[5, 7]], Device("cuda"), DType("bf16"));
    var call := Invocation([], map["context" := NoneVal, "encoder_hidden_states" := TensorVal(t)]);
    assert CandidateNames[0] in call.kwargs;
    assert FirstPresent(CandidateNames, call.kwargs) == 0;
    LaterCandidateMasked(dm, call, entries, draw);
  }

  /** Targets that are not matched, conditioning that is absent or not a rank >= 2 tensor, and
      widths that already agree all forward the arguments untouched and leave the cache. */
  lemma ForwardPassThrough(dm: ModuleAttrs, call: Invocation, entries: Entries, draw: InitDraw)
    requires var shape := NormalizedShape(dm);
      || shape.None?
      || (|shape.value| > 0 &&
          var found := Locate(call.args, call.kwargs).0;
          !IsTensorOfRankAtLeast(found, 2) || LastDim(found.t) == shape.value[0])
    ensures ForwardStep(dm, call, entries, draw) == (Forwarded(call), entries)
  {
  }

  /** A module the installed hook accepts whose `txt_norm` has no `normalized_shape` is one the
      model-level detector rejects; the forward wrapper built for it passes every call through
      on its fresh cache. */
  lemma HookMatchWithoutShapePassesThrough(dm: ModuleAttrs, call: Invocation, draw: InitDraw)
    requires IsNunchakuDiffusion(dm) && NormalizedShape(dm).None?
    ensures !IsNunchakuQwenModel(ModelHandle(Some(dm)))
    ensures ForwardStep(dm, call, map[], draw) == (Forwarded(call), map[])
  {
  }

  /** An empty `normalized_shape` makes `normalized_shape[0]` raise, uncaught. */
  lemma ForwardRaisesOnEmptyShape(dm: ModuleAttrs, call: Invocation, entries: Entries, draw: InitDraw)
    requires NormalizedShape(dm) == Some([])
    ensures ForwardStep(dm, call, entries, draw) == (Raised(IndexError), entries)
  {
  }

  /** A mismatched tensor found under keyword `n` is replaced there and nowhere else; its
      leading dimensions are kept, its width becomes the expected one, and when it was wider
      each row is truncated to its first `expected` coordinates (on a miss, or whenever the
      table keeps the truncating identity for wider inputs). */
  lemma ForwardRewritesKeyword(dm: ModuleAttrs, call: Invocation, entries: Entries, draw: InitDraw, n: string, t: Tensor)
    requires WellShaped(entries)
    requires NormalizedShape(dm).Some? && |NormalizedShape(dm).value| > 0
    requires Locate(call.args, call.kwargs) == (TensorVal(t), Some(n)) && n in call.kwargs
    requires WellFormed(t) && |t.shape| >= 2 && LastDim(t) != NormalizedShape(dm).value[0]
    ensures var e := NormalizedShape(dm).value[0];
      var key := CacheKey(LastDim(t), e, t.device, t.dtype);
      var (out, entries') := ForwardStep(dm, call, entries, draw);
      key in entries' && (key in entries ==> entries'[key] == entries[key]) &&
      (key !in entries ==> entries'[key] == ForwardWeights(LastDim(t), e, draw)) &&
      out == Forwarded(Invocation(call.args, call.kwargs[n := TensorVal(Linear(entries'[key], t))])) &&
      var r := Linear(entries'[key], t);
      LeadingDims(r) == LeadingDims(t) && LastDim(r) == e && |r.rows| == |t.rows| &&
      ((key !in entries || EyeWhenWider(entries)) && LastDim(t) > e ==>
         forall k :: 0 <= k < |t.rows| ==> r.rows[k] == t.rows[k][..e])
  {
    var e := NormalizedShape(dm).value[0];
    var key := CacheKey(LastDim(t), e, t.device, t.dtype);
    if (key !in entries || EyeWhenWider(entries)) && LastDim(t) > e {
      LinearTruncates(e, t);
    }
  }

  /** A mismatched tensor taken from `args[1]` is replaced there; every other positional
      argument and every keyword is passed on as it was, and the new tensor is as in
      ForwardRewritesKeyword. */
  lemma ForwardRewritesPositional(dm: ModuleAttrs, call: Invocation, entries: Entries, draw: InitDraw, t: Tensor)
    requires WellShaped(entries)
    requires NormalizedShape(dm).Some? && |NormalizedShape(dm).value| > 0
    requires Locate(call.args, call.kwargs) == (TensorVal(t), Some(PositionalSlot))
    requires PositionalSlot !in call.kwargs
    requires WellFormed(t) && LastDim(t) != NormalizedShape(dm).value[0]
    ensures var e := NormalizedShape(dm).value[0];
      var key := CacheKey(LastDim(t), e, t.device, t.dtype);
      var (out, entries') := ForwardStep(dm, call, entries, draw);
      key in entries' && (key in entries ==> entries'[key] == entries[key]) &&
      (key !in entries ==> entries'[key] == ForwardWeights(LastDim(t), e, draw)) &&
      |call.args| > 1 &&
      out == Forwarded(Invocation(call.args[1 := TensorVal(Linear(entries'[key], t))], call.kwargs)) &&
      var r := Linear(entries'[key], t);
      LeadingDims(r) == LeadingDims(t) && LastDim(r) == e && |r.rows| == |t.rows| &&
      ((key !in entries || EyeWhenWider(entries)) && LastDim(t) > e ==>
         forall k :: 0 <= k < |t.rows| ==> r.rows[k] == t.rows[k][..e])
  {
    var e := NormalizedShape(dm).value[0];
    var key := CacheKey(LastDim(t), e, t.device, t.dtype);
    if (key !in entries || EyeWhenWider(entries)) && LastDim(t) > e {
      LinearTruncates(e, t);
    }
  }

  /** The wrapper only ever stores the truncating identity for a wider input. */
  lemma ForwardKeepsEyeWhenWider(dm: ModuleAttrs, call: Invocation, entries: Entries, draw: InitDraw)
    requires EyeWhenWider(entries)
    ensures EyeWhenWider(ForwardStep(dm, call, entries, draw).1)
  {
  }

  /** With a keyword literally named "args[1]" present, a tensor taken from the second positional
      argument is written into that keyword and the positional argument stays as it was. */
  lemma ForwardPositionalNameClash(dm: ModuleAttrs, call: Invocation, entries: Entries, draw: InitDraw, t: Tensor)
    requires WellShaped(entries)
    requires NormalizedShape(dm).Some? && |NormalizedShape(dm).value| > 0
    requires Locate(call.args, call.kwargs) == (TensorVal(t), Some(PositionalSlot))
    requires PositionalSlot in call.kwargs
    requires LastDim(t) != NormalizedShape(dm).value[0]
    ensures var e := NormalizedShape(dm).value[0];
      var key := CacheKey(LastDim(t), e, t.device, t.dtype);
      var (out, entries') := ForwardStep(dm, call, entries, draw);
      key in entries' && (key in entries ==> entries'[key] == entries[key]) &&
      (key !in entries ==> entries'[key] == ForwardWeights(LastDim(t), e, draw)) &&
      out == Forwarded(Invocation(call.args, call.kwargs[PositionalSlot := TensorVal(Linear(entries'[key], t))])) &&
      LastDim(Linear(entries'[key], t)) == e
  {
  }

  /** Within one wrapper, a repeated call finds its projection cached: the later draw is
      ignored, the result repeats and the table does not grow. */
  lemma ForwardRepeatStable(dm: ModuleAttrs, call: Invocation, entries: Entries, draw1: InitDraw, draw2: InitDraw)
    ensures var (out, entries') := ForwardStep(dm, call, entries, draw1);
      ForwardStep(dm, call, entries', draw2) == (out, entries')
  {
    var shape := NormalizedShape(dm);
    if shape.Some? && |shape.value| > 0 {
      var e := shape.value[0];
      var (found, name) := Locate(call.args, call.kwargs);
      if IsTensorOfRankAtLeast(found, 2) && LastDim(found.t) != e {
        var t := found.t;
        LookupStable(entries, CacheKey(LastDim(t), e, t.device, t.dtype),
                     ForwardWeights(LastDim(t), e, draw1), ForwardWeights(LastDim(t), e, draw2));
      }
    }
  }

  /** The narrowing example: a width-1 `context` against an expected width of 2. With an empty
      cache the forwarded row is the first column of the freshly drawn weights. */
  lemma NarrowExampleForwardsDraw(draw: InitDraw)
    ensures var dm := ModuleAttrs(Some(Norm(Some([2]))), true, true, true);
      var t := Tensor([1, 1], [[1]], Device("cuda"), DType("bf16"));
      var call := Invocation([], map["context" := TensorVal(t)]);
      var out := ForwardStep(dm, call, map[], draw).0;
      out.Forwarded? && "context" in out.call.kwargs && out.call.kwargs["context"].TensorVal? &&
      out.call.kwargs["context"].t.rows == [[draw(0, 0), draw(1, 0)]]
  {
    var dm := ModuleAttrs(Some(Norm(Some([2]))), true, true, true);
    var t := Tensor([1, 1], [[1]], Device("cuda"), DType("bf16"));
    var call := Invocation([], map["context" := TensorVal(t)]);
    assert CandidateNames[0] in call.kwargs;
    assert FirstPresent(CandidateNames, call.kwargs) == 0;
    assert Locate(call.args, call.kwargs) == (TensorVal(t), Some("context"));
    var w := ForwardWeights(1, 2, draw);
    assert w == InitWeights(2, 1, draw);
    assert |w| == 2 && w[0] == [draw(0, 0)] && w[1] == [draw(1, 0)];
    assert w == [[draw(0, 0)], [draw(1, 0)]];
    var r := Linear(w, t);
    assert r.rows[0] == MatVec(w, [1]);
    assert MatVec(w, [1]) == [Dot([draw(0, 0)], [1]), Dot([draw(1, 0)], [1])];
    assert ForwardStep(dm, call, map[], draw).0 == Forwarded(Invocation([], call.kwargs["context" := TensorVal(r)]));
  }

  /** A fresh cache per call loses that stability: with a narrower input, two calls with the
      same key forward different tensors when the initial draws differ. */
  lemma FreshCacheRedraws(draw1: InitDraw, draw2: InitDraw)
    requires draw1(0, 0) != draw2(0, 0)
    ensures var dm := ModuleAttrs(Some(Norm(Some([2]))), true, true, true);
      var t := Tensor([1, 1], [[1]], Device("cuda"), DType("bf16"));
      var call := Invocation([], map["context" := TensorVal(t)]);
      ForwardStep(dm, call, map[], draw1).0 != ForwardStep(dm, call, map[], draw2).0
  {
    NarrowExampleForwardsDraw(draw1);
    NarrowExampleForwardsDraw(draw2);
  }

  /** The closure returned by `patch_diffusion_model_forward`, with its own `projection_cache`. */
  class ForwardWrapper {
    const cache: ProjectionCache

    ghost predicate Valid()
      reads this, cache
    {
      cache.Valid() && EyeWhenWider(cache.entries)
    }

    constructor ()
      ensures Valid() && fresh(cache) && cache.entries == map[]
    {
      cache := new ProjectionCache();
    }

    /** `wrapper(self, *args, **kwargs)`: returns the invocation handed to `original_forward`. */
    method Call(dm: ModuleAttrs, call: Invocation, draw: InitDraw) returns (out: Outcome)
      requires Valid()
      modifies cache
      ensures Valid()
      ensures (out, cache.entries) == ForwardStep(dm, call, old(cache.entries), draw)
      ensures |cache.built| <= |old(cache.built)| + 1
    {
      var shape := NormalizedShape(dm);
      if shape.None? {
        return Forwarded(call);
      }
      if |shape.value| == 0 {
        return Raised(IndexError);
      }
      var expected := shape.value[0];
      var found, paramName := LocateConditioning(call.args, call.kwargs);
      var args, kwargs := call.args, call.kwargs;
      if found != NoneVal && found.TensorVal? && |found.t.shape| >= 2 {
        var t := found.t;
        var actual := LastDim(t);
        if actual != expected {
          var key := CacheKey(actual, expected, t.device, t.dtype);
          if key !in cache.entries {
            var w := InitWeights(expected, actual, draw);
            if actual > expected {
              w := Eye(expected, actual);
            }
            cache.Insert(key, w);
          }
          var y := TensorVal(Linear(cache.entries[key], t));
          if paramName.value in kwargs {
            kwargs := kwargs[paramName.value := y];
          } else if paramName.value == PositionalSlot {
            args := args[1 := y];
          }
        }
      }
      return Forwarded(Invocation(args, kwargs));
    }
  }

  /** A module instance: its probed attributes and the `_nunchaku_patched` marker. */
  class Module {
    const attrs: ModuleAttrs
    var nunchakuPatched: bool

    constructor (attrs: ModuleAttrs)
      ensures this.attrs == attrs && !nunchakuPatched
    {
      this.attrs := attrs;
      nunchakuPatched := false;
    }
  }

  /** The installed `patched_module_call`: matched modules are marked and sent through a forward
      wrapper built afresh for this call, so its cache starts empty every time; all other
      modules go straight to the original call. */
  method PatchedModuleCall(m: Module, call: Invocation, draw: InitDraw) returns (out: Outcome)
    modifies m
    ensures m.nunchakuPatched == (old(m.nunchakuPatched) || IsNunchakuDiffusion(m.attrs))
    ensures IsNunchakuDiffusion(m.attrs) ==> out == ForwardStep(m.attrs, call, map[], draw).0
    ensures !IsNunchakuDiffusion(m.attrs) ==> out == Forwarded(call)
  {
    if IsNunchakuDiffusion(m.attrs) {
      if !m.nunchakuPatched {
        m.nunchakuPatched := true;
      }
      var wrapper := new ForwardWrapper();
      out := wrapper.Call(m.attrs, call, draw);
    } else {
      out := Forwarded(call);
    }
  }
}
