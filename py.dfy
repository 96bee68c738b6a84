/** The Python-level values a wrapper sees: positional and keyword arguments, the
    invocation it forwards to the wrapped callable, and the errors it lets escape. */
module Py {
  import opened Tensors

  datatype Option<T> = None | Some(value: T)

  /** An argument value: Python's `None`, a tensor, or any other object (identified only by a tag). */
  datatype Value = NoneVal | TensorVal(t: Tensor) | OtherVal(tag: nat)

  type Kwargs = map<string, Value>

  /** The arguments a wrapper hands on to the callable it wraps. */
  datatype Invocation = Invocation(args: seq<Value>, kwargs: Kwargs)

  /** Errors a wrapper raises itself: `.shape` on a non-tensor, `[..]` past the end of a shape. */
  datatype PyError = AttributeError | IndexError

  /** A wrapper either forwards a (possibly rewritten) invocation or raises before forwarding. */
  datatype Outcome = Forwarded(call: Invocation) | Raised(error: PyError)

  /** `kwargs.get(name, None)`. */
  function KwargGet(kwargs: Kwargs, name: string): (v: Value)
    ensures name !in kwargs ==> v == NoneVal
    ensures name in kwargs ==> v == kwargs[name]
  {
    if name in kwargs then kwargs[name] else NoneVal
  }

  /** `isinstance(v, torch.Tensor) and len(v.shape) >= n`. */
  predicate IsTensorOfRankAtLeast(v: Value, n: nat)
  {
    v.TensorVal? && |v.t.shape| >= n
  }
}
