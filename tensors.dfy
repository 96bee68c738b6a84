/** Tensors as shapes plus integer data, and the bias-free linear layer applied along the last axis. */
module Tensors {

  /** Execution device and numeric precision: opaque identifiers, compared only for equality. */
  datatype Device = Device(name: string)
  datatype DType = DType(name: string)

  /** A tensor: its shape, and its elements grouped into rows along the last axis
      (row-major order), bound to one device and one precision. */
  datatype Tensor = Tensor(shape: seq<nat>, rows: seq<seq<int>>, device: Device, dtype: DType)

  /** A weight matrix, one inner sequence per output feature. */
  type Matrix = seq<seq<int>>

  function Prod(s: seq<nat>): nat
  {
    if s == [] then 1 else s[0] * Prod(s[1..])
  }

  function LastDim(t: Tensor): nat
    requires |t.shape| > 0
  {
    t.shape[|t.shape| - 1]
  }

  /** Every dimension but the last. */
  function LeadingDims(t: Tensor): seq<nat>
    requires |t.shape| > 0
  {
    t.shape[..|t.shape| - 1]
  }

  /** The rows agree with the shape: one row per index of the leading dimensions,
      each as long as the last dimension. */
  ghost predicate WellFormed(t: Tensor)
  {
    |t.shape| > 0 &&
    |t.rows| == Prod(LeadingDims(t)) &&
    forall k :: 0 <= k < |t.rows| ==> |t.rows[k]| == LastDim(t)
  }

  ghost predicate IsMatrix(w: Matrix, rows: nat, cols: nat)
  {
    |w| == rows && forall i :: 0 <= i < rows ==> |w[i]| == cols
  }

  function Zeros(n: nat): (z: seq<int>)
    ensures |z| == n && forall j :: 0 <= j < n ==> z[j] == 0
  {
    seq(n, j => 0)
  }

  /** Row `i` of an identity: a one at column `i` (none when `i` is out of range), zeros elsewhere. */
  function UnitRow(n: nat, i: int): seq<int>
  {
    seq(n, j => if j == i then 1 else 0)
  }

  /** `torch.eye(rows, cols)`: ones on the main diagonal, zeros elsewhere. */
  function Eye(rows: nat, cols: nat): (w: Matrix)
    ensures IsMatrix(w, rows, cols)
    ensures forall i, j :: 0 <= i < rows && 0 <= j < cols ==> w[i][j] == (if i == j then 1 else 0)
  {
    seq(rows, i => UnitRow(cols, i))
  }

  /** `torch.zeros(rows, cols)`. */
  function ZeroMatrix(rows: nat, cols: nat): Matrix
  {
    seq(rows, i => Zeros(cols))
  }

  /** The narrowing-side weights as the code builds them: a zero matrix whose first `actual`
      rows are then overwritten by `eye(actual)`. */
  function PaddingWeights(expected: nat, actual: nat): (w: Matrix)
    requires actual <= expected
    ensures IsMatrix(w, expected, actual)
    ensures forall i :: actual <= i < expected ==> w[i] == Zeros(actual)
  {
    Eye(actual, actual) + ZeroMatrix(expected, actual)[actual..]
  }

  function Dot(w: seq<int>, x: seq<int>): int
  {
    if w == [] || x == [] then 0 else w[0] * x[0] + Dot(w[1..], x[1..])
  }

  /** One output row of the layer: y[i] = sum_j W[i][j] * x[j]. */
  function MatVec(w: Matrix, x: seq<int>): seq<int>
  {
    seq(|w|, i requires 0 <= i < |w| => Dot(w[i], x))
  }

  /** A bias-free `torch.nn.Linear` with weight `w` applied along the last axis. */
  function Linear(w: Matrix, t: Tensor): (r: Tensor)
    requires |t.shape| > 0
    ensures |r.shape| == |t.shape| && LeadingDims(r) == LeadingDims(t) && LastDim(r) == |w|
    ensures |r.rows| == |t.rows| && r.device == t.device && r.dtype == t.dtype
  {
    Tensor(LeadingDims(t) + [|w|],
           seq(|t.rows|, k requires 0 <= k < |t.rows| => MatVec(w, t.rows[k])),
           t.device, t.dtype)
  }

  // ---------------------------------------------------------------------------------------
  // Properties of the identity weights

  /** Dotting a unit row with `x` selects coordinate `i` of `x`, or gives zero when `i` is
      outside `x`. */
  lemma {:induction false} DotUnitRow(i: int, x: seq<int>)
    ensures Dot(UnitRow(|x|, i), x) == if 0 <= i < |x| then x[i] else 0
    decreases |x|
  {
    if |x| > 0 {
      assert UnitRow(|x|, i)[1..] == UnitRow(|x| - 1, i - 1);
      DotUnitRow(i - 1, x[1..]);
    }
  }

  /** Applying `eye(e, |x|)` to a row keeps its first min(e, |x|) coordinates and
      fills any further output coordinates with zero. */
  lemma EyeMatVec(e: nat, x: seq<int>)
    ensures |MatVec(Eye(e, |x|), x)| == e
    ensures forall i :: 0 <= i < e ==> MatVec(Eye(e, |x|), x)[i] == if i < |x| then x[i] else 0
  {
    forall i | 0 <= i < e
      ensures MatVec(Eye(e, |x|), x)[i] == if i < |x| then x[i] else 0
    {
      DotUnitRow(i, x);
    }
  }

  /** Truncation: when the input is at least as wide, the output is the prefix. */
  lemma EyeTruncatesRow(e: nat, x: seq<int>)
    requires e <= |x|
    ensures MatVec(Eye(e, |x|), x) == x[..e]
  {
    EyeMatVec(e, x);
  }

  /** Zero-padding: when the input is at most as wide, the output is the input followed by zeros. */
  lemma EyePadsRow(e: nat, x: seq<int>)
    requires |x| <= e
    ensures MatVec(Eye(e, |x|), x) == x + Zeros(e - |x|)
  {
    EyeMatVec(e, x);
  }

  /** A one-hot input at index i lands on a one-hot output at index i when i < e,
      and on the zero vector when i >= e. */
  lemma EyeOneHot(e: nat, a: nat, i: nat)
    requires i < a
    ensures MatVec(Eye(e, a), UnitRow(a, i)) == UnitRow(e, i)
  {
    EyeMatVec(e, UnitRow(a, i));
  }

  /** The zeros-then-overwrite construction yields the same matrix as `eye(expected, actual)`. */
  lemma PaddingWeightsIsEye(expected: nat, actual: nat)
    requires actual <= expected
    ensures PaddingWeights(expected, actual) == Eye(expected, actual)
  {
    var p := PaddingWeights(expected, actual);
    var w := Eye(expected, actual);
    assert |p| == |w|;
    forall i | 0 <= i < expected
      ensures p[i] == w[i]
    {
      if i < actual {
        assert p[i] == UnitRow(actual, i);
      } else {
        assert p[i] == Zeros(actual);
      }
    }
  }

  // ---------------------------------------------------------------------------------------
  // The layer over whole tensors

  /** Every dimension but the last is unchanged, the last becomes the number of output
      features, and each row is mapped on its own. */
  lemma LinearShape(w: Matrix, t: Tensor)
    requires WellFormed(t) && IsMatrix(w, |w|, LastDim(t))
    ensures var r := Linear(w, t);
      WellFormed(r) && LeadingDims(r) == LeadingDims(t) && LastDim(r) == |w| &&
      r.device == t.device && r.dtype == t.dtype &&
      forall k :: 0 <= k < |t.rows| ==> r.rows[k] == MatVec(w, t.rows[k])
  {
  }

  /** Truncation over a tensor: each row keeps its first `e` coordinates. */
  lemma LinearTruncates(e: nat, t: Tensor)
    requires WellFormed(t) && e <= LastDim(t)
    ensures var r := Linear(Eye(e, LastDim(t)), t);
      WellFormed(r) && LeadingDims(r) == LeadingDims(t) && LastDim(r) == e &&
      |r.rows| == |t.rows| &&
      forall k :: 0 <= k < |t.rows| ==> r.rows[k] == t.rows[k][..e]
  {
    LinearShape(Eye(e, LastDim(t)), t);
    forall k | 0 <= k < |t.rows|
      ensures Linear(Eye(e, LastDim(t)), t).rows[k] == t.rows[k][..e]
    {
      assert |t.rows[k]| == LastDim(t);
      EyeMatVec(e, t.rows[k]);
      EyeTruncatesRow(e, t.rows[k]);
    }
  }

  /** Zero-padding over a tensor: each row is kept and extended with zeros up to width `e`. */
  lemma LinearPads(e: nat, t: Tensor)
    requires WellFormed(t) && LastDim(t) <= e
    ensures var r := Linear(Eye(e, LastDim(t)), t);
      WellFormed(r) && LeadingDims(r) == LeadingDims(t) && LastDim(r) == e &&
      |r.rows| == |t.rows| &&
      forall k :: 0 <= k < |t.rows| ==> r.rows[k] == t.rows[k] + Zeros(e - LastDim(t))
  {
    LinearShape(Eye(e, LastDim(t)), t);
    forall k | 0 <= k < |t.rows|
      ensures Linear(Eye(e, LastDim(t)), t).rows[k] == t.rows[k] + Zeros(e - LastDim(t))
    {
      assert |t.rows[k]| == LastDim(t);
      EyeMatVec(e, t.rows[k]);
      EyePadsRow(e, t.rows[k]);
    }
  }
}
