/**
  The two parameter policies of the softmax builder: which axes the two
  reductions run over (`ReduceAxes`) and the fusion hint handed to them
  (`FuseDim`).
 */
module SoftmaxAxes {
  import opened MachineInt

  /** The ascending run of integers `lo, lo + 1, ..., hi - 1` (empty when `lo >= hi`). */
  function AxisRange(lo: int, hi: int): (r: seq<int>)
    ensures |r| == if lo < hi then hi - lo else 0
    ensures forall k :: 0 <= k < |r| ==> r[k] == lo + k
    decreases hi - lo
  {
    if lo >= hi then [] else [lo] + AxisRange(lo + 1, hi)
  }

  /**
    The reduction axes for a softmax starting at `axis` over a tensor of
    `size` dimensions: every `i` with `axis <= i < narrow_cast<int64_t>(size)`,
    in ascending order. A `size` of 2^63 or more reads back negative, so its
    range is empty.
   */
  function ReduceAxes(axis: Int64, size: UInt64): (r: seq<int>)
    ensures |r| == if axis < ToInt64(size) then ToInt64(size) - axis else 0
    ensures forall k :: 0 <= k < |r| ==> r[k] == axis + k
    ensures forall k :: 0 <= k < |r| ==> InInt64(r[k])
    ensures size <= INT64_MAX ==> (r == [] <==> axis >= size)
  {
    AxisRange(axis, ToInt64(size))
  }

  /** The push-back loop that collects the reduction axes one at a time. */
  method CollectReduceAxes(axis: Int64, size: UInt64) returns (r: seq<int>)
    ensures r == ReduceAxes(axis, size)
  {
    r := [];
    var bound: Int64 := ToInt64(size);
    var i: Int64 := axis;
    while i < bound
      invariant axis <= i
      invariant i == axis || i <= bound
      invariant |r| == i - axis
      invariant forall k :: 0 <= k < |r| ==> r[k] == axis + k
      decreases bound - i
    {
      r := r + [i];
      i := i + 1;
    }
    var expected := ReduceAxes(axis, size);
    assert |r| == |expected|;
    assert forall k :: 0 <= k < |r| ==> r[k] == expected[k];
  }

  /** Every reduction axis lies in `[axis, size)`, and every such index is one of them. */
  lemma ReduceAxesMembership(axis: Int64, size: UInt64, a: int)
    requires size <= INT64_MAX
    ensures a in ReduceAxes(axis, size) <==> axis <= a < size
  {
    var r := ReduceAxes(axis, size);
    if axis <= a < size {
      assert r[a - axis] == a;
    }
  }

  /** The reduction axes are strictly ascending and contiguous. */
  lemma ReduceAxesAscending(axis: Int64, size: UInt64)
    ensures forall i, j :: 0 <= i < j < |ReduceAxes(axis, size)| ==>
      ReduceAxes(axis, size)[i] < ReduceAxes(axis, size)[j]
    ensures forall i :: 0 < i < |ReduceAxes(axis, size)| ==>
      ReduceAxes(axis, size)[i] == ReduceAxes(axis, size)[i - 1] + 1
  {
  }

  /**
    Starting at `axis` drops exactly the first `axis` entries of the full
    axis list `[0, ..., size - 1]`: the reduction set is always a suffix of
    the tensor's axes.
   */
  lemma ReduceAxesIsSuffix(axis: Int64, size: UInt64)
    requires 0 <= axis <= size <= INT64_MAX
    ensures ReduceAxes(0, size)[axis..] == ReduceAxes(axis, size)
  {
  }

  /**
    The fusion hint: `0` fuses every dimension; any other axis becomes
    `narrow_cast<int32_t>(axis) + 1`, fusing every dimension after it.
    The `+ 1` is done in 32-bit signed arithmetic, which must not overflow.
   */
  function FuseDim(axis: Int64): (r: Int32)
    requires axis == 0 || ToInt32(axis) < INT32_MAX
    ensures axis == 0 ==> r == 0
    ensures axis != 0 ==> (r - 1 - axis) % TWO_32 == 0
    ensures axis != 0 && InInt32(axis) ==> r == axis + 1
    ensures InInt32(axis) ==> r != 1
  {
    if axis == 0 then 0 else ToInt32(axis) + 1
  }

  /**
    On the axes a tensor can actually have, the hint is injective and keeps
    the order of the axes, so it names the split point without ambiguity.
   */
  lemma FuseDimOrdered(a: Int64, b: Int64)
    requires 0 <= a < INT32_MAX && 0 <= b < INT32_MAX
    ensures a < b <==> FuseDim(a) < FuseDim(b)
    ensures FuseDim(a) == FuseDim(b) ==> a == b
  {
  }
}
