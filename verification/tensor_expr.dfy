/**
  Symbolic tensors: each value of `Expr` is one node of the dataflow graph
  the code generator lowers, recording its operands and the options it was
  built with. Nothing here computes tensor elements; `Shape` gives the
  shape a node has under the usual broadcasting and keep-dims rules.
 */
module TensorExpr {
  import opened Wrappers

  /** The options shared by the reduce-max and reduce-sum primitives. */
  datatype ReduceParams = ReduceParams(
    axes: seq<int>,       // the axes collapsed by the reduction
    keepDims: bool,       // reduced axes stay as size-1 dimensions
    vectorWidth: int,     // element count hint for vector packing
    extraFlag: bool,      // the boolean option passed after the width
    fuseDim: int          // fusion hint, see SoftmaxAxes.FuseDim
  )

  /** One node per primitive; `name` is the node's debug name. */
  datatype Expr =
    | Placeholder(name: string, shape: seq<nat>)
    | ReduceMax(operand: Expr, params: ReduceParams, name: string)
    | ReduceSum(operand: Expr, params: ReduceParams, name: string)
    | Sub(lhs: Expr, rhs: Expr, name: string)
    | Div(lhs: Expr, rhs: Expr, name: string)
    | Exp(operand: Expr, name: string)
    | Log(operand: Expr, name: string)

  /** The direct inputs of a node, in argument order. */
  function Operands(e: Expr): seq<Expr> {
    match e
    case Placeholder(_, _) => []
    case ReduceMax(x, _, _) => [x]
    case ReduceSum(x, _, _) => [x]
    case Sub(a, b, _) => [a, b]
    case Div(a, b, _) => [a, b]
    case Exp(x, _) => [x]
    case Log(x, _) => [x]
  }

  /** Broadcasting two extents: equal extents agree, and an extent of 1 stretches. */
  function BroadcastDim(a: nat, b: nat): Option<nat> {
    if a == b then Some(a)
    else if a == 1 then Some(b)
    else if b == 1 then Some(a)
    else None
  }

  function Ones(n: nat): seq<nat> {
    seq(n, _ => 1)
  }

  /** Broadcasting two shapes of the same rank, extent by extent. */
  function BroadcastAligned(a: seq<nat>, b: seq<nat>): Option<seq<nat>>
    requires |a| == |b|
  {
    if forall i :: 0 <= i < |a| ==> BroadcastDim(a[i], b[i]).Some? then
      Some(seq(|a|, i requires 0 <= i < |a| => BroadcastDim(a[i], b[i]).value))
    else
      None
  }

  /** Broadcasting with right alignment: the shorter shape gains leading 1s. */
  function Broadcast(a: seq<nat>, b: seq<nat>): Option<seq<nat>> {
    var n := if |a| < |b| then |b| else |a|;
    BroadcastAligned(Ones(n - |a|) + a, Ones(n - |b|) + b)
  }

  /** The shape left by a keep-dims reduction: every reduced axis becomes 1. */
  function KeepReduced(s: seq<nat>, axes: seq<int>): seq<nat> {
    seq(|s|, i requires 0 <= i < |s| => if i in axes then 1 else s[i])
  }

  /** The shape left by a reduction that drops its axes, from index `i` on. */
  function DropReduced(s: seq<nat>, axes: seq<int>, i: nat): seq<nat>
    requires i <= |s|
    decreases |s| - i
  {
    if i == |s| then []
    else (if i in axes then [] else [s[i]]) + DropReduced(s, axes, i + 1)
  }

  predicate AxesValid(axes: seq<int>, rank: nat) {
    forall k :: 0 <= k < |axes| ==> 0 <= axes[k] < rank
  }

  function Reduced(s: seq<nat>, p: ReduceParams): Option<seq<nat>> {
    if !AxesValid(p.axes, |s|) then None
    else if p.keepDims then Some(KeepReduced(s, p.axes))
    else Some(DropReduced(s, p.axes, 0))
  }

  /** The shape of a node, or `None` when its operands do not fit together. */
  function Shape(e: Expr): Option<seq<nat>> {
    match e
    case Placeholder(_, s) => Some(s)
    case ReduceMax(x, p, _) =>
      var s :- Shape(x);
      Reduced(s, p)
    case ReduceSum(x, p, _) =>
      var s :- Shape(x);
      Reduced(s, p)
    case Sub(a, b, _) =>
      var sa :- Shape(a);
      var sb :- Shape(b);
      Broadcast(sa, sb)
    case Div(a, b, _) =>
      var sa :- Shape(a);
      var sb :- Shape(b);
      Broadcast(sa, sb)
    case Exp(x, _) => Shape(x)
    case Log(x, _) => Shape(x)
  }

  predicate WellShaped(e: Expr) {
    Shape(e).Some?
  }

  function Rank(e: Expr): nat
    requires WellShaped(e)
  {
    |Shape(e).value|
  }

  /**
    A keep-dims reduction over valid axes broadcasts back against the shape
    it came from, in either argument position, and gives that shape again.
   */
  lemma {:induction false} BroadcastAgainstKeepReduced(s: seq<nat>, axes: seq<int>)
    ensures Broadcast(s, KeepReduced(s, axes)) == Some(s)
    ensures Broadcast(KeepReduced(s, axes), s) == Some(s)
  {
    var k := KeepReduced(s, axes);
    assert Ones(0) + s == s;
    assert Ones(0) + k == k;
    forall i | 0 <= i < |s|
      ensures BroadcastDim(s[i], k[i]) == Some(s[i])
      ensures BroadcastDim(k[i], s[i]) == Some(s[i])
    {
    }
    assert BroadcastAligned(s, k).value == s;
    assert BroadcastAligned(k, s).value == s;
  }
}
