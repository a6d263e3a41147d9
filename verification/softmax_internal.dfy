/**
  Construction of a numerically stable softmax or log-softmax graph over a
  symbolic input tensor, for x86 code-generation targets.

  The graph is
    max   = ReduceMax(input)            over the trailing axes, kept as size 1
    shift = input - max
    e     = exp(shift)
    sum   = ReduceSum(e)                same axes and options as max
    out   = shift - log(sum)            (log-softmax)
        or  e / sum                     (softmax)
  so `exp` only ever sees values shifted down by their group's maximum.
 */
module Softmax {
  import opened Wrappers
  import opened MachineInt
  import opened TensorExpr
  import opened SoftmaxAxes

  /** The ISA levels of the x86 code-generation target. */
  datatype X86Isa = AVX | AVX2 | AVX512

  /** The code-generation target found in the code-generation context. */
  datatype CodeGenTarget = X86Target(isa: X86Isa) | OtherTarget

  /** An enforced condition that failed, with its diagnostic. */
  datatype BuildError = EnforceFailed(message: string)

  const UnknownTargetMessage: string := "CodeGen target unknown: not AVX/AVX2/AVX512 !"

  /** The vector width handed to both reductions; it does not depend on the target. */
  const VectorWidth: int := 16

  /**
    The outcome of one build: the output node or the error, and the
    primitive nodes created on the way, in creation order.
   */
  datatype Build = Build(result: Result<Expr, BuildError>, created: seq<Expr>)

  /** Every created node consumes the node created just before it. */
  predicate Chained(created: seq<Expr>) {
    forall i :: 0 < i < |created| ==> created[i - 1] in Operands(created[i])
  }

  /** The requirements the source places on its callers. */
  predicate ValidCall(input: Expr, axis: Int64) {
    && WellShaped(input)
    && Rank(input) <= UINT64_MAX
    && 0 <= axis <= Rank(input)
    && (axis == 0 || ToInt32(axis) < INT32_MAX)
  }

  /** The debug-name suffixes, one per primitive node. */
  const ReduceMaxSuffix: string := "_reduce_max"
  const SubSuffix: string := "_sub"
  const ExpSuffix: string := "_exp"
  const ReduceSumSuffix: string := "_reduce_sum"
  const LogSuffix: string := "_log"
  const SubLogSuffix: string := "_sub_log"
  const DivSuffix: string := "_div"

  /** The options both reductions receive for a softmax starting at `axis`. */
  function SoftmaxReduceParams(input: Expr, axis: Int64): ReduceParams
    requires ValidCall(input, axis)
  {
    ReduceParams(ReduceAxes(axis, Rank(input)), true, VectorWidth, false, FuseDim(axis))
  }

  /**
    Builds softmax (or log-softmax when `logarithmic`) of `input` over the
    axes from `axis` on. A target that is not x86 aborts the build before
    any primitive node exists.
   */
  function SoftmaxInternal(input: Expr, axis: Int64, target: CodeGenTarget, name: string,
                           logarithmic: bool): (b: Build)
    requires ValidCall(input, axis)
    ensures b.result.Failure? <==> !target.X86Target?
    ensures b.result.Failure? ==>
      b.created == [] && b.result.error == EnforceFailed(UnknownTargetMessage)
    ensures b.result.Success? ==>
      && |b.created| == (if logarithmic then 6 else 5)
      && b.result.value == b.created[|b.created| - 1]
    ensures Chained(b.created)
    ensures b.result.Success? ==>
      b.created[0].ReduceMax? && b.created[0].operand == input
  {
    if !target.X86Target? then
      Build(Failure(EnforceFailed(UnknownTargetMessage)), [])
    else
      var params := SoftmaxReduceParams(input, axis);
      var maxElement := ReduceMax(input, params, name + ReduceMaxSuffix);
      var xShift := Sub(input, maxElement, name + SubSuffix);
      var expX := Exp(xShift, name + ExpSuffix);
      var expXSum := ReduceSum(expX, params, name + ReduceSumSuffix);
      if logarithmic then
        var logExpXSum := Log(expXSum, name + LogSuffix);
        var out := Sub(xShift, logExpXSum, name + SubLogSuffix);
        Build(Success(out), [maxElement, xShift, expX, expXSum, logExpXSum, out])
      else
        var out := Div(expX, expXSum, name + DivSuffix);
        Build(Success(out), [maxElement, xShift, expX, expXSum, out])
  }

  /**
    Both reductions get the same options: the trailing axes from `axis`,
    kept dimensions, width 16, the flag off, and the fusion hint of `axis`.
   */
  lemma ReductionsShareParameters(input: Expr, axis: Int64, target: CodeGenTarget, name: string,
                                  logarithmic: bool)
    requires ValidCall(input, axis)
    requires target.X86Target?
    ensures var c := SoftmaxInternal(input, axis, target, name, logarithmic).created;
      && c[0].ReduceMax? && c[3].ReduceSum?
      && c[0].params == c[3].params
      && c[0].params.axes == ReduceAxes(axis, Rank(input))
      && c[0].params.fuseDim == FuseDim(axis)
      && c[0].params.keepDims
      && c[0].params.vectorWidth == 16
      && !c[0].params.extraFlag
  {
  }

  /** `e` is `x - ReduceMax(x)`: its values are shifted down by their group maximum. */
  predicate ShiftedByOwnMax(e: Expr) {
    e.Sub? && e.rhs.ReduceMax? && e.rhs.operand == e.lhs
  }

  /**
    Stability: every exponential the build creates is taken of the input
    shifted by its own maximum, never of the raw input.
   */
  lemma ExpOnlyOfShiftedInput(input: Expr, axis: Int64, target: CodeGenTarget, name: string,
                              logarithmic: bool)
    requires ValidCall(input, axis)
    ensures var c := SoftmaxInternal(input, axis, target, name, logarithmic).created;
      forall i :: 0 <= i < |c| && c[i].Exp? ==>
        && ShiftedByOwnMax(c[i].operand)
        && c[i].operand.lhs == input
        && c[i].operand != input
  {
  }

  /** The normaliser is the sum of exactly the exponential node, over the same axes as the max. */
  lemma SumOverShiftedExponentials(input: Expr, axis: Int64, target: CodeGenTarget, name: string,
                                   logarithmic: bool)
    requires ValidCall(input, axis)
    ensures var c := SoftmaxInternal(input, axis, target, name, logarithmic).created;
      forall i :: 0 <= i < |c| && c[i].ReduceSum? ==>
        c[i].operand.Exp? && ShiftedByOwnMax(c[i].operand.operand)
        && c[i].params == c[i].operand.operand.rhs.params
  {
  }

  /**
    The output reuses the intermediates: log-softmax subtracts the log of
    the sum from the same shifted node, softmax divides the same exponential
    node by the sum. Each primitive kind is created once, the final
    subtraction of log-softmax aside.
   */
  lemma OutputReusesIntermediates(input: Expr, axis: Int64, target: CodeGenTarget, name: string,
                                  logarithmic: bool)
    requires ValidCall(input, axis)
    requires target.X86Target?
    ensures var b := SoftmaxInternal(input, axis, target, name, logarithmic);
      var c := b.created;
      var out := b.result.value;
      && c[1].Sub? && c[2].Exp? && c[3].ReduceSum?
      && (logarithmic ==> out.Sub? && out.lhs == c[1] && out.rhs == c[4]
                          && c[4].Log? && c[4].operand == c[3])
      && (!logarithmic ==> out.Div? && out.lhs == c[2] && out.rhs == c[3])
  {
  }

  /**
    The two branches differ only after the sum: for the same call, the
    first four created nodes are identical whether or not `logarithmic` is
    set.
   */
  lemma BranchesShareIntermediates(input: Expr, axis: Int64, target: CodeGenTarget, name: string)
    requires ValidCall(input, axis)
    requires target.X86Target?
    ensures SoftmaxInternal(input, axis, target, name, true).created[..4]
         == SoftmaxInternal(input, axis, target, name, false).created[..4]
  {
  }

  /** The x86 ISA level does not change the graph: the vector width is a constant. */
  lemma IsaDoesNotMatter(input: Expr, axis: Int64, a: X86Isa, b: X86Isa, name: string,
                         logarithmic: bool)
    requires ValidCall(input, axis)
    ensures SoftmaxInternal(input, axis, X86Target(a), name, logarithmic)
         == SoftmaxInternal(input, axis, X86Target(b), name, logarithmic)
  {
  }

  /** Concatenating a common prefix preserves distinctness of suffixes. */
  lemma PrefixCancels(prefix: string, s: string, t: string)
    requires prefix + s == prefix + t
    ensures s == t
  {
    assert s == (prefix + s)[|prefix|..];
    assert t == (prefix + t)[|prefix|..];
  }

  predicate IsNodeSuffix(s: string) {
    s in [ReduceMaxSuffix, SubSuffix, ExpSuffix, ReduceSumSuffix, LogSuffix, SubLogSuffix, DivSuffix]
  }

  /**
    Every created node is named `name` plus one of the fixed suffixes, and
    no two created nodes share a name.
   */
  lemma NodeNamesArePrefixedAndDistinct(input: Expr, axis: Int64, target: CodeGenTarget,
                                        name: string, logarithmic: bool)
    requires ValidCall(input, axis)
    ensures var c := SoftmaxInternal(input, axis, target, name, logarithmic).created;
      && (forall i :: 0 <= i < |c| ==>
            exists s :: IsNodeSuffix(s) && c[i].name == name + s)
      && (forall i, j :: 0 <= i < j < |c| ==> c[i].name != c[j].name)
  {
    var c := SoftmaxInternal(input, axis, target, name, logarithmic).created;
    var suffixes := if logarithmic
      then [ReduceMaxSuffix, SubSuffix, ExpSuffix, ReduceSumSuffix, LogSuffix, SubLogSuffix]
      else [ReduceMaxSuffix, SubSuffix, ExpSuffix, ReduceSumSuffix, DivSuffix];
    if c != [] {
      assert |c| == |suffixes|;
      forall i | 0 <= i < |c|
        ensures c[i].name == name + suffixes[i] && IsNodeSuffix(suffixes[i])
      {
      }
      forall i, j | 0 <= i < j < |c|
        ensures c[i].name != c[j].name
      {
        assert suffixes[i] != suffixes[j];
        if c[i].name == c[j].name {
          PrefixCancels(name, suffixes[i], suffixes[j]);
        }
      }
    }
  }

  /**
    Because both reductions keep their axes, every binary step broadcasts
    back to the input's shape: the output has exactly the input's shape.
   */
  lemma OutputHasInputShape(input: Expr, axis: Int64, target: CodeGenTarget, name: string,
                            logarithmic: bool)
    requires ValidCall(input, axis)
    requires target.X86Target?
    ensures var out := SoftmaxInternal(input, axis, target, name, logarithmic).result.value;
      Shape(out) == Shape(input)
  {
    var s := Shape(input).value;
    var c := SoftmaxInternal(input, axis, target, name, logarithmic).created;
    var p := SoftmaxReduceParams(input, axis);
    forall k | 0 <= k < |p.axes|
      ensures 0 <= p.axes[k] < |s|
    {
      ReduceAxesMembership(axis, Rank(input), p.axes[k]);
    }
    assert c[0].params == p;
    BroadcastAgainstKeepReduced(s, p.axes);
    assert Shape(c[0]) == Some(KeepReduced(s, p.axes));
    assert Shape(c[1]) == Some(s);
    assert Shape(c[2]) == Some(s);
    assert Shape(c[3]) == Some(KeepReduced(s, p.axes));
  }
}
