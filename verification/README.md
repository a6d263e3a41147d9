# Stable softmax graph construction (Nuphar x86 provider)

A Dafny model of `SoftmaxInternal` from the Nuphar execution provider of
ONNX Runtime, together with its two helpers `ReduceAxes` and `FuseDim`. The
routine builds a small dataflow graph for softmax or log-softmax:
a reduce-max over the trailing axes, a subtraction of that maximum, an
exponential, a reduce-sum, and then either a log and subtraction
(log-softmax) or a division (softmax). It first checks that the
code-generation target is an x86 target and aborts otherwise.

Tensors are symbolic. `TensorExpr.Expr` has one constructor per primitive
and records its operands, its reduction options (axes, keep-dims, vector
width, the extra boolean flag, fusion hint) and its debug name. A build
returns a `Softmax.Build`. It holds the output node or the error, plus the
primitive nodes created, in creation order. So "the target check comes
before any node is built" becomes "a failed build created no node".

Files:
- `wrappers.dfy`: `Option` and `Result`.
- `machine_int.dfy`: 32- and 64-bit integer ranges, and `gsl::narrow_cast` as two's-complement truncation.
- `softmax_axes.dfy`: `ReduceAxes` (function and the push-back loop) and `FuseDim`.
- `tensor_expr.dfy`: the symbolic `Expr` graph and the shape rules used to state that the output has the input's shape.
- `softmax_internal.dfy`: `SoftmaxInternal` and the structural properties of the graph it builds.

## Model

| member | source | states |
|---|---|---|
| MachineInt.ToInt64 | onnxruntime/core/providers/nuphar/mti_x86/math/softmax_internal.cc:21 | the narrowed value is congruent to the input modulo 2^64, so it is the unique int64 with that property, and it is the input itself when the input fits |
| MachineInt.ToInt32 | onnxruntime/core/providers/nuphar/mti_x86/math/softmax_internal.cc:30 | the narrowed value is the unique int32 congruent to the input modulo 2^32, and it is the input itself when the input fits |
| SoftmaxAxes.AxisRange | onnxruntime/core/providers/nuphar/mti_x86/math/softmax_internal.cc:19-24 | the run from lo to hi has length max(0, hi - lo), and entry k is lo + k |
| SoftmaxAxes.ReduceAxes | onnxruntime/core/providers/nuphar/mti_x86/math/softmax_internal.cc:19-24 | length is max(0, size - axis) after narrowing size to int64; entry k is axis + k; every entry fits int64; for sizes that fit int64 the result is empty exactly when axis >= size |
| SoftmaxAxes.CollectReduceAxes | onnxruntime/core/providers/nuphar/mti_x86/math/softmax_internal.cc:19-24 | the push-back loop, with an int64 counter that never overflows, yields exactly the sequence ReduceAxes describes |
| SoftmaxAxes.ReduceAxesMembership | onnxruntime/core/providers/nuphar/mti_x86/math/softmax_internal.cc:21 | an index is a reduction axis if and only if axis <= index < size |
| SoftmaxAxes.ReduceAxesAscending | onnxruntime/core/providers/nuphar/mti_x86/math/softmax_internal.cc:21-22 | the axes are strictly ascending and each is one more than the one before |
| SoftmaxAxes.ReduceAxesIsSuffix | onnxruntime/core/providers/nuphar/mti_x86/math/softmax_internal.cc:19-24 | for 0 <= axis <= size, the axes from `axis` are the full axis list with its first `axis` entries dropped |
| SoftmaxAxes.FuseDim | onnxruntime/core/providers/nuphar/mti_x86/math/softmax_internal.cc:26-32 | axis 0 gives 0; any other axis gives its int32 truncation plus one, which is axis + 1 when the axis fits int32; within int32 the hint is never 1 |
| SoftmaxAxes.FuseDimOrdered | onnxruntime/core/providers/nuphar/mti_x86/math/softmax_internal.cc:26-32 | on axes 0 .. INT32_MAX - 1 the hint preserves and reflects the order of axes, so different axes get different hints |
| TensorExpr.BroadcastAgainstKeepReduced | onnxruntime/core/providers/nuphar/mti_x86/math/softmax_internal.cc:49-50 | a keep-dims reduction result broadcasts against its source shape, on either side, back to that shape; this is why both reductions keep their dimensions |
| Softmax.SoftmaxInternal | onnxruntime/core/providers/nuphar/mti_x86/math/softmax_internal.cc:34-60 | the build fails, with the unknown-target message, exactly when the target is not x86, and then creates no node; on success it creates 6 nodes (log-softmax) or 5 (softmax), the output is the last one, each node consumes the one created before it, and the first is a reduce-max of the original input |
| Softmax.ReductionsShareParameters | onnxruntime/core/providers/nuphar/mti_x86/math/softmax_internal.cc:46-52 | the reduce-max and reduce-sum get identical options: ReduceAxes(axis, rank), keep-dims true, width 16, flag false, fusion hint FuseDim(axis) |
| Softmax.ExpOnlyOfShiftedInput | onnxruntime/core/providers/nuphar/mti_x86/math/softmax_internal.cc:49-51 | every created exponential is of `input - ReduceMax(input)` and never of the raw input |
| Softmax.SumOverShiftedExponentials | onnxruntime/core/providers/nuphar/mti_x86/math/softmax_internal.cc:51-52 | every created reduce-sum sums an exponential of a max-shifted tensor, with the same options as that max |
| Softmax.OutputReusesIntermediates | onnxruntime/core/providers/nuphar/mti_x86/math/softmax_internal.cc:54-59 | log-softmax outputs `shift - Log(sum)` with the same shifted node and sum node; softmax outputs `exp / sum` with the same exponential and sum nodes |
| Softmax.BranchesShareIntermediates | onnxruntime/core/providers/nuphar/mti_x86/math/softmax_internal.cc:49-59 | the first four created nodes are identical for log-softmax and softmax; the branches differ only after the sum |
| Softmax.IsaDoesNotMatter | onnxruntime/core/providers/nuphar/mti_x86/math/softmax_internal.cc:41-47 | any two x86 ISA levels give the same build, because the vector width is the constant 16 |
| Softmax.NodeNamesArePrefixedAndDistinct | onnxruntime/core/providers/nuphar/mti_x86/math/softmax_internal.cc:49-58 | each created node is named `name` plus one of `_reduce_max`, `_sub`, `_exp`, `_reduce_sum`, `_log`, `_sub_log`, `_div`, and no two created nodes share a name |
| Softmax.OutputHasInputShape | onnxruntime/core/providers/nuphar/mti_x86/math/softmax_internal.cc:49-59 | for a valid axis, the output of either branch has exactly the input's shape |

## Left out

- Tensor numerics: the element values of exp, log, division, max and sum are floating-point work done by external primitives. Numeric properties such as "softmax outputs sum to 1" and shift invariance are not stated.
- The bodies of the primitives: `reduce_ops.h`, `unary_ops.h` and `binary_ops.h` are not part of this model. Each primitive is a constructor of `Expr`. The shape rules in `TensorExpr.Shape` are an assumption about those primitives: right-aligned broadcasting, and reduced axes either kept as size 1 or dropped.
- The extra boolean argument of the reductions (passed as `false`) keeps a neutral name, `extraFlag`, because its declaration is not part of this model.
- Target detection: the `dynamic_cast` on the code-generation context becomes the datatype `CodeGenTarget`. `x86_target_info.h` is not part of this model. The three ISA levels come from the diagnostic message.
- The `ORT_ENFORCE` exception becomes a `Failure` result that carries the message.
- The disabled branch that derives the vector width from the target's natural width is dead code. The model uses the constant 16.
- Softmax.SoftmaxInternal: negative axes and axes beyond the rank are excluded by its precondition, because the routine does not check them and the reductions' handling of them is not part of this model.
- SoftmaxAxes.FuseDim: an axis whose int32 truncation is INT32_MAX is excluded, because the `+ 1` then overflows 32-bit signed arithmetic, which is undefined behaviour in C++.
- Node identity: `Expr` values are compared structurally, so sharing one node is stated through the creation trace. It is not stated as pointer identity.
