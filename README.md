# TensorFlow Lite unary elementwise kernel, in Dafny

This project models the unary elementwise kernel of TensorFlow Lite
(`tensorflow/lite/kernels/elementwise.cc`). The kernel provides the operators
Abs, Sin, Cos, Log, Sqrt, Rsqrt, Square and LogicalNot. Each operator has two
phases:

- **Prepare** (`GenericPrepare`). It checks that the node has one input and one
  output and that both have the same element type. It then checks that type
  against the operator's predicate: float32 only for the numeric operators,
  bool only for LogicalNot. On success it gives the output a copy of the
  input's shape.
- **Eval.** The dense evaluator (`EvalImpl`) first checks the input's type,
  then writes `out[i] = f(in[i])` for every element. Abs dispatches on the
  element type. Float32 goes to the dense evaluator. Int8 goes to quantized
  Abs, which refuses unequal scales and otherwise writes
  `clamp(outZp + |in[i] - inZp|, -128, 127)`. Any other type is refused.

Files:

- `tflite.dfy`, module `TfLite`: the runtime types the kernel sees.
  - Element-type tags and a status with the error kind kept as data.
  - `int8` and `int32` as newtypes; `Int8Cast` is the truncating
    `static_cast<int8_t>`.
  - `Float`, an IEEE-754 single kept as its bit pattern, and `FloatEq`, the
    float `==` (NaN equals nothing, +0 equals -0).
  - Quantization parameters, and the shape element count `NumElements`.
  - The pointwise sequence map `MapElements` that specifies the evaluators.
  - The `Tensor` class and `Node`.
- `elementwise.dfy`, module `Elementwise`: the kernel.
  - The prepare phase, which changes only the output's `dims`.
  - The evaluators, written as loops over arrays. Each is proved against
    `MapElements` and leaves the elements past the count untouched.
  - The reference definition `QuantizedAbs`, and the properties of quantized
    Abs.
- `elementwise_examples.dfy`, module `ElementwiseExamples`: the worked examples
  of `elementwise_test.cc`. Each allocates fresh tensors and runs the modelled
  prepare and eval phases on them.

A tensor is a class. Its type tag, quantization parameters and buffers are
constants, and its shape `dims` is the field that prepare rewrites. The
runtime reads one untyped buffer through `GetTensorData<T>`. The model gives
each element type the kernel reads its own array instead: `floatData`,
`boolData` and `int8Data`. Only the view that matches the tensor's type holds
its elements. Input and output may share a buffer: every evaluator is stated
against the input's elements as they were before the call, and the examples
negate a bool tensor in place.

Points where the code behaves in a way worth noting, modelled as written:

- **Prepare rejects int8 for Abs.** The int8 tests (elementwise_test.cc:156-199)
  expect quantized Abs to run. But Register_ABS prepares with
  `IsNumericSupportedType` (elementwise.cc:161), which accepts float32 only,
  while `AbsEval` has an int8 path (elementwise.cc:116-118). The model keeps the
  two phases separate, as written. `PrepareAcceptsExactly` and
  `RunQuantizedAbs` show that prepare refuses int8 while eval computes the
  tests' values.
- **Prepare checks arity and types.** `GenericPrepare` checks that there is one
  input and one output and that their types agree (elementwise.cc:40-44), and
  returns an error otherwise: `ArityMismatch` and `TypeMismatch` in the model.
- **The dense evaluator checks the input type.** `EvalImpl` checks the input's
  type (elementwise.cc:59), so the model returns `TypeMismatch` and writes
  nothing. Neither the code nor the model checks the output's type at eval
  time.
- **The zero-point comment is not a check.** The comment at
  elementwise.cc:84-86 says the output zero point must be smaller than the
  input's. The code never checks this, and the model adds no such check.
  `QuantizedAbsExample2` shows an output that saturates with equal zero points.

## Model

| member | source | states |
|---|---|---|
| `TfLite.Int8Cast` | tensorflow/lite/kernels/elementwise.cc:93-94 | the zero point cast to int8 is congruent to the int32 value modulo 256, and equal to it when it is in [-128, 127] |
| `TfLite.FloatEqProperties` | tensorflow/lite/kernels/elementwise.cc:87 | the scale comparison is reflexive exactly on non-NaN values, symmetric and transitive, and a NaN equals nothing, so a NaN scale on either tensor never passes the equal-scale check |
| `TfLite.NumElements` | tensorflow/lite/kernels/elementwise.cc:60 | a shape holds no element exactly when one dimension is 0; a shape of all ones (or a scalar) holds one |
| `TfLite.MapElements` | tensorflow/lite/kernels/elementwise.cc:63-65 | the result has the input's length and holds f(s[i]) at every position i |
| `Elementwise.GenericPrepare` | tensorflow/lite/kernels/elementwise.cc:39-52 | arity other than 1/1 gives ArityMismatch; differing input/output types give TypeMismatch; a type the predicate rejects gives UnsupportedType; every failure leaves the outputs unchanged; on success the output dims equal the input dims |
| `Elementwise.EvalImpl` | tensorflow/lite/kernels/elementwise.cc:54-67 | an input of the wrong type gives TypeMismatch and writes nothing; otherwise Ok, out[i] = func(in[i]) for i below the count (in-place allowed), later positions untouched, a separate input buffer unchanged, nothing written when the count is 0 |
| `Elementwise.EvalNumeric` | tensorflow/lite/kernels/elementwise.cc:69-72 | the dense evaluator on float32 views: TypeMismatch for non-float input, otherwise the pointwise map |
| `Elementwise.EvalLogical` | tensorflow/lite/kernels/elementwise.cc:74-77 | the dense evaluator on bool views: TypeMismatch for non-bool input, otherwise the pointwise map |
| `Elementwise.SaturateNearest` | tensorflow/lite/kernels/elementwise.cc:102-104 | the clamp of v is an int8 value at least as close to v as every other int8 value: out-of-range values are capped at -128 or 127, never wrapped |
| `Elementwise.SaturateNearestUnique` | tensorflow/lite/kernels/elementwise.cc:102-104 | any int8 value that is closest to v is the clamp of v, so the clamp is the only closest value |
| `Elementwise.SaturateMonotone` | tensorflow/lite/kernels/elementwise.cc:102-104 | the clamp preserves order: a <= b gives Saturate(a) <= Saturate(b) |
| `Elementwise.AbsEvalQuantized` | tensorflow/lite/kernels/elementwise.cc:79-108 | unequal scales give ScaleMismatch and write nothing; otherwise every element becomes QuantizedAbs of it under the truncated zero points, later positions untouched; the 32-bit intermediate never overflows |
| `Elementwise.QuantizedAbsBranches` | tensorflow/lite/kernels/elementwise.cc:95-105 | the distance from the input zero point lies in [-255, 255], and the kernel's two branches (outZp - d for negative d, outZp + d otherwise) both give clamp(outZp + abs(d)) |
| `Elementwise.QuantizedAbsOfZeroPoint` | tensorflow/lite/kernels/elementwise.cc:96-101 | the input zero point maps to the output zero point |
| `Elementwise.QuantizedAbsSymmetric` | tensorflow/lite/kernels/elementwise.cc:96-101 | inZp + d and inZp - d give the same output |
| `Elementwise.QuantizedAbsOrder` | tensorflow/lite/kernels/elementwise.cc:95-105 | the output never lies below the output zero point, and it does not decrease as the distance from the input zero point grows |
| `Elementwise.QuantizedAbsDequantizes` | tensorflow/lite/kernels/elementwise.cc:84-106 | with a common positive scale, an unsaturated output dequantizes to the absolute value of the input's real value, and a saturated one to less than it |
| `Elementwise.SupportedTypePredicates` | tensorflow/lite/kernels/elementwise.cc:29-35 | IsNumericSupportedType accepts exactly float32, IsLogicalSupportedType exactly bool, and no type is accepted by both |
| `Elementwise.PrepareAcceptsExactly` | tensorflow/lite/kernels/elementwise.cc:158-220 | prepare accepts bool for LogicalNot and float32 for every other operator, and nothing else; int8 is refused for Abs |
| `Elementwise.Prepare` | tensorflow/lite/kernels/elementwise.cc:158-220 | each operator's prepare phase is GenericPrepare with its registered predicate (logical for LogicalNot, numeric for the others), with the outcomes listed for GenericPrepare |
| `Elementwise.AbsEval` | tensorflow/lite/kernels/elementwise.cc:110-125 | float32 input gives the dense map with abs and leaves the int8 view alone; int8 input gives quantized Abs and leaves the float view alone; any other type gives UnsupportedType and writes nothing |
| `Elementwise.LogicalNotEval` | tensorflow/lite/kernels/elementwise.cc:151-153 | a non-bool input gives TypeMismatch and writes nothing; otherwise every output element is the negation of the input element |
| `Elementwise.Eval` | tensorflow/lite/kernels/elementwise.cc:110-153 | per operator: Abs as AbsEval, LogicalNot as LogicalNotEval, and Sin, Cos, Log, Sqrt, Rsqrt and Square as the dense float map of their function (TypeMismatch for non-float input); the views of other element types stay untouched, and a failure writes nothing |
| `Elementwise.LogicalNotTwice` | tensorflow/lite/kernels/elementwise.cc:151-153 | negating every element twice gives back the input |
| `ElementwiseExamples.RunQuantizedAbs` | tensorflow/lite/kernels/elementwise.cc:158-164 | for an int8 Abs node, the registered prepare refuses the type and does not resize the output, whose shape stays the input's, while eval accepts the same tensors, returns Ok and maps every element through QuantizedAbs |
| `ElementwiseExamples.QuantizedAbsExample1` | tensorflow/lite/kernels/elementwise_test.cc:156-169 | scale 0.01, zero point 0: {-127, 0, 0, 127} gives {127, 0, 0, 127} |
| `ElementwiseExamples.QuantizedAbsExample2` | tensorflow/lite/kernels/elementwise_test.cc:171-184 | scale 0.01, zero point 0: {-128, 0, 0, 127} gives {127, 0, 0, 127}, with -128 saturating |
| `ElementwiseExamples.QuantizedAbsExample3` | tensorflow/lite/kernels/elementwise_test.cc:186-199 | scale 0.01, zero point -10: {-128, 0, 0, 12} gives {108, 0, 0, 12} |
| `ElementwiseExamples.LogicalNotExample` | tensorflow/lite/kernels/elementwise_test.cc:147-154 | LogicalNot on shape [1, 1, 4, 1]: prepare succeeds and copies the shape, and {true, false, true, false} gives {false, true, false, true} |
| `ElementwiseExamples.LogicalNotRoundTrip` | tensorflow/lite/kernels/elementwise.cc:151-153 | negating a bool tensor into another, then negating that one in place, restores the original elements |

## Left out

- Float numerics. The scalar functions (std::abs, sin, cos, log, sqrt, the
  reciprocal square root and f*f) are opaque parameters of type
  `Float -> Float`, gathered in `FloatMath`. The float tests are not modelled:
  Sin through Square compare approximately, and Abs compares exactly
  (elementwise_test.cc:107-118), but std::abs is an opaque parameter here.
- Scales are compared with IEEE-754 `==` on their bit patterns. No
  arithmetic is done on them. `QuantizedAbsDequantizes` reasons with a
  mathematical real scale.
- Host runtime plumbing is not modelled: TfLiteContext, GetInput/GetOutput,
  the wording of ReportError and printf messages, and the allocation done by
  ResizeTensor. A failed allocation in ResizeTensor is not modelled either, so
  a successful prepare always reports Ok.
- The registration tables (elementwise.cc:158-220) are modelled only by the
  prepare predicate and eval dispatch of each operator. Their null init and
  free hooks have no effect and are not modelled.
- Eval gets its input and output tensors directly. Like the kernel, it does
  not check the arity again.
- `AbsEvalQuantized` is a template. Only its int8 instance exists in the
  kernel, and only that instance is modelled.
- `AbsEvalQuantized` uses the input's element count. It does not model
  MatchingElementsSize's failure when the input and output flat sizes differ,
  or a 32-bit overflow of that count (elementwise.cc:89-90 keeps it in an `int`).
- Dimensions are natural numbers. NumElements is an unbounded product, so a
  64-bit overflow of the element count is not modelled.
- Typed views are separate arrays in the model. Reading one tensor's buffer
  through two different element types (a reinterpreting union) is not
  modelled.
- Int8Cast truncates modulo 256. This is what C++20 specifies and what earlier
  compilers do in practice (earlier standards leave it to the implementation).
