/**
 * The TensorFlow Lite unary elementwise kernel: the prepare-time validator,
 * the dense evaluator for float and bool tensors, quantized int8 Abs, and the
 * per-operator entry points.
 */
module Elementwise {
  import opened TfLite

  // ---------------------------------------------------------------------------
  // Supported-type predicates and the prepare-time validator
  // ---------------------------------------------------------------------------

  /** The numeric operators accept float32 tensors only. */
  predicate IsNumericSupportedType(t: TensorType) {
    t == Float32
  }

  /** Logical operators accept bool tensors only. */
  predicate IsLogicalSupportedType(t: TensorType) {
    t == Bool
  }

  /** Each predicate accepts exactly one element type, and no type is accepted by both. */
  lemma SupportedTypePredicates(t: TensorType)
    ensures IsNumericSupportedType(t) <==> t == Float32
    ensures IsLogicalSupportedType(t) <==> t == Bool
    ensures !(IsNumericSupportedType(t) && IsLogicalSupportedType(t))
  {
  }

  /**
   * GenericPrepare<IsSupportedType>: one input and one output, of the same
   * type, and a type the operator accepts; then the output takes a copy of
   * the input's shape. Every failure leaves the output tensors as they were.
   */
  method GenericPrepare(node: Node, isSupportedType: TensorType -> bool) returns (status: Status)
    modifies node.outputs
    ensures |node.inputs| != 1 || |node.outputs| != 1 ==> status == Error(ArityMismatch)
    ensures |node.inputs| == 1 && |node.outputs| == 1 ==>
      var input, output := node.inputs[0], node.outputs[0];
      && (input.kind != output.kind ==> status == Error(TypeMismatch))
      && (input.kind == output.kind && !isSupportedType(input.kind) ==> status == Error(UnsupportedType))
      && (input.kind == output.kind && isSupportedType(input.kind) ==>
            status == Ok && output.dims == old(input.dims))
    ensures status != Ok ==> unchanged(node.outputs)
  {
    if |node.inputs| != 1 || |node.outputs| != 1 {
      return Error(ArityMismatch);
    }
    var input, output := node.inputs[0], node.outputs[0];
    if input.kind != output.kind {
      return Error(TypeMismatch);
    }
    if !isSupportedType(input.kind) {
      return Error(UnsupportedType);
    }
    output.dims := input.dims;
    status := Ok;
  }

  // ---------------------------------------------------------------------------
  // Dense evaluator
  // ---------------------------------------------------------------------------

  /**
   * `after` is `outBefore` with its first n positions replaced by f applied to
   * the first n elements of `inBefore`, and its other positions untouched.
   */
  predicate AppliedElementwise<T(==)>(f: T -> T, n: nat, inBefore: seq<T>, outBefore: seq<T>, after: seq<T>) {
    && n <= |inBefore| && n <= |outBefore| && |after| == |outBefore|
    && after[..n] == MapElements(f, inBefore[..n])
    && after[n..] == outBefore[n..]
  }

  /**
   * EvalImpl<T>: refuse an input whose type is not the expected one, otherwise
   * write out[i] = func(in[i]) for every i below the element count. inData and
   * outData are the GetTensorData<T> views of the input and output; they may be
   * the same buffer.
   */
  method EvalImpl<T(==)>(inputType: TensorType, expectedType: TensorType, numElements: nat,
                     inData: array<T>, outData: array<T>, func: T -> T) returns (status: Status)
    requires inputType == expectedType ==> numElements <= inData.Length && numElements <= outData.Length
    modifies outData
    ensures inputType != expectedType ==> status == Error(TypeMismatch) && unchanged(outData)
    ensures inputType == expectedType ==>
      status == Ok && AppliedElementwise(func, numElements, old(inData[..]), old(outData[..]), outData[..])
    ensures inData != outData ==> inData[..] == old(inData[..])
  {
    if inputType != expectedType {
      return Error(TypeMismatch);
    }
    for i := 0 to numElements
      invariant forall k :: 0 <= k < i ==> outData[k] == func(old(inData[k]))
      invariant forall k :: i <= k < inData.Length ==> inData[k] == old(inData[k])
      invariant forall k :: i <= k < outData.Length ==> outData[k] == old(outData[k])
    {
      outData[i] := func(inData[i]);
    }
    assert outData[..numElements] == MapElements(func, old(inData[..])[..numElements]);
    status := Ok;
  }

  /** EvalNumeric: the dense evaluator over float32 tensors. */
  method EvalNumeric(input: Tensor, output: Tensor, floatFunc: Float -> Float) returns (status: Status)
    requires input.kind == Float32 ==>
      NumElements(input.dims) <= input.floatData.Length && NumElements(input.dims) <= output.floatData.Length
    modifies output.floatData
    ensures input.kind != Float32 ==> status == Error(TypeMismatch) && unchanged(output.floatData)
    ensures input.kind == Float32 ==>
      status == Ok && AppliedElementwise(floatFunc, NumElements(input.dims),
                                         old(input.floatData[..]), old(output.floatData[..]), output.floatData[..])
  {
    status := EvalImpl(input.kind, Float32, NumElements(input.dims), input.floatData, output.floatData, floatFunc);
  }

  /** EvalLogical: the dense evaluator over bool tensors. */
  method EvalLogical(input: Tensor, output: Tensor, boolFunc: bool -> bool) returns (status: Status)
    requires input.kind == Bool ==>
      NumElements(input.dims) <= input.boolData.Length && NumElements(input.dims) <= output.boolData.Length
    modifies output.boolData
    ensures input.kind != Bool ==> status == Error(TypeMismatch) && unchanged(output.boolData)
    ensures input.kind == Bool ==>
      status == Ok && AppliedElementwise(boolFunc, NumElements(input.dims),
                                         old(input.boolData[..]), old(output.boolData[..]), output.boolData[..])
  {
    status := EvalImpl(input.kind, Bool, NumElements(input.dims), input.boolData, output.boolData, boolFunc);
  }

  // ---------------------------------------------------------------------------
  // Quantized int8 Abs
  // ---------------------------------------------------------------------------

  /** Clamps v into the int8 range, as std::min(std::max(v, -128), 127). */
  function Saturate(v: int): (r: int8)
    ensures -128 <= v <= 127 <==> r as int == v
    ensures v < -128 ==> r == -128
    ensures v > 127 ==> r == 127
  {
    if v < -128 then -128 else if v > 127 then 127 else v as int8
  }

  function IntAbs(x: int): nat {
    if x < 0 then -x else x
  }

  /** How far the int8 value u lies from v. */
  function Distance(u: int8, v: int): nat {
    IntAbs(u as int - v)
  }

  /** The clamp gives the int8 value closest to v: a value out of range is capped, never wrapped. */
  lemma SaturateNearest(v: int, w: int8)
    ensures Distance(Saturate(v), v) <= Distance(w, v)
  {
  }

  /** Being closest to v among the int8 values determines the clamp of v. */
  lemma SaturateNearestUnique(v: int, w: int8)
    requires forall u: int8 :: Distance(w, v) <= Distance(u, v)
    ensures w == Saturate(v)
  {
    assert Distance(w, v) <= Distance(Saturate(v), v);
  }

  /** The clamp preserves order. */
  lemma SaturateMonotone(a: int, b: int)
    requires a <= b
    ensures Saturate(a) <= Saturate(b)
  {
  }

  /**
   * Reference definition of quantized absolute value with equal scales: the
   * distance of q from the input zero point, measured from the output zero
   * point, saturated to int8.
   */
  function QuantizedAbs(q: int8, inZp: int8, outZp: int8): int8 {
    Saturate(outZp as int + IntAbs(q as int - inZp as int))
  }

  /** The two zero points as the kernel uses them: truncated to int8. */
  function QuantizedAbsFor(input: QuantizationParams, output: QuantizationParams): int8 -> int8 {
    q => QuantizedAbs(q, Int8Cast(input.zeroPoint), Int8Cast(output.zeroPoint))
  }

  /**
   * AbsEvalQuantized<int8_t>: refuse unequal scales, otherwise map every
   * element through QuantizedAbs. The arithmetic is done in 32-bit int, as in
   * the kernel; the int32 type of `val` makes every step overflow-checked.
   */
  method AbsEvalQuantized(input: Tensor, output: Tensor) returns (status: Status)
    requires FloatEq(input.params.scale, output.params.scale) ==>
      NumElements(input.dims) <= input.int8Data.Length && NumElements(input.dims) <= output.int8Data.Length
    modifies output.int8Data
    ensures !FloatEq(input.params.scale, output.params.scale) ==>
      status == Error(ScaleMismatch) && unchanged(output.int8Data)
    ensures FloatEq(input.params.scale, output.params.scale) ==>
      status == Ok && AppliedElementwise(QuantizedAbsFor(input.params, output.params), NumElements(input.dims),
                                         old(input.int8Data[..]), old(output.int8Data[..]), output.int8Data[..])
  {
    if !FloatEq(input.params.scale, output.params.scale) {
      return Error(ScaleMismatch);
    }
    var numElements := NumElements(input.dims);
    var inData, outData := input.int8Data, output.int8Data;
    var inZp: int32 := Int8Cast(input.params.zeroPoint) as int32;
    var outZp: int32 := Int8Cast(output.params.zeroPoint) as int32;
    ghost var f := QuantizedAbsFor(input.params, output.params);
    for i := 0 to numElements
      invariant forall k :: 0 <= k < i ==> outData[k] == f(old(inData[k]))
      invariant forall k :: i <= k < inData.Length ==> inData[k] == old(inData[k])
      invariant forall k :: i <= k < outData.Length ==> outData[k] == old(outData[k])
    {
      var val: int32 := inData[i] as int32 - inZp;
      if val < 0 {
        val := outZp - val;
      } else {
        val := outZp + val;
      }
      var atLeastMin := if val > -128 then val else -128;
      var clamped := if atLeastMin < 127 then atLeastMin else 127;
      outData[i] := clamped as int8;
    }
    assert outData[..numElements] == MapElements(f, old(inData[..])[..numElements]);
    status := Ok;
  }

  // ---------------------------------------------------------------------------
  // Operator entry points
  // ---------------------------------------------------------------------------

  /** The unary elementwise operators this kernel registers. */
  datatype Operator = Abs | Sin | Cos | Log | Sqrt | Rsqrt | Square | LogicalNot

  /**
   * The float scalar functions the operators apply: std::abs, std::sin,
   * std::cos, std::log, std::sqrt, 1/sqrt(f) and f*f. Their numerics are not
   * modelled; they are parameters.
   */
  datatype FloatMath = FloatMath(
    abs: Float -> Float, sin: Float -> Float, cos: Float -> Float, log: Float -> Float,
    sqrt: Float -> Float, rsqrt: Float -> Float, square: Float -> Float)

  /** The float function a numeric operator applies. */
  function FloatFunction(op: Operator, math: FloatMath): Float -> Float
    requires op != LogicalNot
  {
    match op
    case Abs => math.abs
    case Sin => math.sin
    case Cos => math.cos
    case Log => math.log
    case Sqrt => math.sqrt
    case Rsqrt => math.rsqrt
    case Square => math.square
  }

  /** The supported-type predicate each operator is registered with. */
  predicate PrepareAccepts(op: Operator, t: TensorType) {
    if op == LogicalNot then IsLogicalSupportedType(t) else IsNumericSupportedType(t)
  }

  /**
   * Prepare accepts exactly one element type per operator: bool for LogicalNot
   * and float32 for all others, Abs included, so an int8 Abs is refused here
   * although AbsEval has an int8 path.
   */
  lemma PrepareAcceptsExactly(op: Operator, t: TensorType)
    ensures PrepareAccepts(op, t) <==> t == (if op == LogicalNot then Bool else Float32)
    ensures op == Abs ==> !PrepareAccepts(op, Int8)
  {
  }

  /** The prepare phase registered for an operator. */
  method Prepare(op: Operator, node: Node) returns (status: Status)
    modifies node.outputs
    ensures |node.inputs| != 1 || |node.outputs| != 1 ==> status == Error(ArityMismatch)
    ensures |node.inputs| == 1 && |node.outputs| == 1 ==>
      var input, output := node.inputs[0], node.outputs[0];
      && (input.kind != output.kind ==> status == Error(TypeMismatch))
      && (input.kind == output.kind && !PrepareAccepts(op, input.kind) ==> status == Error(UnsupportedType))
      && (input.kind == output.kind && PrepareAccepts(op, input.kind) ==>
            status == Ok && output.dims == old(input.dims))
    ensures status != Ok ==> unchanged(node.outputs)
  {
    status := GenericPrepare(node, t => PrepareAccepts(op, t));
  }

  /** The element buffers an evaluation of this input type reads and writes hold the input's elements. */
  predicate BuffersHoldElements(input: Tensor, output: Tensor)
    reads input
  {
    var n := NumElements(input.dims);
    && (input.kind == Float32 ==> n <= input.floatData.Length && n <= output.floatData.Length)
    && (input.kind == Bool ==> n <= input.boolData.Length && n <= output.boolData.Length)
    && (input.kind == Int8 ==> n <= input.int8Data.Length && n <= output.int8Data.Length)
  }

  /**
   * AbsEval: float32 goes to the dense evaluator with abs, int8 to quantized
   * Abs, and any other type is refused without touching the output.
   */
  method AbsEval(input: Tensor, output: Tensor, abs: Float -> Float) returns (status: Status)
    requires BuffersHoldElements(input, output)
    modifies output.floatData, output.int8Data
    ensures input.kind == Float32 ==>
      && status == Ok
      && AppliedElementwise(abs, NumElements(input.dims),
                            old(input.floatData[..]), old(output.floatData[..]), output.floatData[..])
      && unchanged(output.int8Data)
    ensures input.kind == Int8 ==>
      && (!FloatEq(input.params.scale, output.params.scale) ==> status == Error(ScaleMismatch) && unchanged(output.int8Data))
      && (FloatEq(input.params.scale, output.params.scale) ==>
            status == Ok && AppliedElementwise(QuantizedAbsFor(input.params, output.params), NumElements(input.dims),
                                               old(input.int8Data[..]), old(output.int8Data[..]), output.int8Data[..]))
      && unchanged(output.floatData)
    ensures input.kind != Float32 && input.kind != Int8 ==>
      status == Error(UnsupportedType) && unchanged(output.floatData) && unchanged(output.int8Data)
  {
    match input.kind
    case Float32 =>
      status := EvalNumeric(input, output, abs);
    case Int8 =>
      status := AbsEvalQuantized(input, output);
    case _ =>
      status := Error(UnsupportedType);
  }

  /** Boolean negation, the scalar function of LogicalNot. */
  function Not(v: bool): bool {
    !v
  }

  /** LogicalNotEval: the dense evaluator over bool tensors with negation. */
  method LogicalNotEval(input: Tensor, output: Tensor) returns (status: Status)
    requires input.kind == Bool ==>
      NumElements(input.dims) <= input.boolData.Length && NumElements(input.dims) <= output.boolData.Length
    modifies output.boolData
    ensures input.kind != Bool ==> status == Error(TypeMismatch) && unchanged(output.boolData)
    ensures input.kind == Bool ==>
      && status == Ok
      && AppliedElementwise(Not, NumElements(input.dims), old(input.boolData[..]), old(output.boolData[..]), output.boolData[..])
      && forall i :: 0 <= i < NumElements(input.dims) ==> output.boolData[i] == !old(input.boolData[i])
  {
    status := EvalLogical(input, output, Not);
    if input.kind == Bool {
      forall i | 0 <= i < NumElements(input.dims)
        ensures output.boolData[i] == !old(input.boolData[i])
      {
        assert output.boolData[..NumElements(input.dims)][i] == output.boolData[i];
      }
    }
  }

  /**
   * The evaluation phase registered for an operator: Abs dispatches on the
   * element type, LogicalNot negates bools, the others apply their float function.
   */
  method Eval(op: Operator, math: FloatMath, input: Tensor, output: Tensor) returns (status: Status)
    requires BuffersHoldElements(input, output)
    modifies output.floatData, output.boolData, output.int8Data
    ensures op == Abs && input.kind == Int8 ==>
      && (!FloatEq(input.params.scale, output.params.scale) ==> status == Error(ScaleMismatch) && unchanged(output.int8Data))
      && (FloatEq(input.params.scale, output.params.scale) ==>
            status == Ok && AppliedElementwise(QuantizedAbsFor(input.params, output.params), NumElements(input.dims),
                                               old(input.int8Data[..]), old(output.int8Data[..]), output.int8Data[..]))
    ensures op == Abs && input.kind != Float32 && input.kind != Int8 ==> status == Error(UnsupportedType)
    ensures op == LogicalNot ==>
      && (input.kind != Bool ==> status == Error(TypeMismatch))
      && (input.kind == Bool ==>
            status == Ok && AppliedElementwise(Not, NumElements(input.dims),
                                               old(input.boolData[..]), old(output.boolData[..]), output.boolData[..]))
    ensures op != LogicalNot && op != Abs && input.kind != Float32 ==> status == Error(TypeMismatch)
    ensures op != LogicalNot && input.kind == Float32 ==>
      status == Ok && AppliedElementwise(FloatFunction(op, math), NumElements(input.dims),
                                         old(input.floatData[..]), old(output.floatData[..]), output.floatData[..])
    ensures op != LogicalNot && input.kind == Float32 ==> unchanged(output.int8Data)
    ensures op == Abs && input.kind == Int8 ==> unchanged(output.floatData)
    ensures op != LogicalNot ==> unchanged(output.boolData)
    ensures op == LogicalNot ==> unchanged(output.floatData) && unchanged(output.int8Data)
    ensures status != Ok ==> unchanged(output.floatData) && unchanged(output.boolData) && unchanged(output.int8Data)
  {
    match op
    case Abs => status := AbsEval(input, output, math.abs);
    case LogicalNot => status := LogicalNotEval(input, output);
    case _ => status := EvalNumeric(input, output, FloatFunction(op, math));
  }

  // ---------------------------------------------------------------------------
  // Properties of the specification
  // ---------------------------------------------------------------------------

  /** Negating every element twice gives back the input. */
  lemma LogicalNotTwice(s: seq<bool>)
    ensures MapElements(Not, MapElements(Not, s)) == s
  {
    MapInvolution(Not, s);
  }

  /**
   * Quantized Abs is what the integer branches compute: for a negative
   * distance d from the input zero point the kernel forms outZp - d, otherwise
   * outZp + d, and saturates; the distance lies in [-255, 255].
   */
  lemma QuantizedAbsBranches(q: int8, inZp: int8, outZp: int8)
    ensures var d := q as int - inZp as int;
      && -255 <= d <= 255
      && QuantizedAbs(q, inZp, outZp) == Saturate(if d < 0 then outZp as int - d else outZp as int + d)
  {
  }

  /** The input zero point maps to the output zero point. */
  lemma QuantizedAbsOfZeroPoint(inZp: int8, outZp: int8)
    ensures QuantizedAbs(inZp, inZp, outZp) == outZp
  {
  }

  /** Quantized Abs is symmetric about the input zero point. */
  lemma QuantizedAbsSymmetric(inZp: int8, outZp: int8, d: int)
    requires -128 <= inZp as int + d <= 127 && -128 <= inZp as int - d <= 127
    ensures QuantizedAbs((inZp as int + d) as int8, inZp, outZp) == QuantizedAbs((inZp as int - d) as int8, inZp, outZp)
  {
  }

  /**
   * The result never lies below the output zero point (its real value is never
   * negative), and it grows with the distance from the input zero point.
   */
  lemma QuantizedAbsOrder(q1: int8, q2: int8, inZp: int8, outZp: int8)
    ensures QuantizedAbs(q1, inZp, outZp) >= outZp
    ensures IntAbs(q1 as int - inZp as int) <= IntAbs(q2 as int - inZp as int) ==>
      QuantizedAbs(q1, inZp, outZp) <= QuantizedAbs(q2, inZp, outZp)
  {
  }

  /** The real value a stored value q stands for under (scale, zeroPoint). */
  function Dequantize(q: int8, scale: real, zeroPoint: int8): real {
    scale * (q as real - zeroPoint as real)
  }

  function RealAbs(x: real): real {
    if x < 0.0 then -x else x
  }

  /**
   * With equal scales the kernel computes the absolute value of the real
   * number: unless the result saturates, the output dequantizes to |x| where x
   * is the input's real value; when it saturates, it dequantizes to less than |x|.
   */
  lemma QuantizedAbsDequantizes(q: int8, inZp: int8, outZp: int8, scale: real)
    requires scale > 0.0
    ensures outZp as int + IntAbs(q as int - inZp as int) <= 127 ==>
      Dequantize(QuantizedAbs(q, inZp, outZp), scale, outZp) == RealAbs(Dequantize(q, scale, inZp))
    ensures outZp as int + IntAbs(q as int - inZp as int) > 127 ==>
      Dequantize(QuantizedAbs(q, inZp, outZp), scale, outZp) < RealAbs(Dequantize(q, scale, inZp))
  {
  }
}
