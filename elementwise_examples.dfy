/**
 * The kernel's worked examples, run through the modelled prepare and eval
 * phases on freshly allocated tensors of shape [1, 1, n, 1].
 */
module ElementwiseExamples {
  import opened TfLite
  import opened Elementwise

  /** 0.01 as an IEEE-754 single. */
  const ScaleOneHundredth := Float(0x3C23_D70A)

  /** A tensor of the given type and shape whose int8 or bool view holds the given elements. */
  method NewTensor(kind: TensorType, dims: seq<nat>, params: QuantizationParams,
                   bools: seq<bool>, int8s: seq<int8>) returns (t: Tensor)
    ensures fresh(t) && fresh(t.floatData) && fresh(t.boolData) && fresh(t.int8Data)
    ensures t.kind == kind && t.dims == dims && t.params == params
    ensures t.floatData[..] == [] && t.boolData[..] == bools && t.int8Data[..] == int8s
  {
    var floatData := new Float[0];
    var boolData := new bool[|bools|](i requires 0 <= i < |bools| => bools[i]);
    var int8Data := new int8[|int8s|](i requires 0 <= i < |int8s| => int8s[i]);
    t := new Tensor(kind, dims, params, floatData, boolData, int8Data);
  }

  /**
   * Quantized Abs on an int8 tensor whose input and output share scale 0.01
   * and the given zero point. The output is created with the input's shape,
   * as the int8 tests create it. The prepare phase registered for Abs refuses
   * int8 and does not resize the output; the evaluation phase, run anyway,
   * accepts the same tensors and maps every element through QuantizedAbs.
   */
  method RunQuantizedAbs(zeroPoint: int32, values: seq<int8>) returns (prepared: Status, evaluated: Status, outDims: seq<nat>, out: seq<int8>)
    ensures prepared == Error(UnsupportedType) && outDims == [1, 1, |values|, 1]
    ensures evaluated == Ok
    ensures out == MapElements(q => QuantizedAbs(q, Int8Cast(zeroPoint), Int8Cast(zeroPoint)), values)
  {
    var params := QuantizationParams(ScaleOneHundredth, zeroPoint);
    var dims: seq<nat> := [1, 1, |values|, 1];
    var input := NewTensor(Int8, dims, params, [], values);
    var output := NewTensor(Int8, dims, params, [], seq(|values|, _ => 0));
    prepared := Prepare(Abs, Node([input], [output]));
    assert NumElements(dims) == |values| by {
      var n := |values|;
      assert dims[1..] == [1, n, 1] && [1, n, 1][1..] == [n, 1] && [n, 1][1..] == [1];
      assert NumElements([n, 1]) == n * NumElements([1]) == n;
    }
    var math := FloatMath(x => x, x => x, x => x, x => x, x => x, x => x, x => x);
    evaluated := Eval(Abs, math, input, output);
    outDims := output.dims;
    out := output.int8Data[..];
    assert out == out[..|values|];
  }

  /** With zero point 0, -127 and 127 both give 127. */
  method QuantizedAbsExample1() returns (out: seq<int8>)
    ensures out == [127, 0, 0, 127]
  {
    var prepared, evaluated, outDims;
    prepared, evaluated, outDims, out := RunQuantizedAbs(0, [-127, 0, 0, 127]);
  }

  /** With zero point 0, -128 would be 128 and saturates to 127. */
  method QuantizedAbsExample2() returns (out: seq<int8>)
    ensures out == [127, 0, 0, 127]
  {
    var prepared, evaluated, outDims;
    prepared, evaluated, outDims, out := RunQuantizedAbs(0, [-128, 0, 0, 127]);
  }

  /** With zero point -10 on both tensors, -128 is 118 below it and gives -10 + 118. */
  method QuantizedAbsExample3() returns (out: seq<int8>)
    ensures out == [108, 0, 0, 12]
  {
    var prepared, evaluated, outDims;
    prepared, evaluated, outDims, out := RunQuantizedAbs(-10, [-128, 0, 0, 12]);
  }

  /** LogicalNot on a [1, 1, 4, 1] bool tensor: prepare copies the shape, eval negates. */
  method LogicalNotExample() returns (prepared: Status, outDims: seq<nat>, out: seq<bool>)
    ensures prepared == Ok && outDims == [1, 1, 4, 1]
    ensures out == [false, true, false, true]
  {
    var params := QuantizationParams(Float(0), 0);
    var input := NewTensor(Bool, [1, 1, 4, 1], params, [true, false, true, false], []);
    var output := NewTensor(Bool, [], params, [false, false, false, false], []);
    prepared := Prepare(LogicalNot, Node([input], [output]));
    outDims := output.dims;
    assert NumElements(output.dims) == 4;
    var evaluated := LogicalNotEval(input, output);
    out := output.boolData[..];
    assert out == out[..4];
  }

  /**
   * Negating a bool tensor into a second one, then negating that one in
   * place, gives back the original elements.
   */
  method LogicalNotRoundTrip(values: seq<bool>) returns (out: seq<bool>)
    ensures out == values
  {
    var params := QuantizationParams(Float(0), 0);
    var dims: seq<nat> := [|values|];
    assert NumElements(dims) == |values| by {
      assert NumElements(dims[1..]) == 1;
    }
    var input := NewTensor(Bool, dims, params, values, []);
    var output := NewTensor(Bool, dims, params, values, []);
    var first := LogicalNotEval(input, output);
    var second := LogicalNotEval(output, output);
    out := output.boolData[..];
    assert out == out[..|values|];
    LogicalNotTwice(values);
  }
}
