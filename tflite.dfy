/**
 * The parts of the TensorFlow Lite runtime that the elementwise kernel sees:
 * element types, status codes, fixed-width integers, 32-bit floats as bit
 * patterns, quantization parameters and tensors.
 */
module TfLite {

  /** TfLiteType: the runtime element-type tag of a tensor. */
  datatype TensorType =
    | NoType | Float32 | Int32 | UInt8 | Int64 | String | Bool | Int16 | Complex64 | Int8 | Float16

  /** Why an operation refused to run. The runtime reports all of them as kTfLiteError. */
  datatype ErrorKind =
    | ArityMismatch     // NumInputs/NumOutputs is not 1
    | TypeMismatch      // two element types that had to agree do not
    | UnsupportedType   // the operator does not handle this element type
    | ScaleMismatch     // quantized Abs with different input and output scales

  /** TfLiteStatus, with the reason of an error kept as data. */
  datatype Status = Ok | Error(kind: ErrorKind)

  newtype int8 = x: int | -0x80 <= x < 0x80
  newtype int32 = x: int | -0x8000_0000 <= x < 0x8000_0000

  /** static_cast<int8_t> of a 32-bit integer: keeps the low eight bits, read as two's complement. */
  function Int8Cast(x: int32): (r: int8)
    ensures (r as int - x as int) % 256 == 0
    ensures -128 <= x < 128 ==> r as int == x as int
  {
    var m := x as int % 256;
    if m < 128 then m as int8 else (m - 256) as int8
  }

  /** An IEEE-754 single-precision value, kept as its bit pattern. */
  datatype Float = Float(bits: bv32)

  predicate IsNaN(x: Float) {
    x.bits & 0x7F80_0000 == 0x7F80_0000 && x.bits & 0x007F_FFFF != 0
  }

  predicate IsZero(x: Float) {
    x.bits & 0x7FFF_FFFF == 0
  }

  /** The float `==` of C++: NaN equals nothing, +0 equals -0, otherwise the bit patterns agree. */
  predicate FloatEq(a: Float, b: Float) {
    !IsNaN(a) && !IsNaN(b) && (a == b || (IsZero(a) && IsZero(b)))
  }

  /** FloatEq is an equivalence on the non-NaN values, and a NaN is equal to nothing. */
  lemma FloatEqProperties(a: Float, b: Float, c: Float)
    ensures FloatEq(a, a) <==> !IsNaN(a)
    ensures FloatEq(a, b) <==> FloatEq(b, a)
    ensures FloatEq(a, b) && FloatEq(b, c) ==> FloatEq(a, c)
    ensures IsNaN(a) ==> !FloatEq(a, b) && !FloatEq(b, a)
  {
  }

  /** TfLiteQuantizationParams: real value = scale * (stored value - zeroPoint). */
  datatype QuantizationParams = QuantizationParams(scale: Float, zeroPoint: int32)

  /**
   * NumElements of a shape: the product of its dimensions (1 for a scalar).
   * A tensor holds no element exactly when one of its dimensions is 0.
   */
  function NumElements(dims: seq<nat>): (n: nat)
    ensures n == 0 <==> exists i :: 0 <= i < |dims| && dims[i] == 0
    ensures (forall i :: 0 <= i < |dims| ==> dims[i] == 1) ==> n == 1
  {
    if dims == [] then 1 else dims[0] * NumElements(dims[1..])
  }

  /** The sequence obtained by applying f to every element of s, position by position. */
  function MapElements<T>(f: T -> T, s: seq<T>): (r: seq<T>)
    ensures |r| == |s|
    ensures forall i :: 0 <= i < |s| ==> r[i] == f(s[i])
  {
    if s == [] then [] else [f(s[0])] + MapElements(f, s[1..])
  }

  /** Mapping an involution twice gives back the original sequence. */
  lemma MapInvolution<T>(f: T -> T, s: seq<T>)
    requires forall x :: f(f(x)) == x
    ensures MapElements(f, MapElements(f, s)) == s
  {
  }

  /**
   * A TfLiteTensor as the kernel uses it. The type tag, the quantization
   * parameters and the buffers are fixed; the shape is what Prepare rewrites.
   * The runtime's buffer is an untyped union read through GetTensorData<T>;
   * here each element type the kernel reads has its own view, and only the
   * view that matches `kind` carries the tensor's elements.
   */
  class Tensor {
    const kind: TensorType
    var dims: seq<nat>
    const params: QuantizationParams
    const floatData: array<Float>
    const boolData: array<bool>
    const int8Data: array<int8>

    constructor (kind: TensorType, dims: seq<nat>, params: QuantizationParams,
                 floatData: array<Float>, boolData: array<bool>, int8Data: array<int8>)
      ensures this.kind == kind && this.dims == dims && this.params == params
      ensures this.floatData == floatData && this.boolData == boolData && this.int8Data == int8Data
    {
      this.kind := kind;
      this.dims := dims;
      this.params := params;
      this.floatData := floatData;
      this.boolData := boolData;
      this.int8Data := int8Data;
    }
  }

  /** A TfLiteNode: the tensors an operator instance reads and writes. */
  datatype Node = Node(inputs: seq<Tensor>, outputs: seq<Tensor>)
}
