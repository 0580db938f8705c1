/** Element types and the shape arithmetic the backend borrows from the tensor
    library: element byte widths, element counts and row-major strides. */
module TensorUtil {

  /** The element types a tensor record can carry. */
  datatype DType = Float32 | Int32 | Bool | Complex64 | String

  /** Bytes one element of a numeric type occupies in native memory; string
      tensors never reach native memory. */
  function BytesPerElement(dtype: DType): (n: nat)
    requires dtype != String
    ensures n == 1 <==> dtype == Bool
    ensures n == 4 <==> dtype == Float32 || dtype == Int32
    ensures n == 8 <==> dtype == Complex64
  {
    match dtype
    case Float32 => 4
    case Int32 => 4
    case Bool => 1
    case Complex64 => 8
  }

  /** Number of elements of a tensor of this shape (1 for a scalar). */
  function SizeFromShape(shape: seq<nat>): nat
  {
    if shape == [] then 1 else shape[0] * SizeFromShape(shape[1..])
  }

  /** A tensor has no elements exactly when some dimension is zero. */
  lemma {:induction false} SizeZeroIff(shape: seq<nat>)
    ensures SizeFromShape(shape) == 0 <==> exists i :: 0 <= i < |shape| && shape[i] == 0
  {
    if shape != [] {
      SizeZeroIff(shape[1..]);
      if SizeFromShape(shape[1..]) == 0 {
        var i :| 0 <= i < |shape[1..]| && shape[1..][i] == 0;
        assert shape[i + 1] == 0;
      }
      if exists i :: 0 <= i < |shape| && shape[i] == 0 {
        var i :| 0 <= i < |shape| && shape[i] == 0;
        if i > 0 {
          assert shape[1..][i - 1] == 0;
        }
      }
    }
  }

  /** The element count of a concatenated shape is the product of the parts'. */
  lemma {:induction false} SizeOfConcat(a: seq<nat>, b: seq<nat>)
    ensures SizeFromShape(a + b) == SizeFromShape(a) * SizeFromShape(b)
  {
    if a != [] {
      assert (a + b)[1..] == a[1..] + b;
      SizeOfConcat(a[1..], b);
    } else {
      assert a + b == b;
    }
  }

  /** Row-major strides, computed as the tensor library does: empty below rank
      2, otherwise one entry per axis but the last, each the running product
      of the dimensions after it. */
  function ComputeStrides(shape: seq<nat>): (strides: seq<nat>)
    ensures |shape| < 2 ==> strides == []
    ensures |shape| >= 2 ==> |strides| == |shape| - 1
    ensures forall i :: 0 <= i < |strides| ==> strides[i] == SizeFromShape(shape[i + 1..])
    decreases |shape|
  {
    if |shape| < 2 then []
    else if |shape| == 2 then
      assert shape[2..] == [];
      [shape[1]]
    else
      var tail := ComputeStrides(shape[1..]);
      assert shape[1..][1..] == shape[2..];
      forall i | 0 <= i < |tail| ensures tail[i] == SizeFromShape(shape[i + 2..]) {
        assert shape[1..][i + 1..] == shape[i + 2..];
      }
      [tail[0] * shape[1]] + tail
  }
}
