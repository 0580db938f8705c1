/** The Transform adapter: projective image transforms. Strides travel to the
    module as the bytes of an `Int32Array`; interpolation and fill mode
    travel as small integer codes. */
module Transform {
  import opened Wrappers
  import opened JsSemantics
  import opened ByteEncoding
  import opened TensorUtil
  import opened WasmModule
  import opened Storage
  import opened KernelCommon

  /** Attributes of the operation; `fillValue` is passed through untouched. */
  datatype TransformAttrs = TransformAttrs(interpolation: string, fillMode: string,
                                           fillValue: real, outputShape: Option<seq<nat>>)

  const TransformSignature: Signature := Signature(VoidReturn,
    [NumberParam, NumberParam, BoolParam,
     NumberParam, NumberParam, NumberParam, NumberParam, NumberParam, NumberParam,
     ArrayParam, NumberParam, ArrayParam,
     NumberParam, NumberParam, NumberParam, NumberParam, NumberParam])

  /** Interpolation code: 1 for nearest-neighbour, 2 for anything else. */
  function InterpolationModeId(interpolation: string): (code: int)
    ensures code == 1 <==> interpolation == "nearest"
    ensures code == 2 <==> interpolation != "nearest"
  {
    if interpolation == "nearest" then 1 else 2
  }

  /** Fill-mode code: constant 1, reflect 2, wrap 3, nearest 4; an unknown
      mode falls back to constant. */
  function FillModeId(fillMode: string): (code: int)
    ensures 1 <= code <= 4
    ensures code == 2 <==> fillMode == "reflect"
    ensures code == 3 <==> fillMode == "wrap"
    ensures code == 4 <==> fillMode == "nearest"
  {
    match fillMode
    case "constant" => 1
    case "reflect" => 2
    case "wrap" => 3
    case "nearest" => 4
    case _ => 1
  }

  /** `[batch, outHeight, outWidth, numChannels]`: the requested height and
      width when an output shape is given, the image's otherwise. */
  function OutShape(imageShape: seq<nat>, outputShape: Option<seq<nat>>): (s: seq<nat>)
    requires |imageShape| == 4
    requires outputShape.Some? ==> |outputShape.value| >= 2
    ensures |s| == 4 && s[0] == imageShape[0] && s[3] == imageShape[3]
    ensures outputShape.None? ==> s == imageShape
    ensures outputShape.Some? ==> s[1..3] == outputShape.value[..2]
  {
    var (h, w) := if outputShape.Some? then (outputShape.value[0], outputShape.value[1])
                  else (imageShape[1], imageShape[2]);
    [imageShape[0], h, w, imageShape[3]]
  }

  /** `transforms.shape[0] > 1`: one transform per image rather than one
      for the whole batch. A rank-0 transforms tensor reads `undefined`,
      which is not greater than 1. */
  function IsBatchTransform(transformsShape: seq<nat>): (isBatch: bool)
    ensures isBatch <==> |transformsShape| > 0 && transformsShape[0] > 1
  {
    |transformsShape| > 0 && transformsShape[0] > 1
  }

  /** The argument list of the native call, in declared order: the image's
      and the transforms' native ids, whether there is one transform per
      image, then the shapes, strides and modes the three lemmas below place,
      and last the output's native id. */
  function TransformArgs(imageId: nat, transformsId: nat, transformsShape: seq<nat>,
                         imageShape: seq<nat>, attrs: TransformAttrs, outId: nat): (args: seq<Arg>)
    requires |imageShape| == 4
    requires attrs.outputShape.Some? ==> |attrs.outputShape.value| >= 2
    ensures |args| == 17
    ensures args[0] == Num(imageId) && args[1] == Num(transformsId)
    ensures args[2] == Flag(IsBatchTransform(transformsShape))
    ensures args[16] == Num(outId)
  {
    var outShape := OutShape(imageShape, attrs.outputShape);
    [Num(imageId), Num(transformsId), Flag(IsBatchTransform(transformsShape))]
    + [Num(outShape[0]), Num(outShape[1]), Num(outShape[2]), Num(outShape[3]),
       Num(imageShape[2]), Num(imageShape[1])]
    + [ByteArray(Int32sToBytes(ComputeStrides(imageShape))), Num(|imageShape| - 1),
       ByteArray(Int32sToBytes(ComputeStrides(outShape))), Num(|outShape| - 1)]
    + [Num(InterpolationModeId(attrs.interpolation)), Num(FillModeId(attrs.fillMode)),
       Real(attrs.fillValue), Num(outId)]
  }

  /** Positions 3 to 8: the four output dimensions, then the image's width
      and height (in that order). */
  lemma TransformArgsShape(imageId: nat, transformsId: nat, transformsShape: seq<nat>,
                         imageShape: seq<nat>, attrs: TransformAttrs, outId: nat)
    requires |imageShape| == 4
    requires attrs.outputShape.Some? ==> |attrs.outputShape.value| >= 2
    ensures var args := TransformArgs(imageId, transformsId, transformsShape, imageShape, attrs, outId);
      var outShape := OutShape(imageShape, attrs.outputShape);
      && args[3] == Num(outShape[0]) && args[4] == Num(outShape[1])
      && args[5] == Num(outShape[2]) && args[6] == Num(outShape[3])
      && args[7] == Num(imageShape[2]) && args[8] == Num(imageShape[1])
  {
  }

  /** Positions 9 to 12: the image's strides as the bytes of an
      `Int32Array` and their count, then the output's. */
  lemma TransformArgsStrides(imageId: nat, transformsId: nat, transformsShape: seq<nat>,
                         imageShape: seq<nat>, attrs: TransformAttrs, outId: nat)
    requires |imageShape| == 4
    requires attrs.outputShape.Some? ==> |attrs.outputShape.value| >= 2
    ensures var args := TransformArgs(imageId, transformsId, transformsShape, imageShape, attrs, outId);
      var outShape := OutShape(imageShape, attrs.outputShape);
      && args[9] == ByteArray(Int32sToBytes(ComputeStrides(imageShape)))
      && args[10] == Num(|imageShape| - 1)
      && args[11] == ByteArray(Int32sToBytes(ComputeStrides(outShape)))
      && args[12] == Num(|outShape| - 1)
  {
  }

  /** Positions 13 to 15: the interpolation and fill-mode codes, then the
      fill value. */
  lemma TransformArgsModes(imageId: nat, transformsId: nat, transformsShape: seq<nat>,
                         imageShape: seq<nat>, attrs: TransformAttrs, outId: nat)
    requires |imageShape| == 4
    requires attrs.outputShape.Some? ==> |attrs.outputShape.value| >= 2
    ensures var args := TransformArgs(imageId, transformsId, transformsShape, imageShape, attrs, outId);
      && args[13] == Num(InterpolationModeId(attrs.interpolation))
      && args[14] == Num(FillModeId(attrs.fillMode))
      && args[15] == Real(attrs.fillValue)
  {
  }

  /** The argument list matches the declared signature position by
      position. */
  lemma TransformArgsConform(imageId: nat, transformsId: nat, transformsShape: seq<nat>,
                             imageShape: seq<nat>, attrs: TransformAttrs, outId: nat)
    requires |imageShape| == 4
    requires attrs.outputShape.Some? ==> |attrs.outputShape.value| >= 2
    ensures Conforms(TransformArgs(imageId, transformsId, transformsShape, imageShape, attrs, outId),
                     TransformSignature)
  {
    var args := TransformArgs(imageId, transformsId, transformsShape, imageShape, attrs, outId);
    TransformArgsShape(imageId, transformsId, transformsShape, imageShape, attrs, outId);
    TransformArgsStrides(imageId, transformsId, transformsShape, imageShape, attrs, outId);
    TransformArgsModes(imageId, transformsId, transformsShape, imageShape, attrs, outId);
    var ps := TransformSignature.params;
    forall i | 0 <= i < 17 ensures ArgFits(args[i], ps[i]) {
      if i == 2 {
      } else if i == 9 || i == 11 {
      } else {
        assert args[i].Num? || args[i].Real?;
      }
    }
  }

  /** `transform({inputs: {image, transforms}, attrs, backend})`: one output
      of the image's type and the computed shape is added. */
  function Transform(b: Backend, image: TensorInfo, transforms: TensorInfo, attrs: TransformAttrs)
    : (r: (Backend, TensorInfo))
    requires Valid(b)
    requires image.dataId in b.dataIdMap && transforms.dataId in b.dataIdMap
    requires |image.shape| == 4
    requires attrs.outputShape.Some? ==> |attrs.outputShape.value| >= 2
    ensures Valid(r.0)
    ensures AddsOutput(b, r.0, r.1)
    ensures r.1.shape == OutShape(image.shape, attrs.outputShape) && r.1.dtype == image.dtype
    ensures NumDataIds(r.0) == NumDataIds(b) + 1
  {
    var outShape := OutShape(image.shape, attrs.outputShape);
    var imageId := NativeId(b, image.dataId);
    var transformsId := NativeId(b, transforms.dataId);
    FreshOutputIsNew(b, outShape, image.dtype);
    var mk := MakeOutput(b, outShape, image.dtype, None);
    var outId := NativeId(mk.0, mk.1.dataId);
    var w := Call(mk.0.wasm, TransformFn, TransformArgs(imageId, transformsId, transforms.shape,
                                                        image.shape, attrs, outId));
    StorageProps.NeutralCallsPreserveValid(mk.0, w);
    (mk.0.(wasm := w), mk.1)
  }

  /** After allocating its output the adapter calls the module exactly once,
      with the native ids of image, transforms and output, and does nothing
      else the module can see. */
  lemma TransformCall(b: Backend, image: TensorInfo, transforms: TensorInfo, attrs: TransformAttrs)
    requires Valid(b)
    requires image.dataId in b.dataIdMap && transforms.dataId in b.dataIdMap
    requires |image.shape| == 4
    requires attrs.outputShape.Some? ==> |attrs.outputShape.value| >= 2
    ensures var r := Transform(b, image, transforms, attrs);
      r.0.wasm.log == MakeOutput(b, r.1.shape, image.dtype, None).0.wasm.log
        + [Invoked(TransformFn, TransformArgs(NativeId(b, image.dataId), NativeId(b, transforms.dataId),
                                              transforms.shape, image.shape, attrs,
                                              NativeId(r.0, r.1.dataId)))]
  {
  }

  /** The stride arrays the module receives decode, as `Int32Array`s, to the
      row-major strides of the image and of the output (each truncated to 32
      bits), and each declared stride length is the number of entries
      decoded. */
  lemma TransformStridesDecode(b: Backend, image: TensorInfo, transforms: TensorInfo, attrs: TransformAttrs, outId: nat)
    requires |image.shape| == 4
    requires attrs.outputShape.Some? ==> |attrs.outputShape.value| >= 2
    requires image.dataId in b.dataIdMap && transforms.dataId in b.dataIdMap
    ensures var args := TransformArgs(NativeId(b, image.dataId), NativeId(b, transforms.dataId),
                                      transforms.shape, image.shape, attrs, outId);
      var outShape := OutShape(image.shape, attrs.outputShape);
      && |args[9].bytes| % 4 == 0 && |args[11].bytes| % 4 == 0
      && |BytesToInt32s(args[9].bytes)| == args[10].n == 3
      && |BytesToInt32s(args[11].bytes)| == args[12].n == 3
      && (forall i :: 0 <= i < 3 ==> BytesToInt32s(args[9].bytes)[i] == ToInt32(ComputeStrides(image.shape)[i]))
      && (forall i :: 0 <= i < 3 ==> BytesToInt32s(args[11].bytes)[i] == ToInt32(ComputeStrides(outShape)[i]))
  {
    var outShape := OutShape(image.shape, attrs.outputShape);
    TransformArgsStrides(NativeId(b, image.dataId), NativeId(b, transforms.dataId),
                         transforms.shape, image.shape, attrs, outId);
    Int32sRoundTrip(ComputeStrides(image.shape));
    Int32sRoundTrip(ComputeStrides(outShape));
  }

  /** When one image has fewer than 2^31 elements and its height and width
      are non-zero, the decoded arrays are exactly the strides; the first is
      the element count of one image. */
  lemma TransformStridesExact(imageShape: seq<nat>)
    requires |imageShape| == 4
    requires imageShape[1] >= 1 && imageShape[2] >= 1
    requires SizeFromShape(imageShape[1..]) < TwoTo31
    ensures BytesToInt32s(Int32sToBytes(ComputeStrides(imageShape))) == ComputeStrides(imageShape)
    ensures ComputeStrides(imageShape)[0] == SizeFromShape(imageShape[1..])
  {
    var s := ComputeStrides(imageShape);
    assert imageShape[0 + 1..] == imageShape[1..];
    assert imageShape[1..][1..] == imageShape[2..];
    assert imageShape[2..][1..] == imageShape[3..];
    assert s[0] == imageShape[1] * s[1];
    assert s[1] == imageShape[2] * s[2];
    MulGrows(imageShape[1], s[1]);
    MulGrows(imageShape[2], s[2]);
    Int32sRoundTripExact(s);
  }

  lemma MulGrows(k: nat, x: nat)
    requires k >= 1
    ensures x <= k * x
  {
  }
}
