/** The ResizeNearestNeighbor adapter: a float32 output is allocated first;
    an empty input ends there; an input that is not float32 is first cast
    into a temporary, which is disposed once the module has run. */
module ResizeNearestNeighbor {
  import opened Wrappers
  import opened TensorUtil
  import opened WasmModule
  import opened Storage
  import opened StorageProps
  import opened KernelCommon

  datatype ResizeAttrs = ResizeAttrs(alignCorners: bool, halfPixelCenters: bool,
                                     newHeight: nat, newWidth: nat)

  /** Ten numeric parameters and no result. */
  const ResizeSignature: Signature := Signature(VoidReturn, NumberParams(10))

  /** A boolean attribute as the module receives it: 1 for true, 0 for false. */
  function BoolCode(flag: bool): (code: int)
    ensures code == 1 <==> flag
    ensures code == 0 <==> !flag
  {
    if flag then 1 else 0
  }

  /** `[batch, newHeight, newWidth, numChannels]`. */
  function ResizedShape(imageShape: seq<nat>, attrs: ResizeAttrs): (s: seq<nat>)
    requires |imageShape| == 4
    ensures |s| == 4 && s[0] == imageShape[0] && s[3] == imageShape[3]
    ensures s[1] == attrs.newHeight && s[2] == attrs.newWidth
  {
    [imageShape[0], attrs.newHeight, attrs.newWidth, imageShape[3]]
  }

  /** The argument list of the native call, in declared order. */
  function ResizeArgs(xId: nat, imageShape: seq<nat>, attrs: ResizeAttrs, outId: nat): (args: seq<Arg>)
    requires |imageShape| == 4
    ensures Conforms(args, ResizeSignature)
    ensures args[0] == Num(xId) && args[9] == Num(outId)
    ensures args[1..5] == [Num(imageShape[0]), Num(imageShape[1]), Num(imageShape[2]), Num(imageShape[3])]
    ensures args[5..7] == [Num(attrs.newHeight), Num(attrs.newWidth)]
    ensures args[7] == Num(BoolCode(attrs.alignCorners))
    ensures args[8] == Num(BoolCode(attrs.halfPixelCenters))
  {
    [Num(xId), Num(imageShape[0]), Num(imageShape[1]), Num(imageShape[2]), Num(imageShape[3]),
     Num(attrs.newHeight), Num(attrs.newWidth),
     Num(BoolCode(attrs.alignCorners)), Num(BoolCode(attrs.halfPixelCenters)), Num(outId)]
  }

  /** What the module sees on the cast path after the output exists: the
      temporary's allocation and registration, the cast into it, the resize
      reading it, and its release. */
  function CastTrace(off: nat, tmpId: nat, imagesId: nat, size: nat, args: seq<Arg>): (t: seq<Event>)
    ensures |t| == 6
  {
    [Allocated(off, 4 * size), Registered(tmpId, size, off), SubOpRan(CastTo(Float32), imagesId, tmpId),
     Invoked(ResizeNearestNeighborFn, args), Freed(Some(off)), Disposed(tmpId)]
  }

  /** `w'` continues `w` with the cast trace, for a block not live in `w`. */
  ghost predicate CastTraceFrom(w: Wasm, w': Wasm, tmpId: nat, imagesId: nat, size: nat, args: seq<Arg>) {
    exists off :: off !in w.blocks && w'.log == w.log + CastTrace(off, tmpId, imagesId, size, args)
  }

  /** The cast path from the state `b1` holding the output: cast, call,
      dispose. */
  function CastAndCall(b1: Backend, images: TensorInfo, attrs: ResizeAttrs, outId: nat): (b': Backend)
    requires Valid(b1)
    requires images.dataId in b1.dataIdMap
    requires |images.shape| == 4
    ensures Valid(b')
  {
    SubKernelPreservesValid(b1, CastTo(Float32), images.dataId, images.shape, Float32);
    var (b2, casted) := RunSubKernel(b1, CastTo(Float32), images.dataId, images.shape, Float32);
    var w := Call(b2.wasm, ResizeNearestNeighborFn,
                  ResizeArgs(NativeId(b2, casted.dataId), images.shape, attrs, outId));
    StorageProps.NeutralCallsPreserveValid(b2, w);
    StorageProps.DisposePreservesValid(b2.(wasm := w), casted.dataId, false);
    DisposeData(b2.(wasm := w), casted.dataId, false).0
  }

  /** The cast temporary is released by its single non-forced disposal: the
      records and the live blocks end as they were before the cast, and the
      counter has moved past the temporary's two ids. */
  lemma CastTemporaryReleased(b1: Backend, images: TensorInfo, attrs: ResizeAttrs, outId: nat)
    requires Valid(b1)
    requires images.dataId in b1.dataIdMap
    requires |images.shape| == 4
    ensures var b4 := CastAndCall(b1, images, attrs, outId);
      && b4.dataIdMap == b1.dataIdMap
      && b4.wasm.blocks == b1.wasm.blocks
      && b4.dataIdNextNumber == b1.dataIdNextNumber + 2
  {
    SubKernelTrace(b1, CastTo(Float32), images.dataId, images.shape, Float32);
    var (b2, casted) := RunSubKernel(b1, CastTo(Float32), images.dataId, images.shape, Float32);
    var off := b2.dataIdMap[casted.dataId].memoryOffset.value;
    var w := Call(b2.wasm, ResizeNearestNeighborFn, ResizeArgs(NativeId(b2, casted.dataId), images.shape, attrs, outId));
    var b4 := DisposeData(b2.(wasm := w), casted.dataId, false).0;
    assert b4 == CastAndCall(b1, images, attrs, outId);
    assert b4.wasm.blocks == b1.wasm.blocks[off := NumBytes(images.shape, Float32)] - {off};
    assert casted.dataId !in b1.dataIdMap;
  }

  /** The cast path's log, for the block the cast allocated. */
  lemma CastPathLog(b1: Backend, images: TensorInfo, attrs: ResizeAttrs, outId: nat)
    requires Valid(b1)
    requires images.dataId in b1.dataIdMap
    requires |images.shape| == 4
    ensures var r := RunSubKernel(b1, CastTo(Float32), images.dataId, images.shape, Float32);
      var rec := r.0.dataIdMap[r.1.dataId];
      var tmpId := b1.dataIdNextNumber + 1;
      && rec.memoryOffset.Some? && rec.memoryOffset.value !in b1.wasm.blocks
      && CastAndCall(b1, images, attrs, outId).wasm.log
         == b1.wasm.log + CastTrace(rec.memoryOffset.value, tmpId, NativeId(b1, images.dataId),
                                    SizeFromShape(images.shape), ResizeArgs(tmpId, images.shape, attrs, outId))
  {
    SubKernelTrace(b1, CastTo(Float32), images.dataId, images.shape, Float32);
    var r := RunSubKernel(b1, CastTo(Float32), images.dataId, images.shape, Float32);
    var b2, casted := r.0, r.1;
    var rec := b2.dataIdMap[casted.dataId];
    var off := rec.memoryOffset.value;
    var tmpId := rec.id;
    var args := ResizeArgs(tmpId, images.shape, attrs, outId);
    var b3 := b2.(wasm := Call(b2.wasm, ResizeNearestNeighborFn, args));
    var b4 := DisposeData(b3, casted.dataId, false).0;
    assert b4 == CastAndCall(b1, images, attrs, outId);
    var size := SizeFromShape(images.shape);
    var imagesId := NativeId(b1, images.dataId);
    assert NumBytes(images.shape, Float32) == 4 * size;
    var head := [Allocated(off, 4 * size), Registered(tmpId, size, off), SubOpRan(CastTo(Float32), imagesId, tmpId)];
    assert b3.wasm.log == b1.wasm.log + head + [Invoked(ResizeNearestNeighborFn, args)];
    assert b4.wasm.log == b3.wasm.log + [Freed(Some(off)), Disposed(tmpId)];
    assert CastTrace(off, tmpId, imagesId, size, args)
        == head + [Invoked(ResizeNearestNeighborFn, args)] + [Freed(Some(off)), Disposed(tmpId)];
  }

  /** On the cast path the module sees exactly the cast trace, for a block
      that was not live before and a temporary whose native id differs from
      the input's. */
  lemma CastPathTrace(b1: Backend, images: TensorInfo, attrs: ResizeAttrs, outId: nat)
    requires Valid(b1)
    requires images.dataId in b1.dataIdMap
    requires |images.shape| == 4
    ensures var b4 := CastAndCall(b1, images, attrs, outId);
      var tmpId := b1.dataIdNextNumber + 1;
      && tmpId != NativeId(b1, images.dataId)
      && CastTraceFrom(b1.wasm, b4.wasm, tmpId, NativeId(b1, images.dataId), SizeFromShape(images.shape),
                       ResizeArgs(tmpId, images.shape, attrs, outId))
  {
    NativeIdBelow(b1, images.dataId);
    CastPathLog(b1, images, attrs, outId);
    var r := RunSubKernel(b1, CastTo(Float32), images.dataId, images.shape, Float32);
    var off := r.0.dataIdMap[r.1.dataId].memoryOffset.value;
    assert off !in b1.wasm.blocks;
  }

  /** The work after the output is allocated in `b1` under native id
      `outId`. An empty input stops at once. A float32 input is passed
      directly. Any other input is cast into a fresh temporary which the
      module reads, after which the temporary's memory is freed and the
      module told to forget it. Either way no record and no live block is
      added or removed. */
  function ResizeInto(b1: Backend, images: TensorInfo, attrs: ResizeAttrs, outId: nat): (b': Backend)
    requires Valid(b1)
    requires images.dataId in b1.dataIdMap
    requires |images.shape| == 4
    ensures Valid(b')
    ensures b'.dataIdMap == b1.dataIdMap
    ensures b'.wasm.blocks == b1.wasm.blocks
    ensures SizeFromShape(images.shape) == 0 ==> b' == b1
  {
    if SizeFromShape(images.shape) == 0 then
      b1
    else if b1.dataIdMap[images.dataId].dtype == Float32 then
      var w := Call(b1.wasm, ResizeNearestNeighborFn,
                    ResizeArgs(NativeId(b1, images.dataId), images.shape, attrs, outId));
      NeutralCallsPreserveValid(b1, w);
      b1.(wasm := w)
    else
      CastTemporaryReleased(b1, images, attrs, outId);
      CastAndCall(b1, images, attrs, outId)
  }

  /** `resizeNearestNeighbor({inputs: {images}, attrs, backend})`: exactly
      one float32 output of the resized shape is added and nothing else of
      the record map or of native memory survives the call; in particular
      the input record is untouched and a cast temporary leaves no record
      and no live block. */
  function ResizeNearestNeighbor(b: Backend, images: TensorInfo, attrs: ResizeAttrs)
    : (r: (Backend, TensorInfo))
    requires Valid(b)
    requires images.dataId in b.dataIdMap
    requires |images.shape| == 4
    ensures var (b', out) := r;
      var b1 := MakeOutput(b, ResizedShape(images.shape, attrs), Float32, None).0;
      && Valid(b')
      && AddsOutput(b, b', out)
      && out.shape == ResizedShape(images.shape, attrs) && out.dtype == Float32
      && NumDataIds(b') == NumDataIds(b) + 1
      && b'.dataIdMap == b1.dataIdMap
      && b'.wasm.blocks == b1.wasm.blocks
  {
    var outShape := ResizedShape(images.shape, attrs);
    FreshOutputIsNew(b, outShape, Float32);
    var (b1, out) := MakeOutput(b, outShape, Float32, None);
    (ResizeInto(b1, images, attrs, NativeId(b1, out.dataId)), out)
  }

  /** A float32 input is read directly: one resize call naming the input's
      and the output's native ids. */
  lemma ResizeFloatInput(b1: Backend, images: TensorInfo, attrs: ResizeAttrs, outId: nat)
    requires Valid(b1)
    requires images.dataId in b1.dataIdMap
    requires |images.shape| == 4
    requires SizeFromShape(images.shape) != 0 && b1.dataIdMap[images.dataId].dtype == Float32
    ensures ResizeInto(b1, images, attrs, outId).wasm.log
         == b1.wasm.log + [Invoked(ResizeNearestNeighborFn,
                                   ResizeArgs(NativeId(b1, images.dataId), images.shape, attrs, outId))]
  {
  }

  /** Any other non-empty input goes through a cast temporary: the module
      sees the cast trace, whose resize call reads the temporary rather than
      the input and writes the output. */
  lemma ResizeCastInput(b1: Backend, images: TensorInfo, attrs: ResizeAttrs, outId: nat)
    requires Valid(b1)
    requires images.dataId in b1.dataIdMap
    requires |images.shape| == 4
    requires SizeFromShape(images.shape) != 0 && b1.dataIdMap[images.dataId].dtype != Float32
    ensures var tmpId := b1.dataIdNextNumber + 1;
      && tmpId != NativeId(b1, images.dataId)
      && CastTraceFrom(b1.wasm, ResizeInto(b1, images, attrs, outId).wasm, tmpId,
                       NativeId(b1, images.dataId), SizeFromShape(images.shape),
                       ResizeArgs(tmpId, images.shape, attrs, outId))
  {
    CastPathTrace(b1, images, attrs, outId);
  }
}
