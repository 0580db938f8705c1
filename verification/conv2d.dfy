/** The Conv2D adapter: checks the data format, allocates a float32 output of
    the computed shape and hands native ids and geometry to the module. The
    geometry itself (`computeConv2DInfo`) is computed by the tensor library
    and enters as a parameter. */
module Conv2D {
  import opened Wrappers
  import opened TensorUtil
  import opened WasmModule
  import opened Storage
  import opened KernelCommon

  datatype PadType = SamePad | ValidPad | NumberPad | ExplicitPad
  datatype DataFormat = ChannelsLast | ChannelsFirst

  datatype PadInfo = PadInfo(top: nat, right: nat, bottom: nat, left: nat, padType: PadType)

  /** The fields of the tensor library's convolution info the adapter reads. */
  datatype Conv2DInfo = Conv2DInfo(
    filterHeight: nat, filterWidth: nat, padInfo: PadInfo,
    dilationHeight: nat, dilationWidth: nat, strideHeight: nat, strideWidth: nat,
    inChannels: nat, outChannels: nat, outShape: seq<nat>, dataFormat: DataFormat)

  datatype Conv2DError = UnsupportedDataFormat(dataFormat: DataFormat)

  /** Nineteen numeric parameters and no result. */
  const Conv2DSignature: Signature := Signature(VoidReturn, NumberParams(19))

  /** The SAME-padding flag: 1 exactly for SAME padding, otherwise 0. */
  function IsSamePad(padType: PadType): (flag: int)
    ensures flag == 1 <==> padType == SamePad
    ensures flag == 0 <==> padType != SamePad
  {
    if padType == SamePad then 1 else 0
  }

  /** The argument list of the native call, in declared order. */
  function Conv2DArgs(xId: nat, xShape: seq<nat>, filterId: nat, info: Conv2DInfo, outId: nat)
    : (args: seq<Arg>)
    requires |xShape| == 4
    ensures Conforms(args, Conv2DSignature)
    ensures args[0] == Num(xId) && args[4] == Num(filterId) && args[18] == Num(outId)
    ensures args[1] == Num(xShape[0]) && args[2] == Num(xShape[1]) && args[3] == Num(xShape[2])
    ensures args[5] == Num(info.filterHeight) && args[6] == Num(info.filterWidth)
    ensures args[7] == Num(info.padInfo.top) && args[8] == Num(info.padInfo.right)
    ensures args[9] == Num(info.padInfo.bottom) && args[10] == Num(info.padInfo.left)
    ensures args[11] == Num(IsSamePad(info.padInfo.padType))
    ensures args[12] == Num(info.dilationHeight) && args[13] == Num(info.dilationWidth)
    ensures args[14] == Num(info.strideHeight) && args[15] == Num(info.strideWidth)
    ensures args[16] == Num(info.inChannels) && args[17] == Num(info.outChannels)
  {
    var ns := [xId, xShape[0], xShape[1], xShape[2], filterId]
            + [info.filterHeight, info.filterWidth,
               info.padInfo.top, info.padInfo.right, info.padInfo.bottom, info.padInfo.left,
               IsSamePad(info.padInfo.padType)]
            + [info.dilationHeight, info.dilationWidth, info.strideHeight, info.strideWidth,
               info.inChannels, info.outChannels, outId];
    NumArgs(ns)
  }

  /** `conv2d({inputs: {x, filter}, attrs, backend})`. A channels-first
      layout is refused before anything is allocated, leaving the storage as
      it was. Otherwise one float32 output of the computed shape is added and
      the module is called once with the inputs' and the output's native
      ids. */
  function Conv2D(b: Backend, x: TensorInfo, filter: TensorInfo, info: Conv2DInfo)
    : (r: (Backend, Result<TensorInfo, Conv2DError>))
    requires Valid(b)
    requires x.dataId in b.dataIdMap && filter.dataId in b.dataIdMap
    requires |x.shape| == 4
    ensures r.1.Failure? <==> info.dataFormat != ChannelsLast
    ensures r.1.Failure? ==> r.0 == b && r.1.error == UnsupportedDataFormat(info.dataFormat)
    ensures r.1.Success? ==>
      var out := r.1.value;
      && Valid(r.0)
      && AddsOutput(b, r.0, out) && out.shape == info.outShape && out.dtype == Float32
      && NumDataIds(r.0) == NumDataIds(b) + 1
      && NativeId(r.0, out.dataId) in r.0.wasm.registry
      && r.0.wasm.log == MakeOutput(b, info.outShape, Float32, None).0.wasm.log
           + [Invoked(Conv2DFn, Conv2DArgs(NativeId(b, x.dataId), x.shape, NativeId(b, filter.dataId),
                                           info, NativeId(r.0, out.dataId)))]
  {
    var xId := NativeId(b, x.dataId);
    var filterId := NativeId(b, filter.dataId);
    if info.dataFormat != ChannelsLast then
      (b, Failure(UnsupportedDataFormat(info.dataFormat)))
    else
      FreshOutputIsNew(b, info.outShape, Float32);
      var (b1, out) := MakeOutput(b, info.outShape, Float32, None);
      var outId := NativeId(b1, out.dataId);
      var w := Call(b1.wasm, Conv2DFn, Conv2DArgs(xId, x.shape, filterId, info, outId));
      StorageProps.NeutralCallsPreserveValid(b1, w);
      (b1.(wasm := w), Success(out))
  }
}
