/** The NonMaxSuppressionV3 adapter: the module selects boxes and leaves
    three result buffers in its memory; the adapter frees the two it does
    not need and wraps the selected-indices buffer, without copying it, as
    the output tensor. */
module NonMaxSuppressionV3 {
  import opened Wrappers
  import opened TensorUtil
  import opened WasmModule
  import opened Storage
  import opened StorageProps
  import opened KernelCommon

  datatype NmsAttrs = NmsAttrs(maxOutputSize: int, iouThreshold: real, scoreThreshold: real)

  /** Five numeric parameters; the result is the address of the module's
      result record. */
  const NmsSignature: Signature := Signature(NumberReturn, NumberParams(5))

  /** The argument list of the native call: the two tensors' native ids,
      then the output bound, then the two thresholds. */
  function NmsArgs(boxesId: nat, scoresId: nat, attrs: NmsAttrs): (args: seq<Arg>)
    ensures Conforms(args, NmsSignature)
    ensures args[0] == Num(boxesId) && args[1] == Num(scoresId)
    ensures args[2] == Num(attrs.maxOutputSize)
    ensures args[3] == Real(attrs.iouThreshold) && args[4] == Real(attrs.scoreThreshold)
  {
    [Num(boxesId), Num(scoresId), Num(attrs.maxOutputSize),
     Real(attrs.iouThreshold), Real(attrs.scoreThreshold)]
  }

  /** What the module reports back once its result record is parsed. */
  datatype NmsResult = NmsResult(pSelectedIndices: nat, selectedSize: nat,
                                 pSelectedScores: nat, pValidOutputs: nat)

  /** The native selection as far as the adapter observes it: the call, then
      the three buffers it leaves allocated: `selectedSize` int32 indices, as
      many float32 scores and one int32 count. How many boxes survive is the
      algorithm's business and is a parameter here. */
  function RunNative(w: Wasm, args: seq<Arg>, selectedSize: nat): (r: (Wasm, NmsResult))
    requires ArenaOk(w)
    ensures ArenaOk(r.0) && r.0.registry == w.registry
    ensures var res := r.1;
      && res.selectedSize == selectedSize
      && res.pSelectedIndices !in w.blocks && res.pSelectedScores !in w.blocks
      && res.pValidOutputs !in w.blocks
      && res.pSelectedIndices != res.pSelectedScores && res.pSelectedIndices != res.pValidOutputs
      && res.pSelectedScores != res.pValidOutputs
      && r.0.blocks == w.blocks[res.pSelectedIndices := 4 * selectedSize]
                              [res.pSelectedScores := 4 * selectedSize][res.pValidOutputs := 4]
      && r.0.log == w.log + [Invoked(NonMaxSuppressionV3Fn, args),
                             Allocated(res.pSelectedIndices, 4 * selectedSize),
                             Allocated(res.pSelectedScores, 4 * selectedSize),
                             Allocated(res.pValidOutputs, 4)]
  {
    var w1 := Call(w, NonMaxSuppressionV3Fn, args);
    var (w2, pIndices) := Malloc(w1, 4 * selectedSize);
    var (w3, pScores) := Malloc(w2, 4 * selectedSize);
    var (w4, pValid) := Malloc(w3, 4);
    (w4, NmsResult(pIndices, selectedSize, pScores, pValid))
  }

  /** The module's state once the call has returned and the scores and
      count buffers are freed. */
  function AfterNative(b: Backend, boxes: TensorInfo, scores: TensorInfo, attrs: NmsAttrs, selectedSize: nat)
    : (r: (Wasm, NmsResult))
    requires ArenaOk(b.wasm) && boxes.dataId in b.dataIdMap && scores.dataId in b.dataIdMap
    ensures ArenaOk(r.0)
  {
    var args := NmsArgs(NativeId(b, boxes.dataId), NativeId(b, scores.dataId), attrs);
    var (w1, res) := RunNative(b.wasm, args, selectedSize);
    (Free(Free(w1, Some(res.pSelectedScores)), Some(res.pValidOutputs)), res)
  }

  /** `kernelFunc({backend, inputs: {boxes, scores}, attrs})`: one int32
      output of `selectedSize` elements is added under the next counter
      value; every other record stays as it was. */
  function NonMaxSuppressionV3(b: Backend, boxes: TensorInfo, scores: TensorInfo, attrs: NmsAttrs,
                               selectedSize: nat): (r: (Backend, TensorInfo))
    requires Valid(b) && boxes.dataId in b.dataIdMap && scores.dataId in b.dataIdMap
    ensures Valid(r.0)
    ensures AddsOutput(b, r.0, r.1)
    ensures r.1 == TensorInfo(DataId(b.dataIdNextNumber), [selectedSize], Int32)
    ensures r.0.dataIdNextNumber == b.dataIdNextNumber + 1
    ensures NumDataIds(r.0) == NumDataIds(b) + 1
  {
    var (w, res) := AfterNative(b, boxes, scores, attrs, selectedSize);
    NeutralCallsPreserveValid(b, w);
    MakeOutputPreservesValid(b.(wasm := w), [selectedSize], Int32, Some(res.pSelectedIndices));
    ValidHandlesBelow(b);
    MakeOutput(b.(wasm := w), [selectedSize], Int32, Some(res.pSelectedIndices))
  }

  /** The output borrows the selected-indices buffer: its record points at
      that block, the module knows it under the same number as its handle
      with `selectedSize` elements, and of the three result buffers only
      that one stays live. The memory itself is not copied or touched. */
  lemma OutputBorrowsIndices(b: Backend, boxes: TensorInfo, scores: TensorInfo, attrs: NmsAttrs,
                             selectedSize: nat)
    requires Valid(b) && boxes.dataId in b.dataIdMap && scores.dataId in b.dataIdMap
    ensures var (b', out) := NonMaxSuppressionV3(b, boxes, scores, attrs, selectedSize);
      var rec := b'.dataIdMap[out.dataId];
      var args := NmsArgs(NativeId(b, boxes.dataId), NativeId(b, scores.dataId), attrs);
      var (w1, res) := RunNative(b.wasm, args, selectedSize);
      && rec.memoryOffset == Some(res.pSelectedIndices)
      && res.pSelectedIndices !in b.wasm.blocks
      && b'.wasm.blocks == b.wasm.blocks[res.pSelectedIndices := 4 * selectedSize]
      && b'.wasm.registry == b.wasm.registry[b.dataIdNextNumber := Registration(selectedSize, res.pSelectedIndices)]
      && NativeId(b', out.dataId) == b.dataIdNextNumber
      && b'.wasm.heap == w1.heap
  {
    var args := NmsArgs(NativeId(b, boxes.dataId), NativeId(b, scores.dataId), attrs);
    var (w1, res) := RunNative(b.wasm, args, selectedSize);
    var w := Free(Free(w1, Some(res.pSelectedScores)), Some(res.pValidOutputs));
    assert (w, res) == AfterNative(b, boxes, scores, attrs, selectedSize);
    assert w.blocks == b.wasm.blocks[res.pSelectedIndices := 4 * selectedSize];
    assert SizeFromShape([selectedSize]) == selectedSize;
  }

  /** What the module sees: the call, the three result allocations, the
      frees of the scores and count buffers, then the registration of the
      indices buffer as the output tensor. */
  function NmsTrace(args: seq<Arg>, p: nat, q: nat, v: nat, n: nat, id: nat): (t: seq<Event>)
    ensures |t| == 7
  {
    [Invoked(NonMaxSuppressionV3Fn, args), Allocated(p, 4 * n), Allocated(q, 4 * n), Allocated(v, 4),
     Freed(Some(q)), Freed(Some(v)), Registered(id, n, p)]
  }

  /** `w'` continues `w` with the selection trace for the indices block `p`,
      the other two buffers being distinct blocks not live in `w`. */
  ghost predicate NmsTraceFrom(w: Wasm, w': Wasm, args: seq<Arg>, p: nat, n: nat, id: nat) {
    exists q, v :: && q !in w.blocks && v !in w.blocks && q != p && v != p && q != v
                   && w'.log == w.log + NmsTrace(args, p, q, v, n, id)
  }

  lemma NmsLog(b: Backend, boxes: TensorInfo, scores: TensorInfo, attrs: NmsAttrs, selectedSize: nat)
    requires Valid(b) && boxes.dataId in b.dataIdMap && scores.dataId in b.dataIdMap
    ensures var (b', out) := NonMaxSuppressionV3(b, boxes, scores, attrs, selectedSize);
      var args := NmsArgs(NativeId(b, boxes.dataId), NativeId(b, scores.dataId), attrs);
      && b'.dataIdMap[out.dataId].memoryOffset.Some?
      && NmsTraceFrom(b.wasm, b'.wasm, args, b'.dataIdMap[out.dataId].memoryOffset.value,
                      selectedSize, b.dataIdNextNumber)
  {
    var args := NmsArgs(NativeId(b, boxes.dataId), NativeId(b, scores.dataId), attrs);
    var (w1, res) := RunNative(b.wasm, args, selectedSize);
    var w := Free(Free(w1, Some(res.pSelectedScores)), Some(res.pValidOutputs));
    assert (w, res) == AfterNative(b, boxes, scores, attrs, selectedSize);
    assert SizeFromShape([selectedSize]) == selectedSize;
    var b' := NonMaxSuppressionV3(b, boxes, scores, attrs, selectedSize).0;
    assert b'.wasm.log == b.wasm.log + NmsTrace(args, res.pSelectedIndices, res.pSelectedScores,
                                                res.pValidOutputs, selectedSize, b.dataIdNextNumber);
  }

  /** Releasing the output frees the indices buffer: no block the kernel
      allocated outlives the tensor, and the record map is as before. */
  lemma DisposingOutputLeaksNothing(b: Backend, boxes: TensorInfo, scores: TensorInfo, attrs: NmsAttrs,
                                    selectedSize: nat)
    requires Valid(b) && boxes.dataId in b.dataIdMap && scores.dataId in b.dataIdMap
    ensures var (b', out) := NonMaxSuppressionV3(b, boxes, scores, attrs, selectedSize);
      var (b'', disposed) := DisposeData(b', out.dataId, false);
      && disposed
      && b''.wasm.blocks == b.wasm.blocks
      && b''.dataIdMap == b.dataIdMap
      && b''.wasm.registry == b.wasm.registry - {b.dataIdNextNumber}
  {
    OutputBorrowsIndices(b, boxes, scores, attrs, selectedSize);
    var r := NonMaxSuppressionV3(b, boxes, scores, attrs, selectedSize);
    var b', out := r.0, r.1;
    var rec := b'.dataIdMap[out.dataId];
    var n := b.dataIdNextNumber;
    assert rec.id == n;
    assert n !in b.wasm.registry;
    var args := NmsArgs(NativeId(b, boxes.dataId), NativeId(b, scores.dataId), attrs);
    var res := RunNative(b.wasm, args, selectedSize).1;
    RemoveAdded(b.dataIdMap, out.dataId, rec);
    RemoveAdded(b.wasm.blocks, res.pSelectedIndices, 4 * selectedSize);
    RemoveAdded(b.wasm.registry, n, Registration(selectedSize, res.pSelectedIndices));
  }

  /** Removing a key just added to a map gives the map back. */
  lemma RemoveAdded<K, V>(m: map<K, V>, k: K, v: V)
    requires k !in m
    ensures m[k := v] - {k} == m
  {
  }
}
