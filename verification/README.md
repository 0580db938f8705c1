# Tensor storage and dispatch of the TensorFlow.js WebAssembly backend

This project models the vendored TensorFlow.js WebAssembly backend used by the
star-removal web page. It covers three parts.

- **Tensor storage** (`BackendWasm`). Each live tensor has a record in
  `dataIdMap` that holds:
  - the native id that the compiled module knows it by;
  - the offset of its bytes in the module's heap;
  - its shape, dtype and reference count;
  - for string tensors, the byte strings themselves.

  The operations are `write`, `move`, `readSync`, `disposeData`, `refCount`,
  `incRef`, `numDataIds` and `makeOutput`. One counter, `dataIdNextNumber`,
  provides both the handles and the native ids.
- **Loader configuration.** This part chooses which of the three binaries to
  load and from where (`getPathToWasmBinary`, `setWasmPath`, `setWasmPaths`,
  `resetWasmPath`). It also holds:
  - the `initAborted` latch that `onAbort` sets during `init()`;
  - the thread-count pair behind `setThreadsCount` and `getThreadsCount`.
- **Five kernel adapters.** These translate a kernel call into native calls:
  - `Conv2D` and `Transform` allocate an output and make one native call;
  - `ResizeNearestNeighbor` may cast to float32 first and releases the cast
    result afterwards;
  - `SpaceToBatchND` is a composite of pad, reshape, transpose and reshape.
    Each reshape aliases its input, and so does a transpose that leaves the
    non-unit axes in order. Of its three closing disposals, at most one
    releases a tensor, the pad output;
  - `NonMaxSuppressionV3` frees two of the module's result buffers and wraps
    the third as its output, without copying it.

The compiled module is modelled as an arena (`WasmModule.Wasm`) with these
parts:
- a byte heap;
- the live blocks, keyed by offset;
- the tensor registry (native id to element count and offset);
- an append-only event log of every native call the adapters make. A cast
  sub-kernel is logged as an operation too, although the real cast is a
  copy in JavaScript into the fresh output and not a native call.

The allocator is a bump allocator, so offsets are fresh and never reused. The
model relies only on freshness. Backend state is passed functionally: every
operation returns the new `Backend`.

The storage invariant is `Storage.Valid`. It says:
- the counter is at least 1 and the arena is well formed;
- every record's native id is at least 1, below the counter and unique, and
  its reference count is positive;
- every registered native id is below the counter;
- the log never disposes an id twice, registers ids in increasing order, and
  never disposes the native id of a live record.

It says nothing about which blocks are live or what the registry holds for
a record.

Modules:
- `Wrappers`, `JsSemantics` (ECMAScript `slice` and `ToInt32`), `ByteEncoding`
  (little-endian int32 views) and `TensorUtil`: the building blocks.
- `WasmModule`: the native module.
- `Storage` and `StorageProps`: the backend and its laws.
- `WasmConfig`: the loader configuration.
- `KernelCommon`: sub-kernels, the aliasing reshape, and releases.
- One module per adapter.

## Model

| member | source | states |
|---|---|---|
| Storage.NewBackend | starremoval/public/static/js/backend_wasm.js:32-40 | A new backend has no records, its counter at 1 (id 0 is never handed out), tells the module its thread count, and satisfies the storage invariant |
| Storage.Move | starremoval/public/static/js/backend_wasm.js:55-70 | Takes exactly one counter value as the native id. A string tensor keeps its byte strings, has no offset and leaves the module untouched. A numeric tensor gets a fresh block of size × bytes-per-element bytes, is registered under the id with its size and offset, and any supplied bytes land at that offset |
| Storage.Write | starremoval/public/static/js/backend_wasm.js:41-45 | The handle is the current counter value and the native id is the next one, so a write consumes two values; the new record has reference count 1 |
| Storage.TypedArrayFromBuffer | starremoval/public/static/js/backend_wasm.js:315-326 | Bool gives a byte view of the same bytes. Float32 and int32 succeed exactly when the length is a multiple of 4, and the int32 view re-encodes to the same bytes. complex64 and string fail with an unknown-dtype error |
| Storage.ReadStrings | starremoval/public/static/js/backend_wasm.js:76-83 | A string tensor reads as the JS slice of its payload. A tensor created without contents can only be read whole; any real slice of it fails |
| Storage.ElementRange | starremoval/public/static/js/backend_wasm.js:84-85 | An omitted start reads from 0. An omitted end, or an end of 0, reads to the element count; any other end is used as given |
| Storage.ReadSync | starremoval/public/static/js/backend_wasm.js:74-89 | An unknown handle fails. Strings take the string path. Numeric reads give a typed view, and complex64 always fails |
| Storage.DisposeData | starremoval/public/static/js/backend_wasm.js:96-108 | Unknown ids report true and change nothing. Without force, a count above 1 only drops by one and the call reports false. Otherwise the record goes, its block is freed and the module disposes the id, and the call reports true; the counter never moves |
| Storage.RefCount | starremoval/public/static/js/backend_wasm.js:110-116 | A live record's count, and 0 for an id that is not stored |
| Storage.IncRef | starremoval/public/static/js/backend_wasm.js:117-122 | Raises exactly that record's count by one; unknown ids change nothing, and the module and counter never change |
| Storage.MakeOutput | starremoval/public/static/js/backend_wasm.js:147-160 | Without an offset it behaves as a write of no values. With an offset the handle and native id coincide, only one counter value is used, and that memory is registered, not allocated |
| Storage.NumDataIds | starremoval/public/static/js/backend_wasm.js:46-48 | The number of stored handles; 0 exactly when nothing is stored |
| StorageProps.MovePreservesValid | starremoval/public/static/js/backend_wasm.js:55-70 | `move` of a handle below the counter, with a positive count, keeps the storage invariant |
| StorageProps.WritePreservesValid | starremoval/public/static/js/backend_wasm.js:41-45 | `write` keeps the storage invariant |
| StorageProps.MakeOutputPreservesValid | starremoval/public/static/js/backend_wasm.js:147-160 | `makeOutput` keeps the storage invariant, with or without a borrowed offset |
| StorageProps.DisposePreservesValid | starremoval/public/static/js/backend_wasm.js:96-108 | `disposeData` keeps the storage invariant, forced or not, for any id |
| StorageProps.IncRefPreservesValid | starremoval/public/static/js/backend_wasm.js:117-122 | `incRef` keeps the storage invariant |
| StorageProps.ReadBackStored | starremoval/public/static/js/backend_wasm.js:84-88 | When a numeric tensor's heap bytes are some byte string, a whole read succeeds and is that byte string viewed in the tensor's type |
| StorageProps.WriteReadRoundTrip | starremoval/public/static/js/backend_wasm.js:41-89 | Bytes written as a float32, int32 or bool tensor read back whole as the same typed view |
| StorageProps.WriteReadInt32s | starremoval/public/static/js/backend_wasm.js:41-89 | Integers written as int32 read back as the same integers wrapped to 32 bits, element by element |
| StorageProps.WriteReadStrings | starremoval/public/static/js/backend_wasm.js:55-83 | String tensors read back exactly as written and never touch native memory |
| StorageProps.ReadEndZeroReadsToEnd | starremoval/public/static/js/backend_wasm.js:84-85 | For numeric tensors, asking for end 0 reads the same as giving no end |
| StorageProps.ReadSyncRange | starremoval/public/static/js/backend_wasm.js:84-88 | A read of elements [start, end) inside the heap succeeds and views exactly the heap bytes of those elements, for any start from 0 up to a positive end |
| StorageProps.RefCountZeroIffAbsent | starremoval/public/static/js/backend_wasm.js:110-116 | In a valid backend the count is 0 exactly when the id is not stored |
| StorageProps.IncRefThenDisposeCancels | starremoval/public/static/js/backend_wasm.js:96-122 | `incRef` followed by an unforced dispose restores the backend exactly and reports false |
| StorageProps.ForcedDisposeReleases | starremoval/public/static/js/backend_wasm.js:96-108 | A forced dispose always reports true and removes the record |
| StorageProps.DisposeCount | starremoval/public/static/js/backend_wasm.js:46-48 | `numDataIds` drops by one exactly when a dispose reports true |
| StorageProps.DisposeCountdown | starremoval/public/static/js/backend_wasm.js:96-108 | A tensor referenced k times needs k disposes. The first k-1 report false; the last reports true, removes the record, frees its block and disposes its native id |
| StorageProps.RunPreservesValid | starremoval/public/static/js/backend_wasm.js:41-160 | Any sequence of storage operations keeps the invariant and never moves the counter back |
| StorageProps.RunFromNewBackend | starremoval/public/static/js/backend_wasm.js:35-36 | From a new backend, any run does the following: registers native ids in strictly increasing order, all at least 1; disposes no id twice; never disposes an id a live record still uses |
| JsSemantics.RelativeIndex | starremoval/public/static/js/backend_wasm.js:82 | The ECMAScript `slice` index rule: a negative index counts from the end, and the result is clamped into [0, length] |
| JsSemantics.SliceInRange | starremoval/public/static/js/backend_wasm.js:82 | Slicing with in-range bounds is the ordinary subsequence |
| JsSemantics.SliceWhole | starremoval/public/static/js/backend_wasm.js:82 | Slicing from 0, or no start, to at least the length returns the whole payload |
| JsSemantics.ToInt32 | starremoval/public/static/js/kernels/Transform.js:48-49 | The ECMAScript ToInt32 conversion: congruent to the input modulo 2^32 and in the signed 32-bit range |
| ByteEncoding.Int32sRoundTrip | starremoval/public/static/js/kernels/Transform.js:48-49 | Decoding the bytes of an `Int32Array` gives each element wrapped to 32 bits |
| ByteEncoding.Int32sRoundTripExact | starremoval/public/static/js/kernels/Transform.js:48-49 | Elements already in the 32-bit range survive the byte view unchanged |
| ByteEncoding.Int32sBytesRoundTrip | starremoval/public/static/js/backend_wasm.js:315-326 | Viewing a buffer as int32 and taking its bytes again gives back the same buffer |
| TensorUtil.SizeZeroIff | starremoval/public/static/js/kernels/ResizeNearestNeighbor.js:42-44 | A shape has no elements exactly when one of its dimensions is 0 |
| TensorUtil.ComputeStrides | starremoval/public/static/js/kernels/Transform.js:48-49 | Row-major strides: none below rank 2, otherwise stride i is the element count of the dimensions after i |
| WasmModule.Malloc | starremoval/public/static/js/backend_wasm.js:63-64 | The returned offset is non-zero, not live, and past every live block. The heap grows to hold the block, and earlier bytes are kept |
| WasmModule.Free | starremoval/public/static/js/backend_wasm.js:100-104 | Only the freed block leaves the live set; the heap and registry are untouched |
| WasmConfig.BinaryName | starremoval/public/static/js/backend_wasm.js:207-213 | Threaded SIMD exactly when both capabilities are present, SIMD exactly when only SIMD is, vanilla exactly when SIMD is absent |
| WasmConfig.GetPathToWasmBinary | starremoval/public/static/js/backend_wasm.js:201-220 | An override path wins. Otherwise the file-map entry for the binary the capabilities choose, and, when the map has no entry for it, that binary's name appended to the folder |
| WasmConfig.PathSelection | starremoval/public/static/js/backend_wasm.js:201-220 | Per capability pair: the vanilla, SIMD or threaded SIMD binary comes from its file-map entry when there is one and from folder plus name when there is none, whatever other entries the map holds; an override wins over both |
| WasmConfig.LocateWasmBinary | starremoval/public/static/js/backend_wasm.js:249-251 | For a `.wasm` file `locateFile` reports the override, else the file-map entry, else the binary's name under the configured prefix, or under the loader script's folder when no prefix is set |
| WasmConfig.ChooseFactory | starremoval/public/static/js/backend_wasm.js:277-287 | The threaded factory exactly when both capabilities are present and no override path is set; the vanilla factory otherwise |
| WasmConfig.FactoryMatchesBinary | starremoval/public/static/js/backend_wasm.js:277-287 | The threaded factory is used exactly when no override path is set and the threaded SIMD binary is chosen |
| WasmConfig.MissingFrom | starremoval/public/static/js/backend_wasm.js:390-396 | Lists exactly the binary names the file map lacks |
| WasmConfig.SetWasmPath | starremoval/public/static/js/backend_wasm.js:348-357 | Refused, and nothing changes, once a load has aborted; otherwise sets the override path and the fetch flag |
| WasmConfig.SetWasmPaths | starremoval/public/static/js/backend_wasm.js:383-403 | Refused once a load has aborted. A prefix is stored. A file map is stored, and the call fails exactly when one of the three binaries is missing, naming the missing ones; the fetch flag is set only on success |
| WasmConfig.ResetWasmPath | starremoval/public/static/js/backend_wasm.js:405-411 | Clears the override, prefix, file map, fetch flag and abort latch |
| WasmConfig.FileMapDecidesPath | starremoval/public/static/js/backend_wasm.js:240-253 | After a successful `setWasmPaths(fileMap)` with no override, the loader fetches exactly the map's entry for the chosen binary |
| WasmConfig.PrefixDecidesPath | starremoval/public/static/js/backend_wasm.js:240-253 | After `setWasmPaths(prefix)`, with no override and no file-map entry, the loader fetches the prefix followed by the binary's name |
| WasmConfig.OverrideDecidesPath | starremoval/public/static/js/backend_wasm.js:201-206 | After `setWasmPath(p)` the loader fetches p, whatever the capabilities, and uses the vanilla factory |
| WasmConfig.OnAbort | starremoval/public/static/js/backend_wasm.js:261-276 | Ignored once the module is ready or a load has aborted; otherwise sets the latch and calls reject, which settles the promise only if it is still pending |
| WasmConfig.OnModuleReady | starremoval/public/static/js/backend_wasm.js:294-311 | Marks the attempt initialized, clears the abort latch, and resolves the promise unless it is already settled |
| WasmConfig.OnModuleFailed | starremoval/public/static/js/backend_wasm.js:288-312 | A rejected module promise is passed on by `.catch(reject)`: the returned promise is rejected unless already settled, and neither `initialized` nor the latch is consulted or changed |
| WasmConfig.InitRejectsAtMostOnce | starremoval/public/static/js/backend_wasm.js:261-296 | `onAbort` calls reject at most once per `init()`, and exactly when no earlier abort was latched and an abort arrives before any ready signal. The returned promise never changes once settled and settles as the first acting signal decides: ready resolves, a failed module rejects, an abort rejects unless latched. The latch ends up set exactly when there was an abort and no ready signal, and nothing else in the configuration changes |
| WasmConfig.NoRejectionAfterReady | starremoval/public/static/js/backend_wasm.js:262-266 | Once the module is ready, later aborts neither call reject nor set the latch, and a resolved promise stays resolved |
| WasmConfig.FailedFetchRejectsWithoutLatch | starremoval/public/static/js/backend_wasm.js:288-312 | A failed module promise with no abort rejects `init()` without any `onAbort` rejection and leaves the path setters usable |
| WasmConfig.AbortPoisonsPaths | starremoval/public/static/js/backend_wasm.js:348-357 | After an aborted load, both path setters are refused until `resetWasmPath` clears the latch |
| WasmConfig.SetThreadsCount | starremoval/public/static/js/backend_wasm.js:420-422 | Records the requested count and leaves the actual count alone |
| WasmConfig.BackendConstructed | starremoval/public/static/js/backend_wasm.js:37-38 | Constructing the backend records the thread count the module reports |
| WasmConfig.GetThreadsCount | starremoval/public/static/js/backend_wasm.js:428-433 | Fails with not-initialized exactly while the actual count is still -1; otherwise returns it |
| WasmConfig.ThreadsCountLifecycle | starremoval/public/static/js/backend_wasm.js:412-433 | Before construction `getThreadsCount` fails whatever was requested; afterwards it returns the reported count, and later requests do not change it |
| KernelCommon.FreshOutputIsNew | starremoval/public/static/js/backend_wasm.js:147-151 | A fresh output adds exactly one record, and its native id differs from the native id of every existing record |
| KernelCommon.SubKernelPreservesValid | starremoval/public/static/js/kernels/ResizeNearestNeighbor.js:47-53 | A sub-kernel keeps the invariant and adds one output, and that output's native id differs from its input's |
| KernelCommon.Reshape | starremoval/public/static/js/kernels/SpaceToBatchND.js:39-41 | A reshape returns the same handle with the new shape and the input's dtype, and raises that record's count by one; the module and the counter are untouched, and an unknown handle changes nothing |
| KernelCommon.SubKernelTrace | starremoval/public/static/js/kernels/ResizeNearestNeighbor.js:47-53 | A sub-kernel allocates one fresh block of the output's byte size, registers it under a new native id and runs its operation from the input's native id to that one; no other record changes. For a cast, that operation event stands for the JavaScript-side copy into the output, not for a native call |
| Conv2D.IsSamePad | starremoval/public/static/js/kernels/Conv2D.js:62 | The flag is 1 exactly for SAME padding and 0 otherwise |
| Conv2D.Conv2DArgs | starremoval/public/static/js/kernels/Conv2D.js:42-69 | The nineteen arguments follow the registered signature and place each tensor id, dimension, pad side, dilation, stride and channel count where the native function expects it |
| Conv2D.Conv2D | starremoval/public/static/js/kernels/Conv2D.js:42-71 | Fails exactly for a data format other than NHWC, and then changes nothing. Otherwise it adds one float32 output of the computed shape, keeps the invariant, and calls the native function once with the inputs' and output's native ids |
| Transform.InterpolationModeId | starremoval/public/static/js/kernels/Transform.js:56 | 1 exactly for nearest, 2 for every other mode |
| Transform.FillModeId | starremoval/public/static/js/kernels/Transform.js:57-74 | reflect, wrap and nearest get 2, 3 and 4; every other mode (constant) gets 1 |
| Transform.OutShape | starremoval/public/static/js/kernels/Transform.js:44-47 | Batch and channels come from the image; height and width come from the requested output shape if given, else from the image |
| Transform.IsBatchTransform | starremoval/public/static/js/kernels/Transform.js:75 | True exactly when there is more than one transform row |
| Transform.TransformArgs | starremoval/public/static/js/kernels/Transform.js:50-75 | Seventeen arguments: the image's and the transforms' native ids, then the batch flag (more than one transform row), and the output's native id last |
| Transform.TransformArgsShape | starremoval/public/static/js/kernels/Transform.js:44-47 | Positions 3 to 8 carry the output's batch, height, width and channels, then the image's width and height |
| Transform.TransformArgsStrides | starremoval/public/static/js/kernels/Transform.js:48-49 | Positions 9 to 12 carry the image's strides as int32 bytes and their count, then the output's |
| Transform.TransformArgsModes | starremoval/public/static/js/kernels/Transform.js:56-75 | Positions 13 to 15 carry the interpolation code, the fill-mode code and the fill value |
| Transform.TransformArgsConform | starremoval/public/static/js/kernels/Transform.js:20-38 | The argument list conforms to the registered seventeen-parameter signature |
| Transform.Transform | starremoval/public/static/js/kernels/Transform.js:40-77 | Adds one output of the output shape with the image's dtype and keeps the invariant |
| Transform.TransformCall | starremoval/public/static/js/kernels/Transform.js:40-77 | After allocating the output, the module sees exactly one call, with the native ids of image, transforms and output |
| Transform.TransformStridesDecode | starremoval/public/static/js/kernels/Transform.js:48-49 | The module decodes three strides from each byte array, each the 32-bit wrap of the computed stride |
| Transform.TransformStridesExact | starremoval/public/static/js/kernels/Transform.js:48-49 | When the image's element count per batch fits in 31 bits and its height and width are non-zero, the strides reach the module unchanged |
| ResizeNearestNeighbor.BoolCode | starremoval/public/static/js/kernels/ResizeNearestNeighbor.js:55-57 | A flag is passed as 1 exactly when it is true and 0 otherwise |
| ResizeNearestNeighbor.ResizedShape | starremoval/public/static/js/kernels/ResizeNearestNeighbor.js:37-40 | Batch and channels are kept, and height and width are the requested size |
| ResizeNearestNeighbor.ResizeArgs | starremoval/public/static/js/kernels/ResizeNearestNeighbor.js:55-57 | Ten arguments conforming to the signature: input id, the four dimensions, the new size, the two flags, the output id |
| ResizeNearestNeighbor.CastTemporaryReleased | starremoval/public/static/js/kernels/ResizeNearestNeighbor.js:45-60 | After the cast and the call, the temporary cast tensor is gone: no record and no block outlives it |
| ResizeNearestNeighbor.CastPathTrace | starremoval/public/static/js/kernels/ResizeNearestNeighbor.js:45-60 | The log holds the following: the cast into a fresh tensor (an event standing for the JavaScript-side copy, which makes no native call); the resize call reading that tensor, not the original; then the cast tensor's disposal |
| ResizeNearestNeighbor.ResizeInto | starremoval/public/static/js/kernels/ResizeNearestNeighbor.js:42-60 | Keeps the invariant, leaves records and blocks as they were, and does nothing at all for an empty image |
| ResizeNearestNeighbor.ResizeNearestNeighbor | starremoval/public/static/js/kernels/ResizeNearestNeighbor.js:34-62 | Adds exactly one float32 output of the resized shape and keeps the invariant; no temporary survives |
| ResizeNearestNeighbor.ResizeFloatInput | starremoval/public/static/js/kernels/ResizeNearestNeighbor.js:45-57 | A non-empty float32 image is resized by exactly one native call on its own id |
| ResizeNearestNeighbor.ResizeCastInput | starremoval/public/static/js/kernels/ResizeNearestNeighbor.js:45-60 | A non-empty image of another dtype is cast first, and the call reads the cast tensor's id |
| SpaceToBatchND.CompletePaddings | starremoval/public/static/js/kernels/SpaceToBatchND.js:26-30 | A zero pair for the batch axis, the given pairs, then zero pairs for the remaining axes |
| SpaceToBatchND.PaddingsCoverEveryAxis | starremoval/public/static/js/kernels/SpaceToBatchND.js:26-30 | With agreeing ranks there is one pair per axis: block axis i gets the i-th given pair and every other axis gets zeros |
| SpaceToBatchND.MakePlan | starremoval/public/static/js/kernels/SpaceToBatchND.js:25-47 | One padding pair per axis: block axis i gets the i-th given pair and every other axis zeros. So the padded shape grows each block axis by the sum of its pair and keeps the others. The layout helpers are applied to that padded shape, and the transposed shape puts axis perm[i] at position i |
| SpaceToBatchND.FreshThenAlias | starremoval/public/static/js/kernels/SpaceToBatchND.js:31-47 | Pad (or transpose) followed by a reshape of its output: both results name the one new handle n, whose record has native id n + 1 and count 2. Two counter values are used, the module sees only the sub-kernel's operation, and for a numeric dtype one fresh block of the output's byte size is allocated. Keeps the invariant |
| SpaceToBatchND.AliasedOutputRecords | starremoval/public/static/js/kernels/SpaceToBatchND.js:31-41 | After a sub-kernel and a reshape of its output, the output's record is the only change to the map and is referenced twice |
| SpaceToBatchND.ReleasedRecords | starremoval/public/static/js/kernels/SpaceToBatchND.js:48-50 | Disposing the pad output, its reshaped alias (the same handle) and the transpose output, each referenced twice: the pad output's record goes, its block is freed and its native id disposed; the transpose output stays with count 1 |
| SpaceToBatchND.ReleasedValid | starremoval/public/static/js/kernels/SpaceToBatchND.js:48-50 | The three disposals keep the invariant |
| SpaceToBatchND.StagesReleasedRecords | starremoval/public/static/js/kernels/SpaceToBatchND.js:31-50 | After both stages and the disposals, four counter values are used, the pad output n is gone, and the one new record is the transpose output n + 2: native id n + 3, count 1, the transposed shape and the input's dtype |
| SpaceToBatchND.StagesReleasedLog | starremoval/public/static/js/kernels/SpaceToBatchND.js:31-50 | The module sees pad of the input into n + 1, transpose from n + 1 into n + 3, and one disposal, of n + 1; the reshapes and the other two disposals reach it not at all |
| SpaceToBatchND.StagesReleasedMemory | starremoval/public/static/js/kernels/SpaceToBatchND.js:31-50 | For a numeric tensor the pad output's block is freed again and the only new live block is the transpose output's, of the transposed shape's byte size |
| SpaceToBatchND.ReleasedAliasRecords | starremoval/public/static/js/kernels/SpaceToBatchND.js:48-50 | When the transpose aliased, the three disposals hit one handle referenced four times: it drops to count 1, nothing is released and the module sees nothing |
| SpaceToBatchND.AliasedTransposeReleased | starremoval/public/static/js/kernels/SpaceToBatchND.js:31-51 | With an aliasing transpose: two counter values are used, and the pad output n is the one new record (native id n + 1, count 1, padded shape) and the result's handle; the module sees the pad only, and for a numeric tensor the pad output's block is the only new live one |
| SpaceToBatchND.NoOpExamples | starremoval/public/static/js/kernels/SpaceToBatchND.js:42-44 | Block shape [2, 2] on a [1, 2, 2, 3] input gives a transpose that moves only size-1 axes, so it aliases; on a [2, 4, 2, 3] input (reshaped to [2, 2, 2, 1, 2, 3]) the same permutation moves a non-unit axis |
| SpaceToBatchND.SpaceToBatchND | starremoval/public/static/js/kernels/SpaceToBatchND.js:21-52 | With n the counter on entry, two cases. (1) If the transpose moves a non-unit axis: four counter values are used and the result is handle n + 2 with the flattened shape. Its record, the one new record, is the transpose output's (native id n + 3, count 1, transposed shape, input dtype). The module sees pad with the completed paddings and constant 0 into n + 1, transpose by the permutation from n + 1 into n + 3, and the disposal of n + 1 only. (2) If the non-unit axes keep their order, the transpose aliases: two counter values are used, and the result is handle n with the flattened shape, whose record (native id n + 1, count 1, padded shape) is the one new record. The module sees the pad only, with no disposal. For a numeric tensor no intermediate block outlives the call. Keeps the invariant |
| NonMaxSuppressionV3.NmsArgs | starremoval/public/static/js/kernels/NonMaxSuppressionV3.js:34-36 | Five numeric arguments in the registered order: boxes id, scores id, output bound, IoU threshold, score threshold |
| NonMaxSuppressionV3.NonMaxSuppressionV3 | starremoval/public/static/js/kernels/NonMaxSuppressionV3.js:30-43 | Adds exactly one int32 output of the selected size under the next counter value, and keeps the invariant |
| NonMaxSuppressionV3.OutputBorrowsIndices | starremoval/public/static/js/kernels/NonMaxSuppressionV3.js:37-41 | The output's record points at the selected-indices buffer and is registered under its own handle number. Only that buffer stays allocated, and heap bytes are not copied |
| NonMaxSuppressionV3.NmsLog | starremoval/public/static/js/kernels/NonMaxSuppressionV3.js:36-41 | The module sees the call, then the three result buffers, then the freeing of the scores and count buffers, then the indices buffer registered as the output |
| NonMaxSuppressionV3.DisposingOutputLeaksNothing | starremoval/public/static/js/kernels/NonMaxSuppressionV3.js:39-41 | Disposing the output releases it, restores the record map and the live blocks exactly, and removes only its registration |

## Left out

- Asynchronous loading: fetching, `WebAssembly.instantiate`, the worker blob
  and the `customFetch` hook are left out. Browser I/O cannot be modelled.
  `locateFile` is modelled only for the `.wasm` binary; its answers for the
  worker script and other files are left out.
  The events that matter are modelled: the abort signal, the module promise
  resolving or rejecting (the `.catch(reject)` path a failed fetch takes),
  and `init()` as a sequence of them.
- Capability detection: SIMD and thread support are parameters.
- The native kernels' arithmetic (convolution, sampling, resizing, box
  selection) is left out because it runs in compiled code the adapters
  cannot see. Each native call is an event in the log, together with its
  exact arguments.
- Float reinterpretation: float32 tensors are kept as raw bytes, and only
  the int32 view is decoded. The fill value and thresholds are `real`.
- `Storage.TypedArrayFromBuffer`: a float32 view is the buffer's bytes, not
  decoded floats. Floating point is out of scope.
- `timerAvailable`, `time`, `memory`, `dispose()`, `floatPrecision`,
  `epsilon`, `getMemoryOffset` and `typedArrayFromHeap` are left out. They
  are not part of the storage and dispatch contracts modelled here.
- Allocator reuse is left out. Malloc is a bump allocator whose only promise
  is a fresh, non-zero offset; the real allocator may reuse freed memory,
  which the model never relies on.
- Sub-kernels (cast, pad, transpose) are modelled without their own code.
  Each one allocates a fresh output and logs its operation. Reshape is
  modelled as the real kernel behaves: `incRef` of its input, the same
  handle with the new shape, nothing sent to the module. Reshape's check
  that the element counts agree is left out. The sub-kernels' files are not
  part of this model.
- SpaceToBatchND: the Transpose kernel's file is not part of this model.
  Its no-op rule is modelled as `PermIsNoOp`: after the size-1 axes are
  dropped, the remaining axes keep their order, and the kernel then returns
  an `incRef` alias of its input with the transposed shape. This assumes
  the permutation has no repeated axis; the kernel's renumbering of a
  malformed permutation is not modelled. Pad is always taken to produce a
  fresh output. For an empty input the real pad fills a fresh output in
  JavaScript without a native call, and the model still logs a pad
  operation.
- `computeConv2DInfo`, and the layout helpers `getReshaped`, `getPermuted`
  and `getReshapedPermuted`, belong to the tensor library. They are
  parameters: the convolution info record and the `LayoutHelpers` functions.
- The shape that pad produces and the shape that transpose produces are the
  tensor library's promise. They are stated here as functions:
  `PaddedShape`, and `TransposedShape`, which yields 0 for an axis number
  out of range.
- `parseResultStruct` reads the module's result record and frees it. It is
  not part of this model. The selected count is a parameter, and the native
  call is modelled as leaving three fresh buffers of the sizes the adapter
  uses.
- Kernel inputs are required to be live records of a valid backend, and
  4-D where the adapter indexes four dimensions. The engine moves an input
  that lives on another backend to this one before it dispatches; the
  model does not check or migrate, it requires the input to be here.
- Storage.ReadSync: `dataIdMap` is a `DataStorage` whose `get` moves a
  tensor from another backend on a miss, and throws for an id the engine
  does not know. That migration is not modelled; a handle with no record
  here fails the read.
- Storage.IncRef: for the same reason, `incRef` on a handle with no record
  here changes nothing in the model, where `get` would first migrate the
  tensor or throw.
- Storage.ReadStrings: `readSync`'s start and end are either given or
  omitted (`None`), and an explicit `null` is modelled as omitted. For
  numeric tensors and for the start this matches the code. For a string
  tensor it does not: with a nonzero start and an explicit `null` end,
  `slice(start, null)` returns an empty list, while the model returns the
  tail, as for an omitted end.
- The page's own code (`kernel_utils/shared.js` and the UI scripts) is not
  part of this model.
- JS object identity of data ids:
  - the backend's own ids are `DataId(n)`;
  - ids minted by another backend and handed to `move` are `Foreign(key)`.

### Behaviour of the code worth noting

- `setWasmPaths` with a file map stores the map before it checks for
  missing binaries. A failed call therefore still replaces the file map;
  it leaves the fetch flag unchanged.
- The path setters refuse only after an aborted load (`initAborted`), not
  after any initialization. A successful load clears the latch, and
  `resetWasmPath` clears it too. A failed fetch rejects `init()` through
  `.catch(reject)` without setting the latch, so after it the setters still
  work (`WasmConfig.FailedFetchRejectsWithoutLatch`).
- `readSync` computes its end as `end || size`, so an explicit end of 0
  reads to the end of the tensor. `StorageProps.ReadEndZeroReadsToEnd`
  states this.
