/** The backend's reference-counted tensor storage: a map from data ids to
    records describing where each tensor lives in native memory, fed by one
    monotonically increasing counter, together with the native module the
    records point into. */
module Storage {
  import opened Wrappers
  import opened JsSemantics
  import opened ByteEncoding
  import opened TensorUtil
  import opened WasmModule

  /** A data id object. `DataId(id)` is one this backend made itself (it
      carries the counter value it was made from); `Foreign(key)` is one made
      elsewhere and handed to `move`. */
  datatype DataId = DataId(id: nat) | Foreign(key: nat)

  /** Initial contents supplied to `write`/`move`: none, the bytes of a typed
      array, or the byte strings of a string tensor. */
  datatype Values = NoValues | Bytes(bytes: seq<byte>) | Strings(strings: seq<seq<byte>>)

  /** The record kept per live data id. `id` is the native id the module
      knows the tensor by; `memoryOffset` is absent for string tensors. */
  datatype TensorData = TensorData(id: nat, memoryOffset: Option<nat>, shape: seq<nat>,
                                   dtype: DType, refCount: int,
                                   stringBytes: Option<seq<seq<byte>>>)

  datatype Backend = Backend(dataIdMap: map<DataId, TensorData>, dataIdNextNumber: nat, wasm: Wasm)

  /** What a kernel hands back to the caller: data id, shape and type. */
  datatype TensorInfo = TensorInfo(dataId: DataId, shape: seq<nat>, dtype: DType)

  /** Bytes of native memory a numeric tensor of this shape occupies. */
  function NumBytes(shape: seq<nat>, dtype: DType): (n: nat)
    requires dtype != String
    ensures n % BytesPerElement(dtype) == 0
  {
    SizeFromShape(shape) * BytesPerElement(dtype)
  }

  /** Contents `move` can store: a string tensor takes byte strings (or
      nothing); a numeric one takes nothing or a buffer holding at least the
      tensor's bytes. */
  predicate ValuesFit(values: Values, shape: seq<nat>, dtype: DType) {
    if dtype == String then !values.Bytes?
    else values.NoValues? || (values.Bytes? && |values.bytes| >= NumBytes(shape, dtype))
  }

  function StringsOf(values: Values): Option<seq<seq<byte>>> {
    if values.Strings? then Some(values.strings) else None
  }

  // ---------------------------------------------------------------------------
  // The storage invariant
  // ---------------------------------------------------------------------------

  predicate RecordOk(b: Backend, h: DataId)
    requires h in b.dataIdMap
  {
    var rec := b.dataIdMap[h];
    && 1 <= rec.id < b.dataIdNextNumber
    && rec.refCount >= 1
    && (h.DataId? ==> h.id < b.dataIdNextNumber)
  }

  /** Registrations carry non-null ids taken from the counter; disposals name
      ids already handed out. */
  predicate EventBelow(e: Event, next: nat) {
    match e
    case Registered(id, _, _) => 1 <= id < next
    case Disposed(id) => id < next
    case _ => true
  }

  /** No native id is disposed twice. */
  predicate DisposedOnce(log: seq<Event>) {
    forall i, j :: 0 <= i < j < |log| && log[i].Disposed? && log[j].Disposed? ==> log[i].id != log[j].id
  }

  /** Native ids are registered in strictly increasing order. */
  predicate RegisteredIncreasing(log: seq<Event>) {
    forall i, j :: 0 <= i < j < |log| && log[i].Registered? && log[j].Registered? ==> log[i].id < log[j].id
  }

  predicate LogOk(b: Backend) {
    && (forall i :: 0 <= i < |b.wasm.log| ==> EventBelow(b.wasm.log[i], b.dataIdNextNumber))
    && (forall i, h :: 0 <= i < |b.wasm.log| && h in b.dataIdMap && b.wasm.log[i].Disposed?
          ==> b.wasm.log[i].id != b.dataIdMap[h].id)
    && DisposedOnce(b.wasm.log)
    && RegisteredIncreasing(b.wasm.log)
  }

  /** Id 0 stays reserved; every live record has a positive count and a
      native id of its own; nothing registered or logged is ahead of the
      counter; no live tensor's id has been disposed. */
  predicate Valid(b: Backend) {
    && b.dataIdNextNumber >= 1
    && ArenaOk(b.wasm)
    && (forall h :: h in b.dataIdMap ==> RecordOk(b, h))
    && (forall h1, h2 :: h1 in b.dataIdMap && h2 in b.dataIdMap && h1 != h2
          ==> b.dataIdMap[h1].id != b.dataIdMap[h2].id)
    && (forall k :: k in b.wasm.registry ==> k < b.dataIdNextNumber)
    && LogOk(b)
  }

  // ---------------------------------------------------------------------------
  // Construction, write and move
  // ---------------------------------------------------------------------------

  /** The constructor: tell the module its thread count, start the counter at
      1 (0 is reserved for null ids) with no records. */
  function NewBackend(w: Wasm, threadsCount: int): (b: Backend)
    requires ArenaOk(w) && w.registry == map[] && w.log == []
    ensures Valid(b)
    ensures b.dataIdMap == map[] && b.dataIdNextNumber == 1
    ensures b.wasm.log == [ThreadsInitialized(threadsCount)]
  {
    Backend(map[], 1, InitThreads(w, threadsCount))
  }

  /** The state after storing `values` under `dataId` with native id `id`:
      only that entry of the map changes; a string tensor lives in managed
      memory and leaves the module untouched; a numeric tensor gets a fresh
      block of exactly its byte size, is registered with the module under
      `id`, and holds the supplied bytes. */
  predicate Stored(b: Backend, b': Backend, dataId: DataId, id: nat, values: Values,
                   shape: seq<nat>, dtype: DType, refCount: int)
  {
    && dataId in b'.dataIdMap
    && b'.dataIdMap == b.dataIdMap[dataId := b'.dataIdMap[dataId]]
    && var rec := b'.dataIdMap[dataId];
    && rec.id == id && rec.shape == shape && rec.dtype == dtype && rec.refCount == refCount
    && (dtype == String ==>
          rec.memoryOffset.None? && rec.stringBytes == StringsOf(values) && b'.wasm == b.wasm)
    && (dtype != String ==>
          && rec.memoryOffset.Some? && rec.stringBytes.None?
          && var off := rec.memoryOffset.value;
          && var n := NumBytes(shape, dtype);
          && 1 <= off && off !in b.wasm.blocks
          && b'.wasm.blocks == b.wasm.blocks[off := n]
          && b'.wasm.registry == b.wasm.registry[id := Registration(SizeFromShape(shape), off)]
          && b'.wasm.log == b.wasm.log + [Allocated(off, n), Registered(id, SizeFromShape(shape), off)]
          && |b.wasm.heap| <= off && off + n <= |b'.wasm.heap|
          && b'.wasm.heap[..|b.wasm.heap|] == b.wasm.heap
          && (values.Bytes? ==> n <= |values.bytes| && b'.wasm.heap[off..off + n] == values.bytes[..n]))
  }

  /** `move(dataId, values, shape, dtype, refCount)`: takes one counter value
      as the native id and stores the record under `dataId`. */
  function Move(b: Backend, dataId: DataId, values: Values, shape: seq<nat>, dtype: DType,
                refCount: int): (b': Backend)
    requires ArenaOk(b.wasm)
    requires ValuesFit(values, shape, dtype)
    ensures ArenaOk(b'.wasm)
    ensures b'.dataIdNextNumber == b.dataIdNextNumber + 1
    ensures Stored(b, b', dataId, b.dataIdNextNumber, values, shape, dtype, refCount)
  {
    var id := b.dataIdNextNumber;
    if dtype == String then
      Backend(b.dataIdMap[dataId := TensorData(id, None, shape, dtype, refCount, StringsOf(values))],
              id + 1, b.wasm)
    else
      var size := SizeFromShape(shape);
      var numBytes := NumBytes(shape, dtype);
      var (w1, off) := Malloc(b.wasm, numBytes);
      var w2 := RegisterTensor(w1, id, size, off);
      var w3 := if values.Bytes? then HeapSet(w2, off, values.bytes[..numBytes]) else w2;
      assert w3.heap[..|b.wasm.heap|] == b.wasm.heap by {
        assert forall i :: 0 <= i < |b.wasm.heap| ==> w3.heap[i] == w1.heap[i];
      }
      Backend(b.dataIdMap[dataId := TensorData(id, Some(off), shape, dtype, refCount, None)],
              id + 1, w3)
  }

  /** `write(values, shape, dtype)`: the data id takes one counter value and
      `move` takes the next as the native id; the count starts at 1. */
  function Write(b: Backend, values: Values, shape: seq<nat>, dtype: DType): (r: (Backend, DataId))
    requires ArenaOk(b.wasm)
    requires ValuesFit(values, shape, dtype)
    ensures ArenaOk(r.0.wasm)
    ensures r.1 == DataId(b.dataIdNextNumber)
    ensures r.0.dataIdNextNumber == b.dataIdNextNumber + 2
    ensures Stored(b, r.0, r.1, b.dataIdNextNumber + 1, values, shape, dtype, 1)
  {
    var dataId := DataId(b.dataIdNextNumber);
    (Move(b.(dataIdNextNumber := b.dataIdNextNumber + 1), dataId, values, shape, dtype, 1), dataId)
  }

  // ---------------------------------------------------------------------------
  // Reading
  // ---------------------------------------------------------------------------

  /** A typed-array view of a byte range. Float32 elements stay as their raw
      bytes: floating-point reinterpretation is not modelled. */
  datatype TypedArray = Float32Array(raw: seq<byte>) | Int32Array(elems: seq<int>) | Uint8Array(bytes: seq<byte>) {

    /** The bytes underlying the view. */
    function Buffer(): seq<byte> {
      match this
      case Float32Array(raw) => raw
      case Int32Array(elems) => Int32sToBytes(elems)
      case Uint8Array(bytes) => bytes
    }
  }

  datatype ReadValue = StringPayload(payload: Option<seq<seq<byte>>>) | Typed(view: TypedArray)

  /** NoSuchTensor: the id is not stored. NullPayload: a string tensor
      created without contents was sliced. UnknownDtype: no typed-array view
      exists for the type. MisalignedBuffer: the byte count is not a multiple
      of the element width. */
  datatype ReadError = NoSuchTensor | NullPayload | UnknownDtype(dtype: DType) | MisalignedBuffer

  /** `typedArrayFromBuffer(buffer, dtype)`: view bytes as the element type. */
  function TypedArrayFromBuffer(bytes: seq<byte>, dtype: DType): (r: Result<TypedArray, ReadError>)
    ensures dtype == Bool ==> r == Success(Uint8Array(bytes))
    ensures dtype == Float32 ==> (r.Success? <==> |bytes| % 4 == 0)
    ensures dtype == Float32 && r.Success? ==> r.value == Float32Array(bytes)
    ensures dtype == Int32 ==> (r.Success? <==> |bytes| % 4 == 0)
    ensures dtype == Int32 && r.Success? ==> r.value.Int32Array? && Int32sToBytes(r.value.elems) == bytes
    ensures (dtype == Float32 || dtype == Int32) && r.Failure? ==> r.error == MisalignedBuffer
    ensures dtype == Complex64 || dtype == String ==> r == Failure(UnknownDtype(dtype))
  {
    match dtype
    case Float32 => if |bytes| % 4 == 0 then Success(Float32Array(bytes)) else Failure(MisalignedBuffer)
    case Int32 =>
      if |bytes| % 4 == 0 then
        Int32sBytesRoundTrip(bytes);
        Success(Int32Array(BytesToInt32s(bytes)))
      else Failure(MisalignedBuffer)
    case Bool => Success(Uint8Array(bytes))
    case _ => Failure(UnknownDtype(dtype))
  }

  /** The string branch of `readSync`: the whole payload when the range
      covers it, otherwise `payload.slice(start, end)`. */
  function ReadStrings(payload: Option<seq<seq<byte>>>, start: Option<int>, end: Option<int>)
    : (r: Result<ReadValue, ReadError>)
    ensures payload.Some? ==> r == Success(StringPayload(Some(Slice(payload.value, start, end))))
    ensures payload.None? ==> (r.Success? <==> (start.None? || start == Some(0)) && end.None?)
  {
    var fromStart := start.None? || start == Some(0);
    if fromStart && end.None? then
      if payload.Some? then SliceWhole(payload.value, start, end); Success(StringPayload(payload))
      else Success(StringPayload(payload))
    else if payload.None? then
      Failure(NullPayload)
    else if fromStart && end.value >= |payload.value| then
      SliceWhole(payload.value, start, end);
      Success(StringPayload(payload))
    else
      Success(StringPayload(Some(Slice(payload.value, start, end))))
  }

  /** The element range `readSync` resolves: an omitted or zero start means
      0, an omitted or zero end means the element count. */
  function ElementRange(rec: TensorData, start: Option<int>, end: Option<int>): (r: (int, int))
    ensures start.None? ==> r.0 == 0
    ensures start.Some? ==> r.0 == start.value
    ensures end.None? || end == Some(0) ==> r.1 == SizeFromShape(rec.shape)
    ensures end.Some? && end != Some(0) ==> r.1 == end.value
  {
    (if start.None? || start == Some(0) then 0 else start.value,
     if end.None? || end == Some(0) then SizeFromShape(rec.shape) else end.value)
  }

  /** `readSync(dataId, start, end)`. */
  function ReadSync(b: Backend, dataId: DataId, start: Option<int>, end: Option<int>)
    : (r: Result<ReadValue, ReadError>)
    ensures dataId !in b.dataIdMap ==> r == Failure(NoSuchTensor)
    ensures dataId in b.dataIdMap && b.dataIdMap[dataId].dtype == String
      ==> r == ReadStrings(b.dataIdMap[dataId].stringBytes, start, end)
    ensures dataId in b.dataIdMap && b.dataIdMap[dataId].dtype != String && r.Success? ==> r.value.Typed?
    ensures dataId in b.dataIdMap && b.dataIdMap[dataId].dtype == Complex64
      ==> r == Failure(UnknownDtype(Complex64))
  {
    if dataId !in b.dataIdMap then Failure(NoSuchTensor)
    else
      var rec := b.dataIdMap[dataId];
      if rec.dtype == String then ReadStrings(rec.stringBytes, start, end)
      else
        var (s, e) := ElementRange(rec, start, end);
        var bpe := BytesPerElement(rec.dtype);
        var off := rec.memoryOffset.GetOr(0);
        var bytes := Slice(b.wasm.heap, Some(off + s * bpe), Some(off + e * bpe));
        match TypedArrayFromBuffer(bytes, rec.dtype)
        case Success(a) => Success(Typed(a))
        case Failure(err) => Failure(err)
  }

  // ---------------------------------------------------------------------------
  // Reference counting and disposal
  // ---------------------------------------------------------------------------

  /** `disposeData(dataId, force)`: drop one reference; unless forced, keep
      the record while references remain and answer false. Otherwise free its
      memory, tell the module, forget the record and answer true. Absent ids
      are already released. */
  function DisposeData(b: Backend, dataId: DataId, force: bool): (r: (Backend, bool))
    ensures r.0.dataIdNextNumber == b.dataIdNextNumber
    ensures dataId !in b.dataIdMap ==> r == (b, true)
    ensures dataId in b.dataIdMap ==>
      var rec := b.dataIdMap[dataId];
      && (r.1 <==> force || rec.refCount <= 1)
      && (!r.1 ==> r.0.dataIdMap == b.dataIdMap[dataId := rec.(refCount := rec.refCount - 1)]
                   && r.0.wasm == b.wasm)
      && (r.1 ==> && r.0.dataIdMap == b.dataIdMap - {dataId}
                  && r.0.wasm.log == b.wasm.log + [Freed(rec.memoryOffset), Disposed(rec.id)]
                  && r.0.wasm.registry == b.wasm.registry - {rec.id}
                  && r.0.wasm.blocks == (if rec.memoryOffset.Some? then b.wasm.blocks - {rec.memoryOffset.value}
                                         else b.wasm.blocks)
                  && r.0.wasm.heap == b.wasm.heap)
  {
    if dataId in b.dataIdMap then
      var rec := b.dataIdMap[dataId];
      var count := rec.refCount - 1;
      if !force && count > 0 then
        (b.(dataIdMap := b.dataIdMap[dataId := rec.(refCount := count)]), false)
      else
        var w := DisposeTensor(Free(b.wasm, rec.memoryOffset), rec.id);
        (b.(dataIdMap := b.dataIdMap - {dataId}, wasm := w), true)
    else
      (b, true)
  }

  /** `refCount(dataId)`. */
  function RefCount(b: Backend, dataId: DataId): (n: int)
    ensures dataId !in b.dataIdMap ==> n == 0
    ensures dataId in b.dataIdMap ==> n == b.dataIdMap[dataId].refCount
  {
    if dataId in b.dataIdMap then b.dataIdMap[dataId].refCount else 0
  }

  /** `incRef(dataId)`: one more reference; nothing else changes. */
  function IncRef(b: Backend, dataId: DataId): (b': Backend)
    ensures dataId !in b.dataIdMap ==> b' == b
    ensures dataId in b.dataIdMap ==>
      b'.dataIdMap == b.dataIdMap[dataId := b.dataIdMap[dataId].(refCount := b.dataIdMap[dataId].refCount + 1)]
    ensures b'.wasm == b.wasm && b'.dataIdNextNumber == b.dataIdNextNumber
  {
    if dataId in b.dataIdMap then
      var rec := b.dataIdMap[dataId];
      b.(dataIdMap := b.dataIdMap[dataId := rec.(refCount := rec.refCount + 1)])
    else b
  }

  /** `numDataIds()`. */
  function NumDataIds(b: Backend): (n: nat)
    ensures n == |b.dataIdMap.Keys|
    ensures n == 0 <==> b.dataIdMap == map[]
  {
    |b.dataIdMap|
  }

  // ---------------------------------------------------------------------------
  // Kernel outputs
  // ---------------------------------------------------------------------------

  /** `makeOutput(shape, dtype, memoryOffset)`. Without an offset the output
      is an ordinary `write` with no contents. With one, the memory was
      allocated natively: a single counter value serves as both the data id
      and the native id, the record borrows that exact offset with count 1,
      and the tensor is registered; nothing is allocated. */
  function MakeOutput(b: Backend, shape: seq<nat>, dtype: DType, memoryOffset: Option<nat>)
    : (r: (Backend, TensorInfo))
    requires ArenaOk(b.wasm)
    ensures ArenaOk(r.0.wasm)
    ensures r.1.shape == shape && r.1.dtype == dtype
    ensures memoryOffset.None? ==>
      && r.1.dataId == DataId(b.dataIdNextNumber)
      && r.0.dataIdNextNumber == b.dataIdNextNumber + 2
      && Stored(b, r.0, r.1.dataId, b.dataIdNextNumber + 1, NoValues, shape, dtype, 1)
    ensures memoryOffset.Some? ==>
      && r.1.dataId == DataId(b.dataIdNextNumber)
      && r.0.dataIdNextNumber == b.dataIdNextNumber + 1
      && r.0.dataIdMap == b.dataIdMap[r.1.dataId :=
           TensorData(b.dataIdNextNumber, memoryOffset, shape, dtype, 1, None)]
      && r.0.wasm.registry == b.wasm.registry[b.dataIdNextNumber :=
           Registration(SizeFromShape(shape), memoryOffset.value)]
      && r.0.wasm.log == b.wasm.log + [Registered(b.dataIdNextNumber, SizeFromShape(shape), memoryOffset.value)]
      && r.0.wasm.blocks == b.wasm.blocks && r.0.wasm.heap == b.wasm.heap
  {
    if memoryOffset.None? then
      var (b', dataId) := Write(b, NoValues, shape, dtype);
      (b', TensorInfo(dataId, shape, dtype))
    else
      var id := b.dataIdNextNumber;
      var dataId := DataId(id);
      var rec := TensorData(id, memoryOffset, shape, dtype, 1, None);
      var w := RegisterTensor(b.wasm, id, SizeFromShape(shape), memoryOffset.value);
      (Backend(b.dataIdMap[dataId := rec], id + 1, w), TensorInfo(dataId, shape, dtype))
  }
}
