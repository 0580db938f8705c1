/** Properties of tensor storage that relate several operations: the storage
    invariant is kept by every operation, written contents read back, the
    reference count governs release, and over any run native ids are
    registered in increasing order and disposed at most once. */
module StorageProps {
  import opened Wrappers
  import opened JsSemantics
  import opened ByteEncoding
  import opened TensorUtil
  import opened WasmModule
  import opened Storage

  // ---------------------------------------------------------------------------
  // The invariant is preserved
  // ---------------------------------------------------------------------------

  /** Advancing the counter keeps the invariant. */
  lemma ValidBump(b: Backend)
    requires Valid(b)
    ensures Valid(b.(dataIdNextNumber := b.dataIdNextNumber + 1))
  {
    var b' := b.(dataIdNextNumber := b.dataIdNextNumber + 1);
    forall i | 0 <= i < |b.wasm.log| ensures EventBelow(b'.wasm.log[i], b'.dataIdNextNumber) {
      assert EventBelow(b.wasm.log[i], b.dataIdNextNumber);
    }
  }

  /** Storing a record under the current counter value as native id keeps the
      invariant, provided the data id is foreign or already handed out. */
  lemma StoreFreshValid(b: Backend, b': Backend, dataId: DataId, values: Values,
                        shape: seq<nat>, dtype: DType, refCount: int)
    requires Valid(b)
    requires ArenaOk(b'.wasm)
    requires refCount >= 1
    requires dataId.DataId? ==> dataId.id < b.dataIdNextNumber
    requires b'.dataIdNextNumber == b.dataIdNextNumber + 1
    requires Stored(b, b', dataId, b.dataIdNextNumber, values, shape, dtype, refCount)
    ensures Valid(b')
  {
    var next := b.dataIdNextNumber;
    var log, log' := b.wasm.log, b'.wasm.log;
    forall h | h in b'.dataIdMap ensures RecordOk(b', h) {
      if h != dataId { assert RecordOk(b, h); }
    }
    forall h1, h2 | h1 in b'.dataIdMap && h2 in b'.dataIdMap && h1 != h2
      ensures b'.dataIdMap[h1].id != b'.dataIdMap[h2].id
    {
      if h1 != dataId { assert RecordOk(b, h1); }
      if h2 != dataId { assert RecordOk(b, h2); }
    }
    assert forall i :: 0 <= i < |log| ==> EventBelow(log[i], next);
    if dtype == String {
      assert log' == log;
    } else {
      var rec := b'.dataIdMap[dataId];
      var off := rec.memoryOffset.value;
      AllocRegisterLogOk(log, next, off, NumBytes(shape, dtype), SizeFromShape(shape));
    }
    forall i, h | 0 <= i < |log'| && h in b'.dataIdMap && log'[i].Disposed?
      ensures log'[i].id != b'.dataIdMap[h].id
    {
      assert i < |log| && log'[i] == log[i];
      assert EventBelow(log[i], next);
    }
  }

  /** Appending an allocation and the registration of the next native id
      keeps the log's ordering facts. */
  lemma AllocRegisterLogOk(log: seq<Event>, next: nat, off: nat, bytes: nat, size: nat)
    requires next >= 1
    requires forall i :: 0 <= i < |log| ==> EventBelow(log[i], next)
    requires DisposedOnce(log) && RegisteredIncreasing(log)
    ensures var log' := log + [Allocated(off, bytes), Registered(next, size, off)];
      && (forall i :: 0 <= i < |log'| ==> EventBelow(log'[i], next + 1))
      && DisposedOnce(log') && RegisteredIncreasing(log')
  {
    var log' := log + [Allocated(off, bytes), Registered(next, size, off)];
    forall i | 0 <= i < |log'| ensures EventBelow(log'[i], next + 1) {
      if i < |log| { assert log'[i] == log[i]; }
    }
    forall i, j | 0 <= i < j < |log'| && log'[i].Registered? && log'[j].Registered?
      ensures log'[i].id < log'[j].id
    {
      if j < |log| { assert log'[i] == log[i] && log'[j] == log[j]; }
      else { assert log'[i] == log[i]; assert EventBelow(log[i], next); }
    }
    forall i, j | 0 <= i < j < |log'| && log'[i].Disposed? && log'[j].Disposed?
      ensures log'[i].id != log'[j].id
    {
      assert log'[i] == log[i] && log'[j] == log[j];
    }
  }

  lemma MovePreservesValid(b: Backend, dataId: DataId, values: Values, shape: seq<nat>,
                           dtype: DType, refCount: int)
    requires Valid(b)
    requires ValuesFit(values, shape, dtype)
    requires refCount >= 1
    requires dataId.DataId? ==> dataId.id < b.dataIdNextNumber
    ensures Valid(Move(b, dataId, values, shape, dtype, refCount))
  {
    StoreFreshValid(b, Move(b, dataId, values, shape, dtype, refCount), dataId, values, shape, dtype, refCount);
  }

  lemma WritePreservesValid(b: Backend, values: Values, shape: seq<nat>, dtype: DType)
    requires Valid(b)
    requires ValuesFit(values, shape, dtype)
    ensures Valid(Write(b, values, shape, dtype).0)
  {
    var b1 := b.(dataIdNextNumber := b.dataIdNextNumber + 1);
    ValidBump(b);
    MovePreservesValid(b1, DataId(b.dataIdNextNumber), values, shape, dtype, 1);
    assert Write(b, values, shape, dtype).0 == Move(b1, DataId(b.dataIdNextNumber), values, shape, dtype, 1);
  }

  lemma MakeOutputPreservesValid(b: Backend, shape: seq<nat>, dtype: DType, memoryOffset: Option<nat>)
    requires Valid(b)
    ensures Valid(MakeOutput(b, shape, dtype, memoryOffset).0)
  {
    if memoryOffset.None? {
      WritePreservesValid(b, NoValues, shape, dtype);
    } else {
      var b' := MakeOutput(b, shape, dtype, memoryOffset).0;
      var next := b.dataIdNextNumber;
      var log, log' := b.wasm.log, b'.wasm.log;
      forall h | h in b'.dataIdMap ensures RecordOk(b', h) {
        if h != DataId(next) { assert RecordOk(b, h); }
      }
      forall h1, h2 | h1 in b'.dataIdMap && h2 in b'.dataIdMap && h1 != h2
        ensures b'.dataIdMap[h1].id != b'.dataIdMap[h2].id
      {
        if h1 != DataId(next) { assert RecordOk(b, h1); }
        if h2 != DataId(next) { assert RecordOk(b, h2); }
      }
      assert forall i :: 0 <= i < |log| ==> EventBelow(log[i], next);
      forall i | 0 <= i < |log'| ensures EventBelow(log'[i], next + 1) {
        if i < |log| { assert log'[i] == log[i]; }
      }
      forall i, j | 0 <= i < j < |log'| && log'[i].Registered? && log'[j].Registered?
        ensures log'[i].id < log'[j].id
      {
        assert log'[i] == log[i];
        if j < |log| { assert log'[j] == log[j]; }
      }
      forall i, j | 0 <= i < j < |log'| && log'[i].Disposed? && log'[j].Disposed?
        ensures log'[i].id != log'[j].id
      {
        assert log'[i] == log[i] && log'[j] == log[j];
      }
      forall i, h | 0 <= i < |log'| && h in b'.dataIdMap && log'[i].Disposed?
        ensures log'[i].id != b'.dataIdMap[h].id
      {
        assert i < |log| && log'[i] == log[i];
      }
    }
  }

  lemma DisposePreservesValid(b: Backend, dataId: DataId, force: bool)
    requires Valid(b)
    ensures Valid(DisposeData(b, dataId, force).0)
  {
    var (b', released) := DisposeData(b, dataId, force);
    if dataId in b.dataIdMap {
      var rec := b.dataIdMap[dataId];
      if !released {
        forall h | h in b'.dataIdMap ensures RecordOk(b', h) { assert RecordOk(b, h); }
        forall h1, h2 | h1 in b'.dataIdMap && h2 in b'.dataIdMap && h1 != h2
          ensures b'.dataIdMap[h1].id != b'.dataIdMap[h2].id
        {
        }
        forall i, h | 0 <= i < |b'.wasm.log| && h in b'.dataIdMap && b'.wasm.log[i].Disposed?
          ensures b'.wasm.log[i].id != b'.dataIdMap[h].id
        {
          assert b'.dataIdMap[h].id == b.dataIdMap[h].id;
        }
      } else {
        var log, log' := b.wasm.log, b'.wasm.log;
        assert RecordOk(b, dataId);
        forall h | h in b'.dataIdMap ensures RecordOk(b', h) { assert RecordOk(b, h); }
        forall i | 0 <= i < |log'| ensures EventBelow(log'[i], b'.dataIdNextNumber) {
          if i < |log| { assert log'[i] == log[i]; }
        }
        forall i, j | 0 <= i < j < |log'| && log'[i].Disposed? && log'[j].Disposed?
          ensures log'[i].id != log'[j].id
        {
          assert log'[i] == log[i];
          if j < |log| { assert log'[j] == log[j]; }
          else { assert log'[j] == Disposed(rec.id); }
        }
        forall i, j | 0 <= i < j < |log'| && log'[i].Registered? && log'[j].Registered?
          ensures log'[i].id < log'[j].id
        {
          assert log'[i] == log[i] && log'[j] == log[j];
        }
        forall i, h | 0 <= i < |log'| && h in b'.dataIdMap && log'[i].Disposed?
          ensures log'[i].id != b'.dataIdMap[h].id
        {
          if i < |log| { assert log'[i] == log[i]; }
          else { assert log'[i] == Disposed(rec.id); }
        }
      }
    }
  }

  lemma IncRefPreservesValid(b: Backend, dataId: DataId)
    requires Valid(b)
    ensures Valid(IncRef(b, dataId))
  {
    var b' := IncRef(b, dataId);
    forall h | h in b'.dataIdMap ensures RecordOk(b', h) { assert RecordOk(b, h); }
    forall i, h | 0 <= i < |b'.wasm.log| && h in b'.dataIdMap && b'.wasm.log[i].Disposed?
      ensures b'.wasm.log[i].id != b'.dataIdMap[h].id
    {
      assert b'.dataIdMap[h].id == b.dataIdMap[h].id;
    }
  }

  /** Calls that neither register nor dispose tensors (kernel invocations,
      sub-operations, allocations and frees made by kernels) keep the
      invariant. */
  lemma NeutralCallsPreserveValid(b: Backend, w': Wasm)
    requires Valid(b)
    requires ArenaOk(w')
    requires w'.registry == b.wasm.registry
    requires |b.wasm.log| <= |w'.log| && w'.log[..|b.wasm.log|] == b.wasm.log
    requires forall i :: |b.wasm.log| <= i < |w'.log| ==> !w'.log[i].Registered? && !w'.log[i].Disposed?
    ensures Valid(b.(wasm := w'))
  {
    var b' := b.(wasm := w');
    var log, log' := b.wasm.log, w'.log;
    forall h | h in b'.dataIdMap ensures RecordOk(b', h) { assert RecordOk(b, h); }
    forall i | 0 <= i < |log'| ensures EventBelow(log'[i], b'.dataIdNextNumber) {
      if i < |log| { assert log'[i] == log[i]; }
    }
    forall i, j | 0 <= i < j < |log'| && log'[i].Disposed? && log'[j].Disposed?
      ensures log'[i].id != log'[j].id
    {
      assert log'[i] == log[i] && log'[j] == log[j];
    }
    forall i, j | 0 <= i < j < |log'| && log'[i].Registered? && log'[j].Registered?
      ensures log'[i].id < log'[j].id
    {
      assert log'[i] == log[i] && log'[j] == log[j];
    }
    forall i, h | 0 <= i < |log'| && h in b'.dataIdMap && log'[i].Disposed?
      ensures log'[i].id != b'.dataIdMap[h].id
    {
      assert log'[i] == log[i];
    }
  }

  // ---------------------------------------------------------------------------
  // Written contents read back
  // ---------------------------------------------------------------------------

  /** A whole-tensor read of a numeric record views the bytes from its
      offset to its offset plus its byte size. */
  lemma ReadSyncWhole(b: Backend, dataId: DataId)
    requires dataId in b.dataIdMap && b.dataIdMap[dataId].dtype != String
    requires b.dataIdMap[dataId].memoryOffset.Some?
    ensures var rec := b.dataIdMap[dataId];
      var off := rec.memoryOffset.value;
      var bytes := Slice(b.wasm.heap, Some(off), Some(off + NumBytes(rec.shape, rec.dtype)));
      ReadSync(b, dataId, None, None) ==
        match TypedArrayFromBuffer(bytes, rec.dtype)
        case Success(a) => Success(Typed(a))
        case Failure(e) => Failure(e)
  {
  }

  /** Writing a numeric tensor and reading it straight back yields exactly the
      bytes written, viewed as the tensor's type; for shapes with a zero
      dimension that is the empty view. */
  lemma WriteReadRoundTrip(b: Backend, bytes: seq<byte>, shape: seq<nat>, dtype: DType)
    requires ArenaOk(b.wasm)
    requires dtype == Float32 || dtype == Int32 || dtype == Bool
    requires |bytes| == NumBytes(shape, dtype)
    ensures var (b', h) := Write(b, Bytes(bytes), shape, dtype);
      && ReadSync(b', h, None, None).Success?
      && ReadSync(b', h, None, None).value == Typed(TypedArrayFromBuffer(bytes, dtype).value)
  {
    var r := Write(b, Bytes(bytes), shape, dtype);
    var b', h := r.0, r.1;
    assert Stored(b, b', h, b.dataIdNextNumber + 1, Bytes(bytes), shape, dtype, 1);
    var off := b'.dataIdMap[h].memoryOffset.value;
    var n := NumBytes(shape, dtype);
    assert bytes[..n] == bytes;
    assert b'.wasm.heap[off..off + n] == bytes;
    ReadBackStored(b', h, bytes);
  }

  /** A numeric record whose memory holds `bytes` reads back whole as those
      bytes viewed in the record's type. */
  lemma ReadBackStored(b: Backend, h: DataId, bytes: seq<byte>)
    requires h in b.dataIdMap
    requires var rec := b.dataIdMap[h];
      && (rec.dtype == Float32 || rec.dtype == Int32 || rec.dtype == Bool)
      && rec.memoryOffset.Some?
      && |bytes| == NumBytes(rec.shape, rec.dtype)
      && rec.memoryOffset.value + |bytes| <= |b.wasm.heap|
      && b.wasm.heap[rec.memoryOffset.value..rec.memoryOffset.value + |bytes|] == bytes
    ensures TypedArrayFromBuffer(bytes, b.dataIdMap[h].dtype).Success?
    ensures ReadSync(b, h, None, None)
         == Success(Typed(TypedArrayFromBuffer(bytes, b.dataIdMap[h].dtype).value))
  {
    var rec := b.dataIdMap[h];
    var off := rec.memoryOffset.value;
    SliceInRange(b.wasm.heap, off, off + |bytes|);
    ReadSyncWhole(b, h);
    ViewKeepsBytes(bytes, rec.dtype);
  }

  /** Writing an int32 tensor from integers and reading it back yields the
      integers wrapped to 32 bits. */
  lemma WriteReadInt32s(b: Backend, xs: seq<int>, shape: seq<nat>)
    requires ArenaOk(b.wasm)
    requires |xs| == SizeFromShape(shape)
    ensures var (b', h) := Write(b, Bytes(Int32sToBytes(xs)), shape, Int32);
      && ReadSync(b', h, None, None).Success?
      && ReadSync(b', h, None, None).value.view.Int32Array?
      && var got := ReadSync(b', h, None, None).value.view.elems;
      && |got| == |xs|
      && forall i :: 0 <= i < |xs| ==> got[i] == ToInt32(xs[i])
  {
    var bytes := Int32sToBytes(xs);
    WriteReadRoundTrip(b, bytes, shape, Int32);
    Int32sRoundTrip(xs);
  }

  /** Writing a string tensor and reading it back yields the same strings,
      without touching native memory. */
  lemma WriteReadStrings(b: Backend, strings: seq<seq<byte>>, shape: seq<nat>)
    requires ArenaOk(b.wasm)
    ensures var (b', h) := Write(b, Strings(strings), shape, String);
      && ReadSync(b', h, None, None) == Success(StringPayload(Some(strings)))
      && b'.wasm == b.wasm
  {
  }

  /** For numeric tensors an explicit end of 0 is treated like an omitted
      end: the read runs to the last element rather than being empty. */
  lemma ReadEndZeroReadsToEnd(b: Backend, dataId: DataId, start: Option<int>)
    requires dataId in b.dataIdMap && b.dataIdMap[dataId].dtype != String
    ensures ReadSync(b, dataId, start, Some(0)) == ReadSync(b, dataId, start, None)
  {
  }

  /** Reading a numeric tensor over an element range that lies inside
      memory copies exactly the bytes `[offset + start * width, offset + end
      * width)`. A start of 0 is the first element; an end of 0 means the
      whole tensor instead (`ReadEndZeroReadsToEnd`). */
  lemma ReadSyncRange(b: Backend, dataId: DataId, start: nat, end: nat)
    requires dataId in b.dataIdMap
    requires b.dataIdMap[dataId].dtype in {Float32, Int32, Bool}
    requires b.dataIdMap[dataId].memoryOffset.Some?
    requires start <= end && 0 < end
    requires b.dataIdMap[dataId].memoryOffset.value + end * BytesPerElement(b.dataIdMap[dataId].dtype)
             <= |b.wasm.heap|
    ensures var rec := b.dataIdMap[dataId];
      var off := rec.memoryOffset.value;
      var bpe := BytesPerElement(rec.dtype);
      && ReadSync(b, dataId, Some(start), Some(end)).Success?
      && ReadSync(b, dataId, Some(start), Some(end)).value.view.Buffer()
           == b.wasm.heap[off + start * bpe..off + end * bpe]
  {
    var rec := b.dataIdMap[dataId];
    var off := rec.memoryOffset.value;
    var bpe := BytesPerElement(rec.dtype);
    var lo, hi := off + start * bpe, off + end * bpe;
    ElementBytes(start, end, bpe);
    ReadSyncAt(b, dataId, Some(start), Some(end), lo, hi);
    SliceInRange(b.wasm.heap, lo, hi);
    ViewKeepsBytes(b.wasm.heap[lo..hi], rec.dtype);
  }

  /** The elements [start, end) span a whole number of elements' bytes. */
  lemma ElementBytes(start: nat, end: nat, bpe: nat)
    requires start <= end && (bpe == 1 || bpe == 4)
    ensures start * bpe <= end * bpe
    ensures (end * bpe - start * bpe) % bpe == 0
  {
    assert end * bpe - start * bpe == (end - start) * bpe;
  }

  /** A numeric read slices the heap at the offset plus the element range
      scaled by the element width, and views that slice. */
  lemma ReadSyncAt(b: Backend, dataId: DataId, start: Option<int>, end: Option<int>, lo: int, hi: int)
    requires dataId in b.dataIdMap && b.dataIdMap[dataId].dtype != String
    requires b.dataIdMap[dataId].memoryOffset.Some?
    requires var rec := b.dataIdMap[dataId];
      var range := ElementRange(rec, start, end);
      && lo == rec.memoryOffset.value + range.0 * BytesPerElement(rec.dtype)
      && hi == rec.memoryOffset.value + range.1 * BytesPerElement(rec.dtype)
    ensures ReadSync(b, dataId, start, end) ==
      match TypedArrayFromBuffer(Slice(b.wasm.heap, Some(lo), Some(hi)), b.dataIdMap[dataId].dtype)
      case Success(a) => Success(Typed(a))
      case Failure(e) => Failure(e)
  {
  }

  /** A byte count that is a whole number of elements views without error,
      and the view's buffer is the bytes themselves. */
  lemma ViewKeepsBytes(bytes: seq<byte>, dtype: DType)
    requires dtype == Float32 || dtype == Int32 || dtype == Bool
    requires |bytes| % BytesPerElement(dtype) == 0
    ensures TypedArrayFromBuffer(bytes, dtype).Success?
    ensures TypedArrayFromBuffer(bytes, dtype).value.Buffer() == bytes
  {
  }

  // ---------------------------------------------------------------------------
  // Reference counts
  // ---------------------------------------------------------------------------

  /** In a valid state the count is 0 exactly for data ids not stored. */
  lemma RefCountZeroIffAbsent(b: Backend, dataId: DataId)
    requires Valid(b)
    ensures RefCount(b, dataId) == 0 <==> dataId !in b.dataIdMap
  {
    if dataId in b.dataIdMap { assert RecordOk(b, dataId); }
  }

  /** `incRef` followed by a non-forced `disposeData` leaves the storage and
      the module exactly as they were, and reports nothing released. */
  lemma IncRefThenDisposeCancels(b: Backend, dataId: DataId)
    requires Valid(b)
    requires dataId in b.dataIdMap
    ensures DisposeData(IncRef(b, dataId), dataId, false) == (b, false)
  {
    assert RecordOk(b, dataId);
    var rec := b.dataIdMap[dataId];
    assert b.dataIdMap[dataId := rec.(refCount := rec.refCount + 1)][dataId := rec] == b.dataIdMap;
  }

  /** A forced disposal always releases, and the data id is gone afterwards. */
  lemma ForcedDisposeReleases(b: Backend, dataId: DataId)
    ensures DisposeData(b, dataId, true).1
    ensures dataId !in DisposeData(b, dataId, true).0.dataIdMap
  {
  }

  /** Releasing a stored tensor lowers the live count by one; keeping it
      leaves the count alone. */
  lemma DisposeCount(b: Backend, dataId: DataId, force: bool)
    requires dataId in b.dataIdMap
    ensures var (b', released) := DisposeData(b, dataId, force);
      NumDataIds(b') == if released then NumDataIds(b) - 1 else NumDataIds(b)
  {
    var (b', released) := DisposeData(b, dataId, force);
    if released {
      assert b'.dataIdMap.Keys == b.dataIdMap.Keys - {dataId};
    } else {
      assert b'.dataIdMap.Keys == b.dataIdMap.Keys;
    }
  }

  /** `n` non-forced disposals of one data id, with each call's answer. */
  function DisposeTimes(b: Backend, dataId: DataId, n: nat): (Backend, seq<bool>)
    decreases n
  {
    if n == 0 then (b, [])
    else
      var first := DisposeData(b, dataId, false);
      var rest := DisposeTimes(first.0, dataId, n - 1);
      (rest.0, [first.1] + rest.1)
  }

  /** A tensor with `k` references survives `k - 1` non-forced disposals,
      each answering false, and is released by the `k`-th: its memory freed
      and its native id disposed, once. */
  lemma {:induction false} DisposeCountdown(b: Backend, dataId: DataId, k: nat)
    requires dataId in b.dataIdMap
    requires b.dataIdMap[dataId].refCount == k >= 1
    ensures var (b', answers) := DisposeTimes(b, dataId, k);
      && answers == seq(k - 1, _ => false) + [true]
      && b'.dataIdMap == b.dataIdMap - {dataId}
      && b'.wasm.log == b.wasm.log + [Freed(b.dataIdMap[dataId].memoryOffset), Disposed(b.dataIdMap[dataId].id)]
    decreases k
  {
    var rec := b.dataIdMap[dataId];
    if k == 1 {
      var (b1, r1) := DisposeData(b, dataId, false);
      assert r1;
      assert DisposeTimes(b1, dataId, 0) == (b1, []);
      assert DisposeTimes(b, dataId, 1).0 == b1;
      assert DisposeTimes(b, dataId, 1).1 == [r1] + [];
      assert [r1] + [] == [true];
    } else {
      var (b1, r1) := DisposeData(b, dataId, false);
      assert !r1;
      assert b1.dataIdMap[dataId] == rec.(refCount := k - 1);
      DisposeCountdown(b1, dataId, k - 1);
      var (b2, rest) := DisposeTimes(b1, dataId, k - 1);
      assert DisposeTimes(b, dataId, k) == (b2, [false] + rest);
      assert [false] + (seq(k - 2, _ => false) + [true]) == seq(k - 1, _ => false) + [true];
      assert b1.dataIdMap - {dataId} == b.dataIdMap - {dataId};
    }
  }

  // ---------------------------------------------------------------------------
  // Runs of storage operations
  // ---------------------------------------------------------------------------

  /** A public storage call as the tensor engine issues it. */
  datatype StorageOp =
    | WriteOp(values: Values, shape: seq<nat>, dtype: DType)
    | MoveOp(dataId: DataId, values: Values, shape: seq<nat>, dtype: DType, refCount: int)
    | DisposeOp(dataId: DataId, force: bool)
    | IncRefOp(dataId: DataId)
    | MakeOutputOp(shape: seq<nat>, dtype: DType, memoryOffset: Option<nat>)

  /** Calls the engine may make: contents that fit, and `move` only of data
      ids made by another backend, with a positive count. */
  predicate Allowed(op: StorageOp) {
    match op
    case WriteOp(values, shape, dtype) => ValuesFit(values, shape, dtype)
    case MoveOp(dataId, values, shape, dtype, refCount) =>
      dataId.Foreign? && refCount >= 1 && ValuesFit(values, shape, dtype)
    case _ => true
  }

  function Step(b: Backend, op: StorageOp): Backend
    requires ArenaOk(b.wasm)
    requires Allowed(op)
  {
    match op
    case WriteOp(values, shape, dtype) => Write(b, values, shape, dtype).0
    case MoveOp(dataId, values, shape, dtype, refCount) => Move(b, dataId, values, shape, dtype, refCount)
    case DisposeOp(dataId, force) => DisposeData(b, dataId, force).0
    case IncRefOp(dataId) => IncRef(b, dataId)
    case MakeOutputOp(shape, dtype, memoryOffset) => MakeOutput(b, shape, dtype, memoryOffset).0
  }

  lemma StepPreservesValid(b: Backend, op: StorageOp)
    requires Valid(b)
    requires Allowed(op)
    ensures Valid(Step(b, op))
    ensures Step(b, op).dataIdNextNumber >= b.dataIdNextNumber
  {
    match op
    case WriteOp(values, shape, dtype) => WritePreservesValid(b, values, shape, dtype);
    case MoveOp(dataId, values, shape, dtype, refCount) =>
      MovePreservesValid(b, dataId, values, shape, dtype, refCount);
    case DisposeOp(dataId, force) => DisposePreservesValid(b, dataId, force);
    case IncRefOp(dataId) => IncRefPreservesValid(b, dataId);
    case MakeOutputOp(shape, dtype, memoryOffset) => MakeOutputPreservesValid(b, shape, dtype, memoryOffset);
  }

  predicate AllAllowed(ops: seq<StorageOp>) {
    forall i :: 0 <= i < |ops| ==> Allowed(ops[i])
  }

  /** The state after applying `ops` in order; a run that reaches a state
      whose arena is broken stops there. */
  function Run(b: Backend, ops: seq<StorageOp>): Backend
    requires AllAllowed(ops)
    decreases |ops|
  {
    if ops == [] || !ArenaOk(b.wasm) then b else Run(Step(b, ops[0]), ops[1..])
  }

  /** Every run from a valid state ends in a valid state, and the counter
      never goes back. */
  lemma {:induction false} RunPreservesValid(b: Backend, ops: seq<StorageOp>)
    requires Valid(b)
    requires AllAllowed(ops)
    ensures Valid(Run(b, ops))
    ensures Run(b, ops).dataIdNextNumber >= b.dataIdNextNumber
    decreases |ops|
  {
    if ops != [] {
      StepPreservesValid(b, ops[0]);
      assert AllAllowed(ops[1..]) by {
        forall i | 0 <= i < |ops[1..]| ensures Allowed(ops[1..][i]) { assert ops[1..][i] == ops[i + 1]; }
      }
      RunPreservesValid(Step(b, ops[0]), ops[1..]);
    }
  }

  /** Over any run of a freshly constructed backend, every native id the
      module is told about is at least 1 and larger than every id registered
      before it, no native id is disposed twice, and no live tensor's id has
      been disposed. */
  lemma RunFromNewBackend(w: Wasm, threadsCount: int, ops: seq<StorageOp>)
    requires ArenaOk(w) && w.registry == map[] && w.log == []
    requires AllAllowed(ops)
    ensures var log := Run(NewBackend(w, threadsCount), ops).wasm.log;
      && RegisteredIncreasing(log)
      && DisposedOnce(log)
      && (forall i :: 0 <= i < |log| && log[i].Registered? ==> log[i].id >= 1)
    ensures var b := Run(NewBackend(w, threadsCount), ops);
      forall i, h :: 0 <= i < |b.wasm.log| && h in b.dataIdMap && b.wasm.log[i].Disposed?
        ==> b.wasm.log[i].id != b.dataIdMap[h].id
  {
    var b := Run(NewBackend(w, threadsCount), ops);
    RunPreservesValid(NewBackend(w, threadsCount), ops);
    assert forall i :: 0 <= i < |b.wasm.log| ==> EventBelow(b.wasm.log[i], b.dataIdNextNumber);
  }
}
