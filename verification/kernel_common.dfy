/** What every operator adapter shares: looking up the native id of a live
    tensor, the shape of a kernel's effect on the record map, the opaque
    sub-kernels (cast, pad, transpose) that composite adapters run, and
    reshape, which aliases its input. */
module KernelCommon {
  import opened Wrappers
  import opened TensorUtil
  import opened WasmModule
  import opened Storage
  import opened StorageProps

  /** `backend.dataIdMap.get(dataId).id`: the number an adapter passes to the
      module for a live tensor. */
  function NativeId(b: Backend, h: DataId): nat
    requires h in b.dataIdMap
  {
    b.dataIdMap[h].id
  }

  /** The record map gained exactly one entry, a singly referenced tensor
      under a handle that was not live before, described by `out`; every
      other record is as it was. */
  predicate AddsOutput(b: Backend, b': Backend, out: TensorInfo) {
    && out.dataId !in b.dataIdMap
    && out.dataId in b'.dataIdMap
    && b'.dataIdMap == b.dataIdMap[out.dataId := b'.dataIdMap[out.dataId]]
    && b'.dataIdMap[out.dataId].refCount == 1
    && b'.dataIdMap[out.dataId].shape == out.shape
    && b'.dataIdMap[out.dataId].dtype == out.dtype
  }

  /** A kernel output made by `makeOutput` without an offset is fresh, and its
      native id differs from that of every tensor live before. */
  lemma FreshOutputIsNew(b: Backend, shape: seq<nat>, dtype: DType)
    requires Valid(b)
    ensures var (b', out) := MakeOutput(b, shape, dtype, None);
      && Valid(b')
      && AddsOutput(b, b', out)
      && (forall h :: h in b.dataIdMap ==> NativeId(b', out.dataId) != NativeId(b, h))
      && NumDataIds(b') == NumDataIds(b) + 1
  {
    MakeOutputPreservesValid(b, shape, dtype, None);
    var (b', out) := MakeOutput(b, shape, dtype, None);
    forall h | h in b.dataIdMap ensures NativeId(b', out.dataId) != NativeId(b, h) {
      assert RecordOk(b, h);
    }
    forall h | h in b.dataIdMap ensures h != out.dataId { assert RecordOk(b, h); }
    assert b'.dataIdMap.Keys == b.dataIdMap.Keys + {out.dataId};
  }

  /** An opaque sub-kernel (cast, padV2, transpose): a fresh output of
      the given shape and type, which the module fills from `input`. The
      output takes the next two counter values, as `makeOutput` does. */
  function RunSubKernel(b: Backend, op: SubOp, input: DataId, shape: seq<nat>, dtype: DType)
    : (r: (Backend, TensorInfo))
    requires ArenaOk(b.wasm) && input in b.dataIdMap
    ensures ArenaOk(r.0.wasm)
    ensures r.1 == TensorInfo(DataId(b.dataIdNextNumber), shape, dtype)
    ensures r.0.dataIdNextNumber == b.dataIdNextNumber + 2
    ensures r.1.dataId in r.0.dataIdMap
    ensures r.0.dataIdMap == b.dataIdMap[r.1.dataId := r.0.dataIdMap[r.1.dataId]]
    ensures var rec := r.0.dataIdMap[r.1.dataId];
      rec.id == b.dataIdNextNumber + 1 && rec.refCount == 1 && rec.shape == shape && rec.dtype == dtype
  {
    var (b1, out) := MakeOutput(b, shape, dtype, None);
    var w := RunSubOp(b1.wasm, op, NativeId(b, input), NativeId(b1, out.dataId));
    (b1.(wasm := w), out)
  }

  /** On a valid backend a sub-kernel adds exactly its output, under a handle
      and a native id no live tensor has, and keeps the backend valid. */
  lemma SubKernelPreservesValid(b: Backend, op: SubOp, input: DataId, shape: seq<nat>, dtype: DType)
    requires Valid(b) && input in b.dataIdMap
    ensures var (b2, t) := RunSubKernel(b, op, input, shape, dtype);
      && Valid(b2)
      && AddsOutput(b, b2, t)
      && NativeId(b2, t.dataId) != NativeId(b, input)
      && NumDataIds(b2) == NumDataIds(b) + 1
  {
    FreshOutputIsNew(b, shape, dtype);
    var (b1, out) := MakeOutput(b, shape, dtype, None);
    var w := RunSubOp(b1.wasm, op, NativeId(b, input), NativeId(b1, out.dataId));
    NeutralCallsPreserveValid(b1, w);
  }

  /** The module sees the output's allocation and registration, then the
      sub-operation from the input's native id to the output's. */
  lemma SubKernelLog(b: Backend, op: SubOp, input: DataId, shape: seq<nat>, dtype: DType)
    requires ArenaOk(b.wasm) && input in b.dataIdMap
    ensures var (b2, t) := RunSubKernel(b, op, input, shape, dtype);
      var mk := MakeOutput(b, shape, dtype, None).0;
      && b2.dataIdMap == mk.dataIdMap
      && b2.wasm.blocks == mk.wasm.blocks
      && b2.wasm.log == mk.wasm.log + [SubOpRan(op, NativeId(b, input), NativeId(b2, t.dataId))]
  {
  }

  /** A sub-kernel producing a numeric tensor: its output takes the next two
      counter values, gets a fresh block of its byte size, and the module
      sees the allocation, the registration and the sub-operation, in that
      order. */
  lemma SubKernelTrace(b: Backend, op: SubOp, input: DataId, shape: seq<nat>, dtype: DType)
    requires Valid(b) && input in b.dataIdMap && dtype != String
    ensures var (b2, t) := RunSubKernel(b, op, input, shape, dtype);
      var rec := b2.dataIdMap[t.dataId];
      && t.dataId == DataId(b.dataIdNextNumber)
      && rec.id == b.dataIdNextNumber + 1 && rec.refCount == 1
      && rec.memoryOffset.Some? && rec.memoryOffset.value !in b.wasm.blocks
      && b2.dataIdMap == b.dataIdMap[t.dataId := rec]
      && b2.wasm.blocks == b.wasm.blocks[rec.memoryOffset.value := NumBytes(shape, dtype)]
      && b2.wasm.log == b.wasm.log + [Allocated(rec.memoryOffset.value, NumBytes(shape, dtype)),
                                      Registered(rec.id, SizeFromShape(shape), rec.memoryOffset.value),
                                      SubOpRan(op, NativeId(b, input), rec.id)]
  {
    SubKernelLog(b, op, input, shape, dtype);
  }

  // ---------------------------------------------------------------------------
  // What a composite adapter shows the module
  // ---------------------------------------------------------------------------

  /** `log'` continues `log`: nothing already logged is rewritten. */
  predicate Extends(log': seq<Event>, log: seq<Event>) {
    |log| <= |log'| && log'[..|log|] == log
  }

  /** The native ids the module was told to forget, in order. */
  function DisposedIds(log: seq<Event>): seq<nat> {
    if log == [] then []
    else (if log[0].Disposed? then [log[0].id] else []) + DisposedIds(log[1..])
  }

  /** The sub-operations the module ran, in order. */
  function SubOpsRun(log: seq<Event>): seq<Event> {
    if log == [] then []
    else (if log[0].SubOpRan? then [log[0]] else []) + SubOpsRun(log[1..])
  }

  lemma {:induction false} DisposedAppend(a: seq<Event>, c: seq<Event>)
    ensures DisposedIds(a + c) == DisposedIds(a) + DisposedIds(c)
  {
    if a == [] {
      assert a + c == c;
    } else {
      assert (a + c)[0] == a[0] && (a + c)[1..] == a[1..] + c;
      DisposedAppend(a[1..], c);
      var h := if a[0].Disposed? then [a[0].id] else [];
      assert DisposedIds(a + c) == h + DisposedIds(a[1..] + c);
      assert DisposedIds(a) == h + DisposedIds(a[1..]);
    }
  }

  lemma {:induction false} SubOpsAppend(a: seq<Event>, c: seq<Event>)
    ensures SubOpsRun(a + c) == SubOpsRun(a) + SubOpsRun(c)
  {
    if a == [] {
      assert a + c == c;
    } else {
      assert (a + c)[0] == a[0] && (a + c)[1..] == a[1..] + c;
      SubOpsAppend(a[1..], c);
      var h := if a[0].SubOpRan? then [a[0]] else [];
      assert SubOpsRun(a + c) == h + SubOpsRun(a[1..] + c);
      assert SubOpsRun(a) == h + SubOpsRun(a[1..]);
    }
  }

  /** Both filters distribute over concatenation. */
  lemma FiltersAppend(a: seq<Event>, c: seq<Event>)
    ensures DisposedIds(a + c) == DisposedIds(a) + DisposedIds(c)
    ensures SubOpsRun(a + c) == SubOpsRun(a) + SubOpsRun(c)
  {
    DisposedAppend(a, c);
    SubOpsAppend(a, c);
  }

  lemma FiltersSingle(e: Event)
    ensures DisposedIds([e]) == (if e.Disposed? then [e.id] else [])
    ensures SubOpsRun([e]) == (if e.SubOpRan? then [e] else [])
  {
    assert [e][1..] == [];
  }

  /** `log'` continues `log`, and what it adds disposes of exactly the
      native ids `disposed` and runs exactly the sub-operations `ops`, in
      order. */
  predicate Logged(log': seq<Event>, log: seq<Event>, disposed: seq<nat>, ops: seq<Event>) {
    && Extends(log', log)
    && DisposedIds(log'[|log|..]) == disposed
    && SubOpsRun(log'[|log|..]) == ops
  }

  /** Two consecutive stretches of a log: what the second adds follows what
      the first added. */
  lemma LoggedTwice(l1: seq<Event>, l2: seq<Event>, l3: seq<Event>,
                    d1: seq<nat>, o1: seq<Event>, d2: seq<nat>, o2: seq<Event>)
    requires Logged(l2, l1, d1, o1) && Logged(l3, l2, d2, o2)
    ensures Logged(l3, l1, d1 + d2, o1 + o2)
  {
    assert l3[..|l2|][..|l1|] == l3[..|l1|];
    assert l3[|l1|..] == l2[|l1|..] + l3[|l2|..];
    FiltersAppend(l2[|l1|..], l3[|l2|..]);
  }

  lemma LoggedNothing(l: seq<Event>)
    ensures Logged(l, l, [], [])
  {
    assert l[|l|..] == [];
  }

  /** A sub-kernel shows the module one sub-operation, from its input to its
      fresh output, and disposes of nothing. */
  lemma SubKernelSteps(b: Backend, op: SubOp, input: DataId, shape: seq<nat>, dtype: DType)
    requires ArenaOk(b.wasm) && input in b.dataIdMap
    ensures var r := RunSubKernel(b, op, input, shape, dtype);
      Logged(r.0.wasm.log, b.wasm.log, [], [SubOpRan(op, NativeId(b, input), NativeId(r.0, r.1.dataId))])
  {
    SubKernelLog(b, op, input, shape, dtype);
    var (b2, t) := RunSubKernel(b, op, input, shape, dtype);
    var mk := MakeOutput(b, shape, dtype, None);
    var ev := SubOpRan(op, NativeId(b, input), NativeId(b2, t.dataId));
    var suffix := b2.wasm.log[|b.wasm.log|..];
    FiltersSingle(ev);
    if dtype == String {
      assert mk.0.wasm == b.wasm;
      assert suffix == [ev];
    } else {
      var rec := mk.0.dataIdMap[mk.1.dataId];
      var off := rec.memoryOffset.value;
      var alloc := Allocated(off, NumBytes(shape, dtype));
      var reg := Registered(rec.id, SizeFromShape(shape), off);
      assert suffix == [alloc] + [reg] + [ev];
      FiltersSingle(alloc);
      FiltersSingle(reg);
      FiltersAppend([alloc], [reg]);
      FiltersAppend([alloc] + [reg], [ev]);
    }
  }

  /** Releasing a singly referenced temporary without force disposes of it:
      the module frees its memory and forgets exactly its native id. */
  lemma ReleaseSteps(b: Backend, h: DataId)
    requires h in b.dataIdMap && b.dataIdMap[h].refCount == 1
    ensures var (b2, released) := DisposeData(b, h, false);
      && released
      && b2.dataIdMap == b.dataIdMap - {h}
      && Logged(b2.wasm.log, b.wasm.log, [NativeId(b, h)], [])
  {
    var (b2, released) := DisposeData(b, h, false);
    var rec := b.dataIdMap[h];
    var suffix := b2.wasm.log[|b.wasm.log|..];
    assert suffix == [Freed(rec.memoryOffset)] + [Disposed(rec.id)];
    FiltersSingle(Freed(rec.memoryOffset));
    FiltersSingle(Disposed(rec.id));
    FiltersAppend([Freed(rec.memoryOffset)], [Disposed(rec.id)]);
  }

  // ---------------------------------------------------------------------------
  // Sub-kernels that alias their input
  // ---------------------------------------------------------------------------

  /** The reshape kernel: it allocates nothing and does not call the module.
      The input's record gains one reference, and the result is the same
      handle described with the new shape, so the record keeps its old
      shape. */
  function Reshape(b: Backend, x: TensorInfo, shape: seq<nat>): (r: (Backend, TensorInfo))
    ensures r.1 == TensorInfo(x.dataId, shape, x.dtype)
    ensures r.0.wasm == b.wasm && r.0.dataIdNextNumber == b.dataIdNextNumber
    ensures x.dataId !in b.dataIdMap ==> r.0 == b
    ensures x.dataId in b.dataIdMap ==>
      var rec := b.dataIdMap[x.dataId];
      r.0.dataIdMap == b.dataIdMap[x.dataId := rec.(refCount := rec.refCount + 1)]
  {
    (IncRef(b, x.dataId), TensorInfo(x.dataId, shape, x.dtype))
  }

  // ---------------------------------------------------------------------------
  // Handles and native ids of a valid backend
  // ---------------------------------------------------------------------------

  /** No live handle of this backend's own is at or above the counter. */
  predicate HandlesBelow(b: Backend) {
    forall h :: h in b.dataIdMap && h.DataId? ==> h.id < b.dataIdNextNumber
  }

  lemma ValidHandlesBelow(b: Backend)
    requires Valid(b)
    ensures HandlesBelow(b)
  {
    forall h | h in b.dataIdMap && h.DataId? ensures h.id < b.dataIdNextNumber {
      assert RecordOk(b, h);
    }
  }

  /** Every live record's native id was taken from the counter already. */
  lemma NativeIdBelow(b: Backend, h: DataId)
    requires Valid(b) && h in b.dataIdMap
    ensures 1 <= NativeId(b, h) < b.dataIdNextNumber
  {
    assert RecordOk(b, h);
  }

}
