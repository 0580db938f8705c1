/** The space-to-batch adapter: pad into a fresh tensor, reshape it, transpose
    it, reshape that, then dispose of the three intermediate handles.
    Reshape aliases its input, and so does a transpose that leaves the
    non-unit axes in place; otherwise the transpose writes a second fresh
    tensor. The three disposals then either release the pad output and
    leave the transpose output as the result, or leave the pad output
    itself as the result. */
module SpaceToBatchND {
  import opened TensorUtil
  import opened WasmModule
  import opened Storage
  import opened StorageProps
  import opened KernelCommon

  /** `blockShape` and `paddings` (one `[before, after]` pair per block
      dimension). */
  datatype SpaceToBatchAttrs = SpaceToBatchAttrs(blockShape: seq<nat>, paddings: seq<(nat, nat)>)

  /** The tensor library's layout helpers `getReshaped`, `getPermuted` and
      `getReshapedPermuted`, called with `batchToSpace = false`. Their
      definitions belong to the tensor library, not to this backend, so
      they are parameters of the model. */
  datatype LayoutHelpers = LayoutHelpers(
    getReshaped: (seq<nat>, seq<nat>, nat) -> seq<nat>,
    getPermuted: (nat, nat) -> seq<nat>,
    getReshapedPermuted: (seq<nat>, seq<nat>, nat) -> seq<nat>)

  /** What the tensor library checks before dispatching: one padding pair
      per block dimension, and at least one batch dimension in front of
      the block dimensions. */
  predicate RanksAgree(shape: seq<nat>, attrs: SpaceToBatchAttrs) {
    |attrs.paddings| == |attrs.blockShape| && 1 + |attrs.blockShape| <= |shape|
  }

  function ZeroPaddings(n: nat): (ps: seq<(nat, nat)>)
    ensures |ps| == n && forall i :: 0 <= i < n ==> ps[i] == (0, 0)
  {
    if n == 0 then [] else [(0, 0)] + ZeroPaddings(n - 1)
  }

  /** `completePaddings`: a zero pair for the batch dimension, the given
      pairs, then a zero pair for every dimension from `1 + blockLen` up to
      the rank. */
  function CompletePaddings(paddings: seq<(nat, nat)>, blockLen: nat, rank: nat): (cp: seq<(nat, nat)>)
    ensures |cp| == 1 + |paddings| + (if rank > 1 + blockLen then rank - 1 - blockLen else 0)
    ensures cp[0] == (0, 0)
    ensures forall i :: 0 <= i < |paddings| ==> cp[1 + i] == paddings[i]
    ensures forall i :: 1 + |paddings| <= i < |cp| ==> cp[i] == (0, 0)
  {
    [(0, 0)] + paddings + ZeroPaddings(if rank > 1 + blockLen then rank - 1 - blockLen else 0)
  }

  /** With agreeing ranks the completed list has one pair per dimension,
      pads nothing but the block dimensions, and pads those as asked. */
  lemma {:induction false} PaddingsCoverEveryAxis(shape: seq<nat>, attrs: SpaceToBatchAttrs)
    requires RanksAgree(shape, attrs)
    ensures var cp := CompletePaddings(attrs.paddings, |attrs.blockShape|, |shape|);
      && |cp| == |shape|
      && forall i :: 0 <= i < |shape| ==>
           cp[i] == (if 1 <= i <= |attrs.blockShape| then attrs.paddings[i - 1] else (0, 0))
  {
    var cp := CompletePaddings(attrs.paddings, |attrs.blockShape|, |shape|);
    forall i | 0 <= i < |shape|
      ensures cp[i] == (if 1 <= i <= |attrs.blockShape| then attrs.paddings[i - 1] else (0, 0))
    {
      if 1 <= i <= |attrs.blockShape| {
        assert cp[1 + (i - 1)] == attrs.paddings[i - 1];
      }
    }
  }

  /** The shape pad produces: each dimension widened by its pair. */
  function PaddedShape(shape: seq<nat>, cp: seq<(nat, nat)>): (padded: seq<nat>)
    requires |cp| == |shape|
    ensures |padded| == |shape|
    ensures forall i :: 0 <= i < |shape| ==> padded[i] == cp[i].0 + shape[i] + cp[i].1
  {
    seq(|shape|, i requires 0 <= i < |shape| => cp[i].0 + shape[i] + cp[i].1)
  }

  /** The shape transpose produces: axis `i` of the output is axis
      `perm[i]` of the input; an axis number out of range yields 0. */
  function TransposedShape(shape: seq<nat>, perm: seq<nat>): (t: seq<nat>)
    ensures |t| == |perm|
    ensures forall i :: 0 <= i < |perm| && perm[i] < |shape| ==> t[i] == shape[perm[i]]
  {
    seq(|perm|, i requires 0 <= i < |perm| => if perm[i] < |shape| then shape[perm[i]] else 0)
  }

  /** The transpose kernel's no-op test: once every axis of size 1 is
      dropped from the input shape and from the permutation, the remaining
      axes keep their order. The kernel then returns an alias of its input
      (`identity`, an `incRef`) instead of a fresh tensor. */
  predicate PermIsNoOp(shape: seq<nat>, perm: seq<nat>) {
    forall i, j ::
      0 <= i < j < |perm| && perm[i] < |shape| && perm[j] < |shape| && shape[perm[i]] != 1 && shape[perm[j]] != 1
      ==> perm[i] < perm[j]
  }

  /** Block shape `[2, 2]` on a `[1, 2, 2, 3]` input with no padding reshapes
      to `[1, 1, 2, 1, 2, 3]` and permutes by `[2, 4, 0, 1, 3, 5]`; only the
      size-1 axes move, so the transpose is a no-op. With a batch of 2 and
      height 4 (reshaped to `[2, 2, 2, 1, 2, 3]`) the same permutation moves
      a non-unit axis. */
  lemma NoOpExamples()
    ensures PermIsNoOp([1, 1, 2, 1, 2, 3], [2, 4, 0, 1, 3, 5])
    ensures !PermIsNoOp([2, 2, 2, 1, 2, 3], [2, 4, 0, 1, 3, 5])
  {
    var perm: seq<nat> := [2, 4, 0, 1, 3, 5];
    var moved: seq<nat> := [2, 2, 2, 1, 2, 3];
    assert moved[perm[1]] != 1 && moved[perm[2]] != 1 && !(perm[1] < perm[2]);
  }

  /** The attributes each sub-kernel is run with, derived from the input
      shape as the adapter does. */
  datatype Plan = Plan(paddings: seq<(nat, nat)>, paddedShape: seq<nat>, reshapedShape: seq<nat>,
                       perm: seq<nat>, transposedShape: seq<nat>, flattenShape: seq<nat>)

  /** Pad every axis by its pair, so only the block axes grow, each by
      the sum of its given pair; the layout helpers then see the padded
      shape, and the transpose moves axis `perm[i]` to position `i`. */
  function MakePlan(shape: seq<nat>, attrs: SpaceToBatchAttrs, helpers: LayoutHelpers): (p: Plan)
    requires RanksAgree(shape, attrs)
    ensures |p.paddings| == |shape|
    ensures forall i :: 0 <= i < |shape| ==>
      p.paddings[i] == (if 1 <= i <= |attrs.blockShape| then attrs.paddings[i - 1] else (0, 0))
    ensures |p.paddedShape| == |shape|
    ensures forall i :: 0 <= i < |shape| ==>
      p.paddedShape[i] == shape[i] + (if 1 <= i <= |attrs.blockShape|
                                      then attrs.paddings[i - 1].0 + attrs.paddings[i - 1].1 else 0)
    ensures p.reshapedShape == helpers.getReshaped(p.paddedShape, attrs.blockShape, SizeFromShape(attrs.blockShape))
    ensures p.perm == helpers.getPermuted(|p.reshapedShape|, |attrs.blockShape|)
    ensures |p.transposedShape| == |p.perm|
    ensures forall i :: 0 <= i < |p.perm| && p.perm[i] < |p.reshapedShape| ==>
      p.transposedShape[i] == p.reshapedShape[p.perm[i]]
    ensures p.flattenShape
         == helpers.getReshapedPermuted(p.paddedShape, attrs.blockShape, SizeFromShape(attrs.blockShape))
  {
    var prod := SizeFromShape(attrs.blockShape);
    PaddingsCoverEveryAxis(shape, attrs);
    var cp := CompletePaddings(attrs.paddings, |attrs.blockShape|, |shape|);
    var padded := PaddedShape(shape, cp);
    var reshaped := helpers.getReshaped(padded, attrs.blockShape, prod);
    var perm := helpers.getPermuted(|reshaped|, |attrs.blockShape|);
    Plan(cp, padded, reshaped, perm, TransposedShape(reshaped, perm),
         helpers.getReshapedPermuted(padded, attrs.blockShape, prod))
  }

  /** A fresh sub-kernel output followed by a reshape of it (`padV2` then
      `reshape`, or `transpose` then `reshape`), with `n` the counter before:
      one new record, `n`, with native id `n + 1`, referenced twice, once by
      each description. The module sees the sub-kernel run and nothing
      else; for a numeric dtype one block of the output's byte size is
      allocated at an offset not live before. */
  predicate AliasedStage(b: Backend, b': Backend, op: SubOp, input: DataId, shape: seq<nat>, dtype: DType)
    requires input in b.dataIdMap
  {
    var n := b.dataIdNextNumber;
    && b'.dataIdNextNumber == n + 2
    && DataId(n) !in b.dataIdMap && DataId(n) in b'.dataIdMap
    && b'.dataIdMap == b.dataIdMap[DataId(n) := b'.dataIdMap[DataId(n)]]
    && b'.dataIdMap[DataId(n)].id == n + 1
    && b'.dataIdMap[DataId(n)].refCount == 2
    && b'.dataIdMap[DataId(n)].shape == shape
    && b'.dataIdMap[DataId(n)].dtype == dtype
    && Logged(b'.wasm.log, b.wasm.log, [], [SubOpRan(op, NativeId(b, input), n + 1)])
    && (dtype != String ==>
          var rec := b'.dataIdMap[DataId(n)];
          && rec.memoryOffset.Some? && rec.memoryOffset.value !in b.wasm.blocks
          && b'.wasm.blocks == b.wasm.blocks[rec.memoryOffset.value := NumBytes(shape, dtype)])
  }

  /** Run a sub-kernel into a fresh output, then reshape that output. */
  method FreshThenAlias(b: Backend, op: SubOp, input: DataId, shape: seq<nat>, aliasShape: seq<nat>,
                        dtype: DType) returns (b': Backend, output: TensorInfo, alias: TensorInfo)
    requires Valid(b) && input in b.dataIdMap
    ensures Valid(b')
    ensures output == TensorInfo(DataId(b.dataIdNextNumber), shape, dtype)
    ensures alias == TensorInfo(DataId(b.dataIdNextNumber), aliasShape, dtype)
    ensures AliasedStage(b, b', op, input, shape, dtype)
  {
    var ran := RunSubKernel(b, op, input, shape, dtype);
    var reshaped := Reshape(ran.0, ran.1, aliasShape);
    AliasedOutputRecords(b, op, input, shape, aliasShape, dtype);
    SubKernelSteps(b, op, input, shape, dtype);
    if dtype != String {
      SubKernelTrace(b, op, input, shape, dtype);
    }
    b', output, alias := reshaped.0, ran.1, reshaped.1;
  }

  lemma AliasedOutputRecords(b: Backend, op: SubOp, input: DataId, shape: seq<nat>, aliasShape: seq<nat>,
                             dtype: DType)
    requires Valid(b) && input in b.dataIdMap
    ensures var n := b.dataIdNextNumber;
      var ran := RunSubKernel(b, op, input, shape, dtype);
      var b' := Reshape(ran.0, ran.1, aliasShape).0;
      && Valid(b')
      && DataId(n) !in b.dataIdMap && DataId(n) in b'.dataIdMap
      && b'.dataIdMap == b.dataIdMap[DataId(n) := b'.dataIdMap[DataId(n)]]
      && b'.dataIdMap[DataId(n)] == ran.0.dataIdMap[DataId(n)].(refCount := 2)
  {
    ValidHandlesBelow(b);
    SubKernelPreservesValid(b, op, input, shape, dtype);
    var ran := RunSubKernel(b, op, input, shape, dtype);
    IncRefPreservesValid(ran.0, ran.1.dataId);
  }

  /** The adapter's three closing `disposeData` calls, on the pad output,
      its reshaped alias (the same handle) and the transpose output. */
  function Released(b: Backend, padded: DataId, transposed: DataId): Backend {
    DisposeData(DisposeData(DisposeData(b, padded, false).0, padded, false).0, transposed, false).0
  }

  /** The first two disposals drop the pad output's two references,
      releasing it; the third drops the transpose output back to one
      reference. Only the release reaches the module. */
  lemma ReleasedRecords(b: Backend, p: DataId, t: DataId)
    requires p != t && p in b.dataIdMap && t in b.dataIdMap
    requires b.dataIdMap[p].refCount == 2 && b.dataIdMap[t].refCount == 2
    ensures var b' := Released(b, p, t);
      && b'.dataIdNextNumber == b.dataIdNextNumber
      && b'.dataIdMap == (b.dataIdMap - {p})[t := b.dataIdMap[t].(refCount := 1)]
      && Logged(b'.wasm.log, b.wasm.log, [NativeId(b, p)], [])
      && b'.wasm.blocks == (if b.dataIdMap[p].memoryOffset.Some?
                            then b.wasm.blocks - {b.dataIdMap[p].memoryOffset.value} else b.wasm.blocks)
  {
    var b1 := DisposeData(b, p, false).0;
    ReleaseSteps(b1, p);
  }

  lemma ReleasedValid(b: Backend, p: DataId, t: DataId)
    requires Valid(b)
    ensures Valid(Released(b, p, t))
  {
    DisposePreservesValid(b, p, false);
    var b1 := DisposeData(b, p, false).0;
    DisposePreservesValid(b1, p, false);
    DisposePreservesValid(DisposeData(b1, p, false).0, t, false);
  }

  /** After a pad stage, a transpose stage reading the pad output and the
      release: the transpose output `n + 2` is the one new record, singly
      referenced, with native id `n + 3`, and the pad output is gone. */
  lemma StagesReleasedRecords(b: Backend, b2: Backend, b4: Backend, x: TensorInfo, plan: Plan)
    requires x.dataId in b.dataIdMap && DataId(b.dataIdNextNumber) in b2.dataIdMap
    requires AliasedStage(b, b2, PadWith(plan.paddings, 0), x.dataId, plan.paddedShape, x.dtype)
    requires AliasedStage(b2, b4, TransposeBy(plan.perm), DataId(b.dataIdNextNumber), plan.transposedShape, x.dtype)
    ensures var n := b.dataIdNextNumber;
      var T := DataId(n + 2);
      var b' := Released(b4, DataId(n), T);
      && b'.dataIdNextNumber == n + 4
      && DataId(n) !in b'.dataIdMap
      && T !in b.dataIdMap && T in b'.dataIdMap
      && b'.dataIdMap == b.dataIdMap[T := b'.dataIdMap[T]]
      && b'.dataIdMap[T].id == n + 3
      && b'.dataIdMap[T].refCount == 1
      && b'.dataIdMap[T].shape == plan.transposedShape
      && b'.dataIdMap[T].dtype == x.dtype
      && NumDataIds(b') == NumDataIds(b) + 1
  {
    var n := b.dataIdNextNumber;
    var P, T := DataId(n), DataId(n + 2);
    ReleasedRecords(b4, P, T);
    var b' := Released(b4, P, T);
    assert b'.dataIdMap == b.dataIdMap[T := b4.dataIdMap[T].(refCount := 1)];
    assert b'.dataIdMap.Keys == b.dataIdMap.Keys + {T};
  }

  /** What the module sees of the two stages and the release: pad into
      `n + 1`, transpose from there into `n + 3`, then the disposal of
      `n + 1`. */
  lemma StagesReleasedLog(b: Backend, b2: Backend, b4: Backend, x: TensorInfo, plan: Plan)
    requires x.dataId in b.dataIdMap && DataId(b.dataIdNextNumber) in b2.dataIdMap
    requires AliasedStage(b, b2, PadWith(plan.paddings, 0), x.dataId, plan.paddedShape, x.dtype)
    requires AliasedStage(b2, b4, TransposeBy(plan.perm), DataId(b.dataIdNextNumber), plan.transposedShape, x.dtype)
    ensures var n := b.dataIdNextNumber;
      Logged(Released(b4, DataId(n), DataId(n + 2)).wasm.log, b.wasm.log, [n + 1],
             [SubOpRan(PadWith(plan.paddings, 0), NativeId(b, x.dataId), n + 1),
              SubOpRan(TransposeBy(plan.perm), n + 1, n + 3)])
  {
    var n := b.dataIdNextNumber;
    var P, T := DataId(n), DataId(n + 2);
    assert b4.dataIdMap[P] == b2.dataIdMap[P];
    ReleasedRecords(b4, P, T);
    LoggedTwoThenOne(b.wasm.log, b2.wasm.log, b4.wasm.log, Released(b4, P, T).wasm.log,
                     SubOpRan(PadWith(plan.paddings, 0), NativeId(b, x.dataId), n + 1),
                     SubOpRan(TransposeBy(plan.perm), n + 1, n + 3), n + 1);
  }

  /** Two stretches that each run one operation, then one that disposes one
      tensor, read as one stretch. */
  lemma LoggedTwoThenOne(l0: seq<Event>, l1: seq<Event>, l2: seq<Event>, l3: seq<Event>,
                         op1: Event, op2: Event, id: nat)
    requires Logged(l1, l0, [], [op1]) && Logged(l2, l1, [], [op2]) && Logged(l3, l2, [id], [])
    ensures Logged(l3, l0, [id], [op1, op2])
  {
    LoggedTwice(l0, l1, l2, [], [op1], [], [op2]);
    assert [op1] + [op2] == [op1, op2];
    LoggedTwice(l0, l2, l3, [], [op1, op2], [id], []);
    assert [op1, op2] + [] == [op1, op2];
  }

  /** For a numeric tensor no intermediate memory outlives the call: the
      pad output's block is freed again and the only new live block is the
      transpose output's, of the transposed shape's byte size. */
  lemma StagesReleasedMemory(b: Backend, b2: Backend, b4: Backend, x: TensorInfo, plan: Plan)
    requires x.dataId in b.dataIdMap && DataId(b.dataIdNextNumber) in b2.dataIdMap && x.dtype != String
    requires AliasedStage(b, b2, PadWith(plan.paddings, 0), x.dataId, plan.paddedShape, x.dtype)
    requires AliasedStage(b2, b4, TransposeBy(plan.perm), DataId(b.dataIdNextNumber), plan.transposedShape, x.dtype)
    ensures var n := b.dataIdNextNumber;
      var T := DataId(n + 2);
      var b' := Released(b4, DataId(n), T);
      && T in b'.dataIdMap && b'.dataIdMap[T].memoryOffset.Some?
      && var off := b'.dataIdMap[T].memoryOffset.value;
      && off !in b.wasm.blocks
      && b'.wasm.blocks == b.wasm.blocks[off := NumBytes(plan.transposedShape, x.dtype)]
  {
    var n := b.dataIdNextNumber;
    var P, T := DataId(n), DataId(n + 2);
    assert b4.dataIdMap[P] == b2.dataIdMap[P];
    ReleasedRecords(b4, P, T);
    var p1, p2 := b2.dataIdMap[P].memoryOffset.value, b4.dataIdMap[T].memoryOffset.value;
    var s1, s2 := NumBytes(plan.paddedShape, x.dtype), NumBytes(plan.transposedShape, x.dtype);
    assert b4.wasm.blocks == b.wasm.blocks[p1 := s1][p2 := s2];
    AddedThenRemoved(b.wasm.blocks, p1, s1, p2, s2);
  }

  /** Three disposals of a handle referenced four times only count it down
      to one: nothing is released and the module sees nothing. */
  lemma ReleasedAliasRecords(b: Backend, p: DataId)
    requires p in b.dataIdMap && b.dataIdMap[p].refCount == 4
    ensures Released(b, p, p) == b.(dataIdMap := b.dataIdMap[p := b.dataIdMap[p].(refCount := 1)])
  {
    var b1 := DisposeData(b, p, false).0;
    var b2 := DisposeData(b1, p, false).0;
    assert b1.dataIdMap[p].refCount == 3;
    assert b2.dataIdMap[p].refCount == 2;
  }

  /** After a pad stage, a transpose that aliases, the final reshape and the
      disposals: the pad output `n` is the one new record, singly referenced,
      with native id `n + 1` and the padded shape; two counter values are
      used; the module sees the pad and nothing more, and for a numeric
      tensor the pad output's block is the only new live one. */
  lemma AliasedTransposeReleased(b: Backend, b2: Backend, x: TensorInfo, plan: Plan)
    requires x.dataId in b.dataIdMap && DataId(b.dataIdNextNumber) in b2.dataIdMap
    requires AliasedStage(b, b2, PadWith(plan.paddings, 0), x.dataId, plan.paddedShape, x.dtype)
    ensures var n := b.dataIdNextNumber;
      var P := DataId(n);
      var t := Reshape(b2, TensorInfo(P, plan.reshapedShape, x.dtype), plan.transposedShape);
      var r := Reshape(t.0, t.1, plan.flattenShape);
      var b' := Released(r.0, P, P);
      && r.1 == TensorInfo(P, plan.flattenShape, x.dtype)
      && b'.dataIdNextNumber == n + 2
      && P !in b.dataIdMap && P in b'.dataIdMap
      && b'.dataIdMap == b.dataIdMap[P := b'.dataIdMap[P]]
      && b'.dataIdMap[P].id == n + 1
      && b'.dataIdMap[P].refCount == 1
      && b'.dataIdMap[P].shape == plan.paddedShape
      && b'.dataIdMap[P].dtype == x.dtype
      && NumDataIds(b') == NumDataIds(b) + 1
      && Logged(b'.wasm.log, b.wasm.log, [], [SubOpRan(PadWith(plan.paddings, 0), NativeId(b, x.dataId), n + 1)])
      && (x.dtype != String ==>
            && b'.dataIdMap[P].memoryOffset.Some?
            && var off := b'.dataIdMap[P].memoryOffset.value;
            && off !in b.wasm.blocks
            && b'.wasm.blocks == b.wasm.blocks[off := NumBytes(plan.paddedShape, x.dtype)])
  {
    var n := b.dataIdNextNumber;
    var P := DataId(n);
    var t := Reshape(b2, TensorInfo(P, plan.reshapedShape, x.dtype), plan.transposedShape);
    var r := Reshape(t.0, t.1, plan.flattenShape);
    ReleasedAliasRecords(r.0, P);
    assert Released(r.0, P, P).dataIdMap == b.dataIdMap[P := b2.dataIdMap[P].(refCount := 1)];
    assert Released(r.0, P, P).dataIdMap.Keys == b.dataIdMap.Keys + {P};
  }

  /** A key added and then removed again, with another key added between,
      leaves only the other addition. */
  lemma AddedThenRemoved<K, V>(m: map<K, V>, k1: K, v1: V, k2: K, v2: V)
    requires k1 !in m && k1 != k2
    ensures m[k1 := v1][k2 := v2] - {k1} == m[k2 := v2]
  {
  }

  /** `spaceToBatchND({inputs: {x}, backend, attrs})`: pad into `paddedX`
      and reshape it into `paddedXReshaped`, transpose that into `paddedXT`
      and reshape it into the result, then `disposeData` of `paddedX`,
      `paddedXReshaped` and `paddedXT`. With `n` the counter on entry:
      - when the transpose moves a non-unit axis, the pad output `n` is
        released and the transpose output `n + 2` is the one new record,
        singly referenced, with native id `n + 3` and the transposed shape;
        the module sees pad of the input with the completed paddings and
        constant 0 into `n + 1`, transpose by the permutation from `n + 1`
        into `n + 3`, and one disposal, of `n + 1`;
      - when it does not, the transpose aliases, and the pad output `n`
        itself is the one new record, singly referenced, with native id
        `n + 1` and the padded shape; the module sees the pad only.
      Either way the result describes the new record with the flattened
      shape, and for a numeric tensor no intermediate memory outlives the
      call. */
  method SpaceToBatchND(b: Backend, x: TensorInfo, attrs: SpaceToBatchAttrs, helpers: LayoutHelpers)
    returns (b': Backend, result: TensorInfo)
    requires Valid(b) && x.dataId in b.dataIdMap
    requires RanksAgree(x.shape, attrs)
    ensures Valid(b')
    ensures var n := b.dataIdNextNumber;
      var plan := MakePlan(x.shape, attrs, helpers);
      !PermIsNoOp(plan.reshapedShape, plan.perm) ==>
      && result == TensorInfo(DataId(n + 2), plan.flattenShape, x.dtype)
      && b'.dataIdNextNumber == n + 4
      && DataId(n) !in b'.dataIdMap
      && result.dataId !in b.dataIdMap && result.dataId in b'.dataIdMap
      && b'.dataIdMap == b.dataIdMap[result.dataId := b'.dataIdMap[result.dataId]]
      && b'.dataIdMap[result.dataId].id == n + 3
      && b'.dataIdMap[result.dataId].refCount == 1
      && b'.dataIdMap[result.dataId].shape == plan.transposedShape
      && b'.dataIdMap[result.dataId].dtype == x.dtype
      && NumDataIds(b') == NumDataIds(b) + 1
    ensures var n := b.dataIdNextNumber;
      var plan := MakePlan(x.shape, attrs, helpers);
      !PermIsNoOp(plan.reshapedShape, plan.perm) ==>
      Logged(b'.wasm.log, b.wasm.log, [n + 1],
             [SubOpRan(PadWith(plan.paddings, 0), NativeId(b, x.dataId), n + 1),
              SubOpRan(TransposeBy(plan.perm), n + 1, n + 3)])
    ensures var plan := MakePlan(x.shape, attrs, helpers);
      x.dtype != String && !PermIsNoOp(plan.reshapedShape, plan.perm) ==>
      && result.dataId in b'.dataIdMap && b'.dataIdMap[result.dataId].memoryOffset.Some?
      && var off := b'.dataIdMap[result.dataId].memoryOffset.value;
      && off !in b.wasm.blocks
      && b'.wasm.blocks == b.wasm.blocks[off := NumBytes(plan.transposedShape, x.dtype)]
    ensures var n := b.dataIdNextNumber;
      var plan := MakePlan(x.shape, attrs, helpers);
      PermIsNoOp(plan.reshapedShape, plan.perm) ==>
      && result == TensorInfo(DataId(n), plan.flattenShape, x.dtype)
      && b'.dataIdNextNumber == n + 2
      && result.dataId !in b.dataIdMap && result.dataId in b'.dataIdMap
      && b'.dataIdMap == b.dataIdMap[result.dataId := b'.dataIdMap[result.dataId]]
      && b'.dataIdMap[result.dataId].id == n + 1
      && b'.dataIdMap[result.dataId].refCount == 1
      && b'.dataIdMap[result.dataId].shape == plan.paddedShape
      && b'.dataIdMap[result.dataId].dtype == x.dtype
      && NumDataIds(b') == NumDataIds(b) + 1
      && Logged(b'.wasm.log, b.wasm.log, [], [SubOpRan(PadWith(plan.paddings, 0), NativeId(b, x.dataId), n + 1)])
      && (x.dtype != String ==>
            && b'.dataIdMap[result.dataId].memoryOffset.Some?
            && var off := b'.dataIdMap[result.dataId].memoryOffset.value;
            && off !in b.wasm.blocks
            && b'.wasm.blocks == b.wasm.blocks[off := NumBytes(plan.paddedShape, x.dtype)])
  {
    var plan := MakePlan(x.shape, attrs, helpers);
    var b2, paddedX, paddedXReshaped :=
      FreshThenAlias(b, PadWith(plan.paddings, 0), x.dataId, plan.paddedShape, plan.reshapedShape, x.dtype);
    var b4, paddedXT, flattened;
    if PermIsNoOp(plan.reshapedShape, plan.perm) {
      var transposed := Reshape(b2, paddedXReshaped, plan.transposedShape);
      paddedXT := transposed.1;
      var reshaped := Reshape(transposed.0, paddedXT, plan.flattenShape);
      b4, flattened := reshaped.0, reshaped.1;
      IncRefPreservesValid(b2, paddedXReshaped.dataId);
      IncRefPreservesValid(transposed.0, paddedXT.dataId);
    } else {
      b4, paddedXT, flattened :=
        FreshThenAlias(b2, TransposeBy(plan.perm), paddedXReshaped.dataId, plan.transposedShape,
                       plan.flattenShape, x.dtype);
    }
    var b5 := DisposeData(b4, paddedX.dataId, false).0;
    var b6 := DisposeData(b5, paddedXReshaped.dataId, false).0;
    b' := DisposeData(b6, paddedXT.dataId, false).0;
    result := flattened;

    assert b' == Released(b4, paddedX.dataId, paddedXT.dataId);
    ReleasedValid(b4, paddedX.dataId, paddedXT.dataId);
    if PermIsNoOp(plan.reshapedShape, plan.perm) {
      AliasedTransposeReleased(b, b2, x, plan);
    } else {
      StagesReleasedRecords(b, b2, b4, x, plan);
      StagesReleasedLog(b, b2, b4, x, plan);
      if x.dtype != String {
        StagesReleasedMemory(b, b2, b4, x, plan);
      }
    }
  }
}
