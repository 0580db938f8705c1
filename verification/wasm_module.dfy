/** The compiled native module as the backend sees it: a linear memory with an
    allocator, a registry of tensors the module tracks by native id, and an
    append-only log of every call made into it. The numerical kernels
    themselves are opaque; only the fact and the arguments of each call are
    recorded. */
module WasmModule {
  import opened Wrappers
  import opened ByteEncoding
  import opened TensorUtil

  /** Native entry points bound by the operator adapters. */
  datatype KernelName = Conv2DFn | TransformFn | ResizeNearestNeighborFn | NonMaxSuppressionV3Fn

  /** Parameter and return kinds of a bound entry point. */
  datatype ParamKind = NumberParam | BoolParam | ArrayParam
  datatype ReturnKind = VoidReturn | NumberReturn
  datatype Signature = Signature(ret: ReturnKind, params: seq<ParamKind>)

  /** A scalar or flat array crossing the boundary. `Real` carries the
      floating-point attributes, which are passed through unexamined. */
  datatype Arg = Num(n: int) | Real(r: real) | Flag(b: bool) | ByteArray(bytes: seq<byte>)

  /** `n` numeric parameters. */
  function NumberParams(n: nat): (ps: seq<ParamKind>)
    ensures |ps| == n && forall i :: 0 <= i < n ==> ps[i] == NumberParam
  {
    if n == 0 then [] else [NumberParam] + NumberParams(n - 1)
  }

  predicate ArgFits(a: Arg, k: ParamKind) {
    match k
    case NumberParam => a.Num? || a.Real?
    case BoolParam => a.Flag?
    case ArrayParam => a.ByteArray?
  }

  /** The argument list has exactly the declared arity and every position
      holds a value of the declared kind. */
  predicate Conforms(args: seq<Arg>, sig: Signature) {
    && |args| == |sig.params|
    && forall i :: 0 <= i < |args| ==> ArgFits(args[i], sig.params[i])
  }

  /** Integers passed as numeric arguments, in order; such a list fits a
      signature of as many numeric parameters. */
  function NumArgs(ns: seq<int>): (args: seq<Arg>)
    ensures |args| == |ns| && forall i :: 0 <= i < |ns| ==> args[i] == Num(ns[i])
    ensures forall ret :: Conforms(args, Signature(ret, NumberParams(|ns|)))
  {
    seq(|ns|, i requires 0 <= i < |ns| => Num(ns[i]))
  }

  /** Attributes of the opaque sub-operations some adapters compose. Reshape
      is not one of them: it never reaches the module. */
  datatype SubOp =
    | CastTo(dtype: DType)
    | PadWith(paddings: seq<(nat, nat)>, constantValue: int)
    | TransposeBy(perm: seq<nat>)

  /** One call into the native module. `Freed(None)` is `_free(null)`, which
      the allocator ignores. */
  datatype Event =
    | Allocated(offset: nat, numBytes: nat)
    | Freed(target: Option<nat>)
    | ThreadsInitialized(threads: int)
    | Registered(id: nat, size: nat, offset: nat)
    | Disposed(id: nat)
    | Invoked(kernel: KernelName, args: seq<Arg>)
    | SubOpRan(op: SubOp, inputId: nat, outputId: nat)

  datatype Registration = Registration(size: nat, offset: nat)

  /** heap: linear memory; blocks: live allocations, offset to requested
      size; registry: tensors known to the module by native id. */
  datatype Wasm = Wasm(heap: seq<byte>, blocks: map<nat, nat>,
                       registry: map<nat, Registration>, log: seq<Event>)

  /** Address 0 is the null pointer and never allocated; every live block
      lies inside the heap. */
  predicate ArenaOk(w: Wasm) {
    && |w.heap| >= 1
    && forall o :: o in w.blocks ==> 1 <= o < |w.heap| && o + w.blocks[o] <= |w.heap|
  }

  /** A module just instantiated: nothing allocated, registered or called. */
  function FreshModule(): (w: Wasm)
    ensures ArenaOk(w) && w.blocks == map[] && w.registry == map[] && w.log == []
  {
    Wasm([0], map[], map[], [])
  }

  /** `_malloc(numBytes)`. The returned address is non-null and disjoint from
      every live block, and the block is recorded with its size. The model
      hands out fresh addresses at the end of memory and never reuses one. */
  function Malloc(w: Wasm, numBytes: nat): (r: (Wasm, nat))
    requires ArenaOk(w)
    ensures var (w', off) := r;
      && ArenaOk(w')
      && 1 <= off && off !in w.blocks
      && (forall o :: o in w.blocks ==> o + w.blocks[o] <= off)
      && off + numBytes <= |w'.heap| && |w.heap| <= |w'.heap|
      && w'.blocks == w.blocks[off := numBytes]
      && w'.heap[..|w.heap|] == w.heap
      && w'.registry == w.registry
      && w'.log == w.log + [Allocated(off, numBytes)]
  {
    var off := |w.heap|;
    var grow := if numBytes == 0 then 1 else numBytes;
    (w.(heap := w.heap + seq(grow, _ => 0 as byte), blocks := w.blocks[off := numBytes],
        log := w.log + [Allocated(off, numBytes)]), off)
  }

  /** `_free(target)`: the block at `target`, if any, is no longer live. */
  function Free(w: Wasm, target: Option<nat>): (w': Wasm)
    ensures target.Some? ==> w'.blocks == w.blocks - {target.value}
    ensures target.None? ==> w'.blocks == w.blocks
    ensures w'.heap == w.heap && w'.registry == w.registry
    ensures w'.log == w.log + [Freed(target)]
  {
    w.(blocks := if target.Some? then w.blocks - {target.value} else w.blocks,
       log := w.log + [Freed(target)])
  }

  /** `HEAPU8.set(src, offset)`: overwrite the bytes at `offset`. */
  function HeapSet(w: Wasm, offset: nat, src: seq<byte>): (w': Wasm)
    requires offset + |src| <= |w.heap|
    ensures |w'.heap| == |w.heap|
    ensures w'.heap[offset..offset + |src|] == src
    ensures forall i :: 0 <= i < |w.heap| && !(offset <= i < offset + |src|) ==> w'.heap[i] == w.heap[i]
    ensures w'.blocks == w.blocks && w'.registry == w.registry && w'.log == w.log
  {
    w.(heap := w.heap[..offset] + src + w.heap[offset + |src|..])
  }

  /** `tfjs.registerTensor(id, size, offset)`. */
  function RegisterTensor(w: Wasm, id: nat, size: nat, offset: nat): (w': Wasm)
    ensures w'.registry == w.registry[id := Registration(size, offset)]
    ensures id in w'.registry
    ensures w'.heap == w.heap && w'.blocks == w.blocks
    ensures w'.log == w.log + [Registered(id, size, offset)]
  {
    w.(registry := w.registry[id := Registration(size, offset)],
       log := w.log + [Registered(id, size, offset)])
  }

  /** `tfjs.disposeData(id)`: the module forgets the tensor. */
  function DisposeTensor(w: Wasm, id: nat): (w': Wasm)
    ensures id !in w'.registry
    ensures w'.registry == w.registry - {id}
    ensures w'.heap == w.heap && w'.blocks == w.blocks
    ensures w'.log == w.log + [Disposed(id)]
  {
    w.(registry := w.registry - {id}, log := w.log + [Disposed(id)])
  }

  /** `tfjs.initWithThreadsCount(threads)`. */
  function InitThreads(w: Wasm, threads: int): (w': Wasm)
    ensures w'.heap == w.heap && w'.blocks == w.blocks && w'.registry == w.registry
    ensures w'.log == w.log + [ThreadsInitialized(threads)]
  {
    w.(log := w.log + [ThreadsInitialized(threads)])
  }

  /** A call to a bound kernel entry point. The kernel's writes into output
      memory are not modelled. */
  function Call(w: Wasm, kernel: KernelName, args: seq<Arg>): (w': Wasm)
    ensures w'.heap == w.heap && w'.blocks == w.blocks && w'.registry == w.registry
    ensures w'.log == w.log + [Invoked(kernel, args)]
  {
    w.(log := w.log + [Invoked(kernel, args)])
  }

  /** The work of an opaque sub-operation reading tensor `inputId` and
      filling the pre-registered tensor `outputId`. */
  function RunSubOp(w: Wasm, op: SubOp, inputId: nat, outputId: nat): (w': Wasm)
    ensures w'.heap == w.heap && w'.blocks == w.blocks && w'.registry == w.registry
    ensures w'.log == w.log + [SubOpRan(op, inputId, outputId)]
  {
    w.(log := w.log + [SubOpRan(op, inputId, outputId)])
  }
}
