/**
 * The vector-addition task built on the engine: the Vector type, its
 * creation and release, the argument binder of the addition kernel, and
 * add_vectors, which describes the three buffers and the launch geometry,
 * runs the kernel and checks the result.
 */
module VectorAdd {
  import opened Wrappers
  import opened OpenCL
  import opened RunCL

  /** sizeof(float), and sizeof(Vector) (a pointer and an int, padded) on a 64-bit host. */
  const SIZEOF_FLOAT: SizeT := 4
  const SIZEOF_VECTOR: SizeT := 16

  /** The work-group size add_vectors launches with. */
  const LOCAL_SIZE: SizeT := 256

  // ---------------------------------------------------------------------
  // Vector
  // ---------------------------------------------------------------------

  /** A vector of floats: its element storage (one calloc'd block), its
      length, and the malloc'd block of the struct itself.  Element values
      are reals; float arithmetic is not part of the model. */
  class Vector {
    var data: array<real>
    var dataBlock: Handle
    var block: Handle
    var size: int32

    constructor (data: array<real>, dataBlock: Handle, block: Handle, size: int32)
      ensures this.data == data && this.dataBlock == dataBlock && this.block == block && this.size == size
    {
      this.data, this.dataBlock, this.block, this.size := data, dataBlock, block, size;
    }

    /** A vector made by vector_create and not freed yet: a positive length,
        storage of that length, and both of its blocks held. */
    ghost predicate Valid(rt: Runtime)
      reads this, rt
    {
      0 < size && data.Length == size as int
      && block != dataBlock && block in rt.live && dataBlock in rt.live
    }
  }

  /** The bytes of n floats, computed in size_t as `(size_t)n * sizeof(float)`. */
  function Bytes(n: int32): (b: SizeT)
    ensures 0 <= n ==> b == 4 * n as int
  {
    ToSizeT(ToSizeT(n as int) * SIZEOF_FLOAT as int)
  }

  /** The events of vector_create(size) started at log position p: nothing
      for a size that is not positive; otherwise the struct's malloc, then
      the storage's calloc, and the struct freed again when that fails. */
  function CreateTrace(size: int32, p: nat, ok: nat -> bool): seq<Event>
  {
    if size <= 0 then []
    else
      var e0 := EventAt(Malloc(SIZEOF_VECTOR), p, ok);
      var e1 := EventAt(Calloc(ToSizeT(size as int), SIZEOF_FLOAT), p + 1, ok);
      if !ok(p) then [e0]
      else if !ok(p + 1) then [e0, e1, Released(Handle(p))]
      else [e0, e1]
  }

  /** vector_create: NULL for a size that is not positive or when an
      allocation fails, with nothing left allocated; otherwise a vector of
      `size` zeros whose two blocks are now held. */
  method VectorCreate(rt: Runtime, size: int32) returns (v: Vector?)
    requires rt.Valid()
    modifies rt
    ensures rt.Valid()
    ensures rt.trace == old(rt.trace) + CreateTrace(size, old(|rt.trace|), rt.ok)
    ensures v != null <==> 0 < size && rt.ok(old(|rt.trace|)) && rt.ok(old(|rt.trace|) + 1)
    ensures v != null ==> fresh(v) && fresh(v.data) && v.Valid(rt) && v.size == size
                          && v.block == Handle(old(|rt.trace|)) && v.dataBlock == Handle(old(|rt.trace|) + 1)
                          && forall i | 0 <= i < v.data.Length :: v.data[i] == 0.0
    ensures rt.live == old(rt.live) + (if v != null then {v.block, v.dataBlock} else {})
  {
    if size <= 0 {
      return null;
    }
    var r := rt.Issue(Malloc(SIZEOF_VECTOR));
    if r.Failed? {
      return null;
    }
    var block := r.h;
    r := rt.Issue(Calloc(ToSizeT(size as int), SIZEOF_FLOAT));
    if r.Failed? {
      rt.Release(block);
      return null;
    }
    var data := new real[size as int](_ => 0.0);
    v := new Vector(data, r.h, block, size);
  }

  /** vector_free: nothing for NULL; otherwise the storage, then the struct. */
  method VectorFree(rt: Runtime, v: Vector?)
    requires rt.Valid() && (v != null ==> v.Valid(rt))
    modifies rt
    ensures rt.Valid()
    ensures rt.trace == old(rt.trace) + (if v == null then [] else [Released(v.dataBlock), Released(v.block)])
    ensures rt.live == old(rt.live) - (if v == null then {} else {v.dataBlock, v.block})
  {
    if v == null {
      return;
    }
    rt.Release(v.dataBlock);
    rt.Release(v.block);
  }

  // ---------------------------------------------------------------------
  // The argument binder
  // ---------------------------------------------------------------------

  /** The statuses of the binder's four clSetKernelArg calls, in order:
      buffers 0, 1 and 2 as arguments 0, 1 and 2, then n as argument 3. */
  function ArgStatuses(argStatus: (Handle, nat, KernelArg) -> ClInt, kernel: Handle,
                       bufs: seq<Handle>, n: int32): (s: seq<ClInt>)
    requires |bufs| >= 3
    ensures |s| == 4
  {
    [ argStatus(kernel, 0, MemArg(bufs[0])), argStatus(kernel, 1, MemArg(bufs[1])),
      argStatus(kernel, 2, MemArg(bufs[2])), argStatus(kernel, 3, IntArg(n)) ]
  }

  /** `err |= s[i]` over the statuses in order, from CL_SUCCESS. */
  function OrAll(s: seq<ClInt>): ClInt
  {
    if s == [] then CL_SUCCESS else OrAll(s[..|s| - 1]) | s[|s| - 1]
  }

  /** The accumulated status is CL_SUCCESS exactly when every status is. */
  lemma {:induction false} OrAllSuccess(s: seq<ClInt>)
    ensures OrAll(s) == CL_SUCCESS <==> forall i | 0 <= i < |s| :: s[i] == CL_SUCCESS
  {
    if s != [] {
      var init := s[..|s| - 1];
      OrAllSuccess(init);
      assert forall i | 0 <= i < |init| :: init[i] == s[i];
    }
  }

  /** vector_add_bind_args: all four arguments are set whatever the earlier
      calls answered, and the verdict is 0 when their combined status is
      CL_SUCCESS and -1 otherwise.  n_bufs is ignored; fewer than three
      buffers (which add_vectors never passes) are refused. */
  function VectorAddBindArgs(argStatus: (Handle, nat, KernelArg) -> ClInt, kernel: Handle,
                             bufs: seq<Handle>, nBufs: int, n: int32): (r: int)
    ensures r == 0 || r == -1
  {
    if |bufs| < 3 then -1
    else if OrAll(ArgStatuses(argStatus, kernel, bufs, n)) == CL_SUCCESS then 0
    else -1
  }

  /** The binder succeeds exactly when each of its four clSetKernelArg calls does. */
  lemma BindArgsSucceedsIff(argStatus: (Handle, nat, KernelArg) -> ClInt, kernel: Handle,
                            bufs: seq<Handle>, nBufs: int, n: int32)
    requires |bufs| >= 3
    ensures VectorAddBindArgs(argStatus, kernel, bufs, nBufs, n) == 0
            <==> argStatus(kernel, 0, MemArg(bufs[0])) == CL_SUCCESS
                 && argStatus(kernel, 1, MemArg(bufs[1])) == CL_SUCCESS
                 && argStatus(kernel, 2, MemArg(bufs[2])) == CL_SUCCESS
                 && argStatus(kernel, 3, IntArg(n)) == CL_SUCCESS
  {
    var s := ArgStatuses(argStatus, kernel, bufs, n);
    OrAllSuccess(s);
    assert s == [s[0], s[1], s[2], s[3]];
  }

  /** The binder handed to the engine, with n as its caller data. */
  function AddBinder(argStatus: (Handle, nat, KernelArg) -> ClInt): Binder<int32>
  {
    (kernel: Handle, bufs: seq<Handle>, nBufs: int, n: int32) => VectorAddBindArgs(argStatus, kernel, bufs, nBufs, n)
  }

  // ---------------------------------------------------------------------
  // Buffers and launch geometry of add_vectors
  // ---------------------------------------------------------------------

  /** The global size: n rounded up to a multiple of the work-group size,
      computed in size_t. */
  function GlobalSize(n: int32): SizeT
  {
    var x := (ToSizeT(n as int) + LOCAL_SIZE as int - 1) % SIZE_T_MODULUS;
    assert x / 256 * 256 <= x;
    x / 256 * 256
  }

  /** For a length that is not negative, the global size is the least
      multiple of 256 that covers every element. */
  lemma GlobalSizeCovers(n: int32)
    requires 0 <= n
    ensures GlobalSize(n) % 256 == 0
    ensures n as int <= GlobalSize(n) < n as int + 256
  {
    var x := n as int + 255;
    assert GlobalSize(n) == x / 256 * 256;
  }

  /** The descriptors add_vectors passes: the two operands are read-only and
      stay on the device, the result is write-only and read back. */
  function Descriptors(n: int32, a: Handle, b: Handle, out: Handle): seq<BufferDesc>
  {
    [ BufferDesc(Some(a), Bytes(n), CL_MEM_READ_ONLY, 0),
      BufferDesc(Some(b), Bytes(n), CL_MEM_READ_ONLY, 0),
      BufferDesc(Some(out), Bytes(n), CL_MEM_WRITE_ONLY, 1) ]
  }

  /** The kernel add_vectors launches: one dimension, the rounded global
      size and a work-group size of 256. */
  function AddKernel(n: int32): KernelDesc
  {
    KernelDesc("kernels/vector.cl", "add_vectors_kernel", 1, [GlobalSize(n)], Some([LOCAL_SIZE]))
  }

  /** The kernel description of add_vectors is one the engine accepts: one
      dimension, whose global size is the rounded element count and whose
      work-group size is 256. */
  lemma AddKernelWellFormed(n: int32)
    ensures WellFormed(AddKernel(n))
    ensures AddKernel(n).workDim == 1 && AddKernel(n).globalSize == [GlobalSize(n)]
            && AddKernel(n).localSize == Some([LOCAL_SIZE])
  {
  }

  /** The operands are uploaded and the result is not; only the result is
      read back, with one blocking read of all its bytes, so that it is
      complete when the engine returns. */
  lemma DescriptorRoles(queue: Handle, n: int32, a: Handle, b: Handle, out: Handle, p: nat)
    ensures var d := Descriptors(n, a, b, out);
            BufferNeedsUpload(d[0]) && BufferNeedsUpload(d[1]) && !BufferNeedsUpload(d[2])
            && ReadBacks(queue, d, p, 0) == [EnqueueRead(queue, BufferHandle(p, 2), true, Bytes(n), out)]
  {
    var d := Descriptors(n, a, b, out);
    assert ReadBacks(queue, d, p, 3) == [];
    assert ReadBacks(queue, d, p, 2) == [ReadAt(queue, d, p, 2)];
  }

  // ---------------------------------------------------------------------
  // add_vectors
  // ---------------------------------------------------------------------

  /** What add_vectors hands to the engine besides the context: the kernel,
      the buffer descriptors, the binder and its caller data. */
  datatype Job = Job(kd: KernelDesc, bufs: seq<BufferDesc>, bind: Binder<int32>, n: int32)

  /** The job of add_vectors over vectors of n elements whose storage
      blocks are a, b and out. */
  function AddJob(n: int32, a: Handle, b: Handle, out: Handle,
                  argStatus: (Handle, nat, KernelArg) -> ClInt): Job
  {
    Job(AddKernel(n), Descriptors(n, a, b, out), AddBinder(argStatus), n)
  }

  /** The engine invocation for a job on the context a cl_init started at
      log position p made. */
  function InvocationAt(job: Job, p: nat): Invocation<int32>
  {
    Invocation(InitHandles(p), job.kd, job.bufs, job.bind, job.n)
  }

  /** The result check after a successful run, from log position q: the
      block for the sequential sum, and its free when it was allocated. */
  function CheckTrace(n: int32, q: nat, ok: nat -> bool): seq<Event>
  {
    var e := EventAt(Malloc(Bytes(n)), q, ok);
    if ok(q) then [e, Released(Handle(q))] else [e]
  }

  /** The context handles of a cl_init started at log position p. */
  function InitHandles(p: nat): ContextHandles
  {
    ContextHandles(Handle(p + 1), Handle(p + 2), Handle(p + 3))
  }

  /** What follows a successful cl_init started at p: the engine run, the
      result check when the run succeeded, and cl_cleanup. */
  ghost function AfterInit(job: Job, p: nat, ok: nat -> bool): seq<Event>
  {
    var inv := InvocationAt(job, p);
    AfterRun(EngineTrace(inv, p + 4, ok), EngineSucceeds(inv, p + 4, ok), job.n, p, ok)
  }

  /** The events after a cl_init started at p, for an engine run with
      events E that succeeded or not: the run, the result check when it
      succeeded, and cl_cleanup. */
  function AfterRun(E: seq<Event>, succeeded: bool, n: int32, p: nat, ok: nat -> bool): seq<Event>
  {
    var G := GpuPart(E, succeeded, n, p + 4, ok);
    G + CleanupTrace(InitHandles(p), p + 4 + |G|, ok)
  }

  /** An engine run with events E started at q, followed by the result
      check when it succeeded. */
  function GpuPart(E: seq<Event>, succeeded: bool, n: int32, q: nat, ok: nat -> bool): seq<Event>
  {
    E + (if succeeded then CheckTrace(n, q + |E|, ok) else [])
  }

  /** The events of add_vectors past its argument checks, for a job, from
      log position p. */
  ghost function SessionTrace(job: Job, p: nat, ok: nat -> bool): seq<Event>
  {
    InitTrace(p, ok) + (if InitSucceeds(p, ok) then AfterInit(job, p, ok) else [])
  }

  /** Once cl_init succeeded, the verdict is 0 exactly when the engine run
      and the allocation for the sequential sum succeed and the result
      matches. */
  ghost predicate GpuSucceeds(job: Job, p: nat, ok: nat -> bool, matches: bool)
  {
    var inv := InvocationAt(job, p);
    EngineSucceeds(inv, p + 4, ok) && ok(p + 4 + |EngineTrace(inv, p + 4, ok)|) && matches
  }

  /** The verdict is 0 exactly when cl_init and everything after it succeed. */
  ghost predicate SessionSucceeds(job: Job, p: nat, ok: nat -> bool, matches: bool)
  {
    InitSucceeds(p, ok) && GpuSucceeds(job, p, ok, matches)
  }

  /** The events of add_vectors past its argument checks, from log position p. */
  ghost function AddTrace(n: int32, a: Handle, b: Handle, out: Handle,
                          argStatus: (Handle, nat, KernelArg) -> ClInt, p: nat, ok: nat -> bool): seq<Event>
  {
    SessionTrace(AddJob(n, a, b, out, argStatus), p, ok)
  }

  /** add_vectors returns 0 exactly when cl_init and everything after it succeed. */
  ghost predicate AddSucceeds(n: int32, a: Handle, b: Handle, out: Handle,
                              argStatus: (Handle, nat, KernelArg) -> ClInt, p: nat, ok: nat -> bool,
                              matches: bool)
  {
    SessionSucceeds(AddJob(n, a, b, out, argStatus), p, ok, matches)
  }

  /** The check after a successful run: a block for the sequential sum and,
      when it was allocated, the comparison (`matches`: whether every GPU
      element lies within 1e-4 of the sequential one) and its free. */
  method CheckResult(rt: Runtime, n: int32, matches: bool) returns (ret: int)
    requires rt.Valid()
    modifies rt
    ensures rt.Valid()
    ensures rt.trace == old(rt.trace) + CheckTrace(n, old(|rt.trace|), rt.ok)
    ensures ret == (if rt.ok(old(|rt.trace|)) && matches then 0 else -1)
    ensures rt.live == old(rt.live)
  {
    var r := rt.Issue(Malloc(Bytes(n)));
    if r.Failed? {
      return -1;
    }
    ret := if matches then 0 else -1;
    rt.Release(r.h);
  }

  /** The engine run of a job and the result check, on the context a
      cl_init started at log position p made. */
  method RunOnGpu(rt: Runtime, ctx: CLContext, job: Job, matches: bool, ghost p: nat) returns (ret: int)
    requires rt.Valid() && ctx.Ready(rt) && ctx.Handles() == InitHandles(p) && |rt.trace| == p + 4
    requires WellFormed(job.kd)
    modifies rt
    ensures rt.Valid()
    ensures var inv := InvocationAt(job, p);
            rt.trace == old(rt.trace) + GpuPart(EngineTrace(inv, p + 4, rt.ok), EngineSucceeds(inv, p + 4, rt.ok),
                                                job.n, p + 4, rt.ok)
    ensures ret == (if GpuSucceeds(job, p, rt.ok, matches) then 0 else -1)
    ensures rt.live == old(rt.live)
  {
    ghost var inv := InvocationAt(job, p);
    var r := RunKernel(rt, ctx, job.kd, job.bufs, job.bind, job.n);
    ret := -1;
    if r == 0 {
      ghost var t := rt.trace;
      ret := CheckResult(rt, job.n, matches);
      Assoc(old(rt.trace), EngineTrace(inv, p + 4, rt.ok), rt.trace[|t|..]);
    }
  }

  /** A job once cl_init, started at log position p, succeeded: the run on
      the GPU, then cl_cleanup whatever the run gave. */
  method RunAndCleanup(rt: Runtime, ctx: CLContext, job: Job, matches: bool, ghost p: nat) returns (ret: int)
    requires rt.Valid() && ctx.Ready(rt) && ctx.Handles() == InitHandles(p) && |rt.trace| == p + 4
    requires WellFormed(job.kd)
    modifies rt
    ensures rt.Valid()
    ensures rt.trace == old(rt.trace) + AfterInit(job, p, rt.ok)
    ensures ret == (if GpuSucceeds(job, p, rt.ok, matches) then 0 else -1)
    ensures rt.live == old(rt.live) - {ctx.context.value, ctx.commandQueue.value}
  {
    ghost var inv := InvocationAt(job, p);
    ret := RunOnGpu(rt, ctx, job, matches, p);
    CleanupAt(rt.trace, old(rt.trace), EngineTrace(inv, p + 4, rt.ok), EngineSucceeds(inv, p + 4, rt.ok),
              job.n, ctx.Handles(), p, rt.ok);
    Cleanup(rt, ctx);
  }

  /** The log once cl_cleanup followed a run on the GPU with events E
      that succeeded or not, after a cl_init started at p. */
  lemma CleanupAt(t: seq<Event>, t0: seq<Event>, E: seq<Event>, succeeded: bool, n: int32,
                  cx: ContextHandles, p: nat, ok: nat -> bool)
    requires t == t0 + GpuPart(E, succeeded, n, p + 4, ok) && |t0| == p + 4 && cx == InitHandles(p)
    ensures t + CleanupTrace(cx, |t|, ok) == t0 + AfterRun(E, succeeded, n, p, ok)
  {
    var G := GpuPart(E, succeeded, n, p + 4, ok);
    Assoc(t0, G, CleanupTrace(cx, |t|, ok));
  }

  /** add_vectors past its argument checks, for a job: cl_init (returning
      at once when it fails), then the run on the GPU and cl_cleanup. */
  method RunAdd(rt: Runtime, job: Job, matches: bool) returns (ret: int)
    requires rt.Valid() && WellFormed(job.kd)
    modifies rt
    ensures rt.Valid()
    ensures rt.trace == old(rt.trace) + SessionTrace(job, old(|rt.trace|), rt.ok)
    ensures ret == (if SessionSucceeds(job, old(|rt.trace|), rt.ok, matches) then 0 else -1)
    ensures rt.live == old(rt.live)
  {
    ghost var p := |rt.trace|;
    var ctx := new CLContext();
    var r := Init(rt, ctx);
    if r != 0 {
      return -1;
    }
    assert Handle(p + 2) !in old(rt.live) && Handle(p + 3) !in old(rt.live);
    AfterInitSucceeded(job, p, rt.ok, matches);
    ret := RunAndCleanup(rt, ctx, job, matches, p);
    Assoc(old(rt.trace), InitTrace(p, rt.ok), AfterInit(job, p, rt.ok));
  }

  /** Once cl_init succeeded, having issued its four calls, what follows
      decides the rest of the log and the verdict. */
  lemma AfterInitSucceeded(job: Job, p: nat, ok: nat -> bool, matches: bool)
    requires InitSucceeds(p, ok)
    ensures |InitTrace(p, ok)| == 4
    ensures SessionTrace(job, p, ok) == InitTrace(p, ok) + AfterInit(job, p, ok)
    ensures SessionSucceeds(job, p, ok, matches) == GpuSucceeds(job, p, ok, matches)
  {
  }

  /** add_vectors: -1 at once, with nothing issued, when a vector is NULL or
      the lengths differ; otherwise the run on the GPU, over the storage of
      the three vectors. */
  method AddVectors(rt: Runtime, v1: Vector?, v2: Vector?, result: Vector?, matches: bool) returns (ret: int)
    requires rt.Valid()
    modifies rt
    ensures rt.Valid()
    ensures v1 == null || v2 == null || result == null || v1.size != v2.size || v1.size != result.size
            ==> ret == -1 && rt.trace == old(rt.trace)
    ensures v1 != null && v2 != null && result != null && v1.size == v2.size == result.size
            ==> rt.trace == old(rt.trace) + AddTrace(v1.size, v1.dataBlock, v2.dataBlock, result.dataBlock,
                                                     rt.argStatus, old(|rt.trace|), rt.ok)
                && ret == (if AddSucceeds(v1.size, v1.dataBlock, v2.dataBlock, result.dataBlock,
                                          rt.argStatus, old(|rt.trace|), rt.ok, matches) then 0 else -1)
    ensures rt.live == old(rt.live)
  {
    if v1 == null || v2 == null || result == null {
      return -1;
    }
    if v1.size != v2.size || v1.size != result.size {
      return -1;
    }
    var job := AddJob(v1.size, v1.dataBlock, v2.dataBlock, result.dataBlock, rt.argStatus);
    AddKernelWellFormed(v1.size);
    ret := RunAdd(rt, job, matches);
  }
}
