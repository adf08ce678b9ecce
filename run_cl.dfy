/**
 * The generic OpenCL host engine: acquiring and releasing a device context,
 * the buffer and kernel descriptors, and the compile / allocate / bind /
 * launch / read back / tear down pipeline of one kernel invocation.
 */
module RunCL {
  import opened Wrappers
  import opened OpenCL

  // ---------------------------------------------------------------------
  // Descriptors
  // ---------------------------------------------------------------------

  /** One device buffer: the host data it is filled from or read back into
      (may be NULL), its size in bytes, its access flags, and whether it is
      copied back to the host after the kernel (any non-zero value). */
  datatype BufferDesc = BufferDesc(hostPtr: Ptr, size: SizeT, flags: MemFlags, readBack: int32)

  /** Everything needed to build and launch a kernel. */
  datatype KernelDesc = KernelDesc(sourcePath: string, kernelName: string, workDim: nat,
                                   globalSize: seq<SizeT>, localSize: Option<seq<SizeT>>)

  /** What the engine asks of a kernel description: one to three
      dimensions, a global size per dimension, and a local size per
      dimension unless the implementation is left to choose (NULL). */
  predicate WellFormed(kd: KernelDesc)
  {
    1 <= kd.workDim <= 3 && |kd.globalSize| == kd.workDim
    && (kd.localSize.Some? ==> |kd.localSize.value| == kd.workDim)
  }

  /** The argument-binding callback: it receives the kernel, the device
      buffer handles in descriptor order, their number and the caller's
      data, and returns 0 on success or anything else to abort the run. */
  type Binder<-U> = (Handle, seq<Handle>, int, U) -> int

  /** The device, context and queue of an initialised context. */
  datatype ContextHandles = ContextHandles(device: Handle, context: Handle, queue: Handle)

  /** One engine invocation: context, kernel, buffers, binder, caller data. */
  datatype Invocation<!U> = Invocation(cx: ContextHandles, kd: KernelDesc, bufs: seq<BufferDesc>,
                                      bind: Binder<U>, userData: U)

  // ---------------------------------------------------------------------
  // CLContext: platform / device / context / queue
  // ---------------------------------------------------------------------

  class CLContext {
    var platformId: Ptr
    var deviceId: Ptr
    var context: Ptr
    var commandQueue: Ptr

    /** A context whose fields have not been written yet. */
    constructor ()
      ensures platformId == None && deviceId == None && context == None && commandQueue == None
    {
      platformId, deviceId, context, commandQueue := None, None, None, None;
    }

    /** Initialised: all four handles present, context and queue owned. */
    ghost predicate Ready(rt: Runtime)
      reads this, rt
    {
      platformId.Some? && deviceId.Some? && context.Some? && commandQueue.Some?
      && context.value in rt.live && commandQueue.value in rt.live
      && context.value != commandQueue.value
    }

    function Handles(): ContextHandles
      reads this
      requires deviceId.Some? && context.Some? && commandQueue.Some?
    {
      ContextHandles(deviceId.value, context.value, commandQueue.value)
    }
  }

  /** The calls of cl_init, started at log position p. */
  function InitPlan(p: nat): seq<Call>
  {
    [ GetPlatformIds,
      GetDeviceIds(Handle(p), Gpu),
      CreateContext(Handle(p + 1)),
      CreateCommandQueue(Handle(p + 2), Handle(p + 1)) ]
  }

  /** The events of cl_init, case by case: the first call that fails ends
      it, and only a failed command queue leaves a context to release. */
  function InitTrace(p: nat, ok: nat -> bool): seq<Event>
  {
    var e0, e1 := EventAt(GetPlatformIds, p, ok), EventAt(GetDeviceIds(Handle(p), Gpu), p + 1, ok);
    var e2 := EventAt(CreateContext(Handle(p + 1)), p + 2, ok);
    var e3 := EventAt(CreateCommandQueue(Handle(p + 2), Handle(p + 1)), p + 3, ok);
    if !ok(p) then [e0]
    else if !ok(p + 1) then [e0, e1]
    else if !ok(p + 2) then [e0, e1, e2]
    else if !ok(p + 3) then [e0, e1, e2, e3, Released(Handle(p + 2))]
    else [e0, e1, e2, e3]
  }

  /** cl_init succeeds exactly when all four of its calls do. */
  predicate InitSucceeds(p: nat, ok: nat -> bool)
  {
    ok(p) && ok(p + 1) && ok(p + 2) && ok(p + 3)
  }

  /** cl_init is the generic stop-at-first-failure run of its four calls,
      followed by the release of the context when only the queue failed;
      it succeeds exactly when that run is not stopped. */
  lemma InitIsRun(p: nat, ok: nat -> bool)
    ensures var F := Execute(InitPlan(p), p, ok);
            InitTrace(p, ok) == F + (if |F| == 4 && Fatal(F[3]) then [Released(Handle(p + 2))] else [])
    ensures InitSucceeds(p, ok) <==> !Stopped(Execute(InitPlan(p), p, ok))
  {
    Execute4(GetPlatformIds, GetDeviceIds(Handle(p), Gpu), CreateContext(Handle(p + 1)),
             CreateCommandQueue(Handle(p + 2), Handle(p + 1)), p, ok);
  }

  /** The first half of cl_init: the first platform and its first GPU
      device, recorded in ctx as they are found. */
  method FindDevice(rt: Runtime, ctx: CLContext) returns (found: bool)
    requires rt.Valid()
    modifies rt, ctx
    ensures rt.Valid()
    ensures var p := old(|rt.trace|);
            rt.trace == old(rt.trace) + InitTrace(p, rt.ok)[..if rt.ok(p) then 2 else 1]
            && (found <==> rt.ok(p) && rt.ok(p + 1))
    ensures found ==> ctx.deviceId == Some(Handle(old(|rt.trace|) + 1)) && ctx.platformId.Some?
    ensures rt.live == old(rt.live)
  {
    var r := rt.Issue(GetPlatformIds);
    if r.Failed? {
      return false;
    }
    ctx.platformId := Some(r.h);

    r := rt.Issue(GetDeviceIds(ctx.platformId.value, Gpu));
    if r.Failed? {
      return false;
    }
    ctx.deviceId := Some(r.h);
    return true;
  }

  /** cl_init: first platform, its first GPU device, a context and an
      in-order command queue; 0 on success, -1 on any failure. */
  method Init(rt: Runtime, ctx: CLContext) returns (ret: int)
    requires rt.Valid()
    modifies rt, ctx
    ensures rt.Valid()
    ensures rt.trace == old(rt.trace) + InitTrace(old(|rt.trace|), rt.ok)
    ensures ret == (if InitSucceeds(old(|rt.trace|), rt.ok) then 0 else -1)
    ensures ret == 0 ==> ctx.Ready(rt)
    ensures ret == 0 ==> ctx.Handles() == ContextHandles(Handle(old(|rt.trace|) + 1),
                                                          Handle(old(|rt.trace|) + 2),
                                                          Handle(old(|rt.trace|) + 3))
    ensures rt.live == old(rt.live)
                       + (if ret == 0 then {ctx.context.value, ctx.commandQueue.value} else {})
  {
    var found := FindDevice(rt, ctx);
    if !found {
      return -1;
    }

    var r := rt.Issue(CreateContext(ctx.deviceId.value));
    if r.Failed? {
      return -1;
    }
    ctx.context := Some(r.h);

    r := rt.Issue(CreateCommandQueue(ctx.context.value, ctx.deviceId.value));
    if r.Failed? {
      rt.Release(ctx.context.value);
      return -1;
    }
    ctx.commandQueue := Some(r.h);
    return 0;
  }

  /** The events of cl_cleanup, started at log position q: the queue and
      the context are released, then the device, whose status is ignored. */
  function CleanupTrace(cx: ContextHandles, q: nat, ok: nat -> bool): seq<Event>
  {
    [Released(cx.queue), Released(cx.context), EventAt(ReleaseDevice(cx.device), q + 2, ok)]
  }

  /** cl_cleanup: release the queue, then the context, then the device. */
  method Cleanup(rt: Runtime, ctx: CLContext)
    requires rt.Valid() && ctx.Ready(rt)
    modifies rt
    ensures rt.Valid()
    ensures rt.trace == old(rt.trace) + CleanupTrace(old(ctx.Handles()), old(|rt.trace|), rt.ok)
    ensures rt.live == old(rt.live) - {ctx.commandQueue.value, ctx.context.value}
  {
    rt.Release(ctx.commandQueue.value);
    rt.Release(ctx.context.value);
    var _ := rt.Issue(ReleaseDevice(ctx.deviceId.value));
  }

  // ---------------------------------------------------------------------
  // Upload decision
  // ---------------------------------------------------------------------

  /** buffer_needs_upload: host data is copied in when there is host data
      and the kernel may read the buffer (READ_ONLY or READ_WRITE). */
  function BufferNeedsUpload(d: BufferDesc): (r: bool)
    ensures r ==> d.hostPtr.Some?
    ensures d.flags & (CL_MEM_READ_ONLY | CL_MEM_READ_WRITE) == 0 ==> !r
    ensures d.hostPtr.Some? && d.flags & (CL_MEM_READ_ONLY | CL_MEM_READ_WRITE) != 0 ==> r
  {
    if d.hostPtr.None? then false
    else (d.flags & CL_MEM_READ_ONLY) != 0 || (d.flags & CL_MEM_READ_WRITE) != 0
  }

  /** The flags clCreateBuffer receives: COPY_HOST_PTR is added exactly
      when the host data is uploaded, and no other bit changes. */
  function AllocFlags(d: BufferDesc): (f: MemFlags)
    ensures BufferNeedsUpload(d) ==> f & CL_MEM_COPY_HOST_PTR != 0
    ensures f & !CL_MEM_COPY_HOST_PTR == d.flags & !CL_MEM_COPY_HOST_PTR
    ensures !BufferNeedsUpload(d) ==> f == d.flags
  {
    var alloc := d.flags;
    if BufferNeedsUpload(d) then alloc | CL_MEM_COPY_HOST_PTR else alloc
  }

  /** The host pointer clCreateBuffer receives: the descriptor's exactly
      when the data is uploaded, NULL otherwise. */
  function HostPtrArg(d: BufferDesc): (hp: Ptr)
    ensures hp.Some? <==> BufferNeedsUpload(d)
    ensures hp.Some? ==> hp == d.hostPtr
  {
    if BufferNeedsUpload(d) then d.hostPtr else None
  }

  // ---------------------------------------------------------------------
  // The engine's plan: the calls of a run that goes through
  // ---------------------------------------------------------------------

  /** The number of handle-array slots, kernel-source / program / build /
      kernel calls that precede the first buffer. */
  const SETUP_CALLS: nat := 5

  /** The device buffer made for descriptor i by a run started at log
      position p. */
  function BufferHandle(p: nat, i: nat): Handle
  {
    Handle(p + SETUP_CALLS + i)
  }

  /** The first m device buffers of a run started at p, in descriptor order. */
  function DeviceBuffers(p: nat, m: nat): (hs: seq<Handle>)
    ensures |hs| == m
    ensures forall i | 0 <= i < m :: hs[i] == BufferHandle(p, i)
  {
    seq(m, i requires 0 <= i < m => BufferHandle(p, i))
  }

  /** Steps 1 and 2: the handle array, the kernel source, the program, its
      build and the kernel, issued from log position p. */
  function Setup(cx: ContextHandles, kd: KernelDesc, n: nat, p: nat): seq<Call>
  {
    [ Calloc(ToSizeT(n), SIZEOF_CL_MEM),
      LoadSource(kd.sourcePath),
      CreateProgram(cx.context, Handle(p + 1)),
      BuildProgram(Handle(p + 2), cx.device),
      CreateKernel(Handle(p + 2), kd.kernelName) ]
  }

  /** Step 3 for one descriptor: clCreateBuffer with the upload decision. */
  function BufferCall(context: Handle, d: BufferDesc): Call
  {
    CreateBuffer(context, AllocFlags(d), d.size, HostPtrArg(d))
  }

  function BufferCalls(context: Handle, bufs: seq<BufferDesc>): (cs: seq<Call>)
    ensures |cs| == |bufs|
    ensures forall i | 0 <= i < |bufs| :: cs[i] == BufferCall(context, bufs[i])
  {
    seq(|bufs|, i requires 0 <= i < |bufs| => BufferCall(context, bufs[i]))
  }

  /** Steps 4 and 5: the binder's call and the kernel launch. */
  function Launch(cx: ContextHandles, kd: KernelDesc, kernel: Handle, hs: seq<Handle>, verdict: int): seq<Call>
  {
    [ BindArgs(kernel, hs, verdict),
      EnqueueKernel(cx.queue, kernel, kd.workDim, kd.globalSize, kd.localSize) ]
  }

  /** A buffer is copied back when read_back is set and there is host memory. */
  predicate ReadsBack(d: BufferDesc)
  {
    d.readBack != 0 && d.hostPtr.Some?
  }

  /** Step 6 for descriptor i: a read of the whole buffer into its host
      memory, blocking exactly for the last descriptor. */
  function ReadAt(queue: Handle, bufs: seq<BufferDesc>, p: nat, i: nat): Call
    requires i < |bufs| && ReadsBack(bufs[i])
  {
    EnqueueRead(queue, BufferHandle(p, i), i == |bufs| - 1, bufs[i].size, bufs[i].hostPtr.value)
  }

  /** Step 6 from descriptor i on: one read per buffer that is copied back. */
  function ReadBacks(queue: Handle, bufs: seq<BufferDesc>, p: nat, i: nat): seq<Call>
    decreases |bufs| - i
  {
    if i >= |bufs| then []
    else (if ReadsBack(bufs[i]) then [ReadAt(queue, bufs, p, i)] else []) + ReadBacks(queue, bufs, p, i + 1)
  }

  /** What the binder answers in a run started at p: it is handed the
      kernel, all device buffers in order, their number and the caller's data. */
  function Verdict<U>(inv: Invocation<U>, p: nat): int
  {
    inv.bind(Handle(p + 4), DeviceBuffers(p, |inv.bufs|), |inv.bufs|, inv.userData)
  }

  /** The calls of a run started at p that goes through. */
  function Plan<U>(inv: Invocation<U>, p: nat): seq<Call>
  {
    var n := |inv.bufs|;
    Setup(inv.cx, inv.kd, n, p)
    + (BufferCalls(inv.cx.context, inv.bufs)
       + (Launch(inv.cx, inv.kd, Handle(p + 4), DeviceBuffers(p, n), Verdict(inv, p))
          + (ReadBacks(inv.cx.queue, inv.bufs, p, 0) + [Finish(inv.cx.queue)])))
  }

  /** The calls actually issued: the plan up to its first fatal failure. */
  function Forward<U>(inv: Invocation<U>, p: nat, ok: nat -> bool): seq<Event>
  {
    Execute(Plan(inv, p), p, ok)
  }

  /** A failed build surfaces the program's build log. */
  function BuildLog(F: seq<Event>): seq<Event>
  {
    if Stopped(F) && F[|F| - 1].call.BuildProgram?
    then [BuildLogShown(F[|F| - 1].call.program, F[|F| - 1].call.device)]
    else []
  }

  // ---------------------------------------------------------------------
  // What the cleanup label gives back
  // ---------------------------------------------------------------------

  /** How many device buffers exist once c calls of the plan went through. */
  function BuffersMade(n: nat, c: nat): (m: nat)
    ensures m <= n
  {
    if c <= SETUP_CALLS then 0 else if c - SETUP_CALLS < n then c - SETUP_CALLS else n
  }

  /** The handle when present, NULL otherwise. */
  function Opt(b: bool, h: Handle): Ptr
  {
    if b then Some(h) else None
  }

  function OptSeq(x: Ptr): seq<Handle>
  {
    if x.Some? then [x.value] else []
  }

  /** The handles the cleanup label releases, in its order, once c calls
      went through: the device buffers last to first, the handle array,
      the kernel, the program and the kernel source. */
  function Held(p: nat, n: nat, c: nat): seq<Handle>
  {
    Reverse(DeviceBuffers(p, BuffersMade(n, c)))
    + OptSeq(Opt(c > 0, Handle(p))) + OptSeq(Opt(c > 4, Handle(p + 4)))
    + OptSeq(Opt(c > 2, Handle(p + 2))) + OptSeq(Opt(c > 1, Handle(p + 1)))
  }

  function Reverse<T>(s: seq<T>): (r: seq<T>)
    ensures |r| == |s|
    ensures forall i | 0 <= i < |s| :: r[i] == s[|s| - 1 - i]
  {
    seq(|s|, i requires 0 <= i < |s| => s[|s| - 1 - i])
  }

  /** The whole log of cl_run_kernel started at log position p: the calls
      issued, the build log if the build failed, and the releases. */
  function EngineTrace<U>(inv: Invocation<U>, p: nat, ok: nat -> bool): seq<Event>
  {
    var F := Forward(inv, p, ok);
    F + BuildLog(F) + Releases(Held(p, |inv.bufs|, Ran(F)))
  }

  /** cl_run_kernel returns 0 exactly when no call failed fatally. */
  ghost predicate EngineSucceeds<U>(inv: Invocation<U>, p: nat, ok: nat -> bool)
  {
    !Stopped(Forward(inv, p, ok))
  }

  // ---------------------------------------------------------------------
  // The run, stage by stage
  // ---------------------------------------------------------------------

  /** Every call of the read-back stage is a clEnqueueReadBuffer. */
  lemma {:induction false} ReadBacksAreReads(queue: Handle, bufs: seq<BufferDesc>, p: nat, i: nat)
    ensures forall j | 0 <= j < |ReadBacks(queue, bufs, p, i)| :: ReadBacks(queue, bufs, p, i)[j].EnqueueRead?
    decreases |bufs| - i
  {
    if i < |bufs| {
      ReadBacksAreReads(queue, bufs, p, i + 1);
    }
  }

  /** A run that stopped ended with the call of the plan at its length. */
  lemma LastOfRun(plan: seq<Call>, p: nat, ok: nat -> bool)
    ensures var E := Execute(plan, p, ok);
            E != [] ==> E[|E| - 1] == EventAt(plan[|E| - 1], p + |E| - 1, ok)
  {
    ExecuteIsPrefix(plan, p, ok);
  }

  /** The stages of a run of the engine started at p, for n descriptors. */
  datatype Stages = Stages(S: seq<Event>, B: seq<Event>, L: seq<Event>, R: seq<Event>, fin: Event)

  /** Where each stage of a run started at p, for n descriptors, begins
      in the log. */
  function PosBuffers(p: nat): nat { p + SETUP_CALLS }
  function PosLaunch(p: nat, n: nat): nat { p + SETUP_CALLS + n }
  function PosReads(p: nat, n: nat): nat { p + SETUP_CALLS + n + 2 }
  function PosFinish(p: nat, n: nat, r: nat): nat { p + SETUP_CALLS + n + 2 + r }

  function StagesOf<U>(inv: Invocation<U>, p: nat, ok: nat -> bool): Stages
  {
    var n := |inv.bufs|;
    var R := ReadBacks(inv.cx.queue, inv.bufs, p, 0);
    Stages(Execute(Setup(inv.cx, inv.kd, n, p), p, ok),
           Execute(BufferCalls(inv.cx.context, inv.bufs), PosBuffers(p), ok),
           Execute(Launch(inv.cx, inv.kd, Handle(p + 4), DeviceBuffers(p, n), Verdict(inv, p)), PosLaunch(p, n), ok),
           Execute(R, PosReads(p, n), ok),
           EventAt(Finish(inv.cx.queue), PosFinish(p, n, |R|), ok))
  }

  /** A stage's events followed by what comes after it, unless it stopped. */
  function Then(E: seq<Event>, X: seq<Event>): seq<Event>
  {
    if Stopped(E) then E else E + X
  }

  /** One stage followed by the rest: the rest runs unless the stage stopped. */
  lemma ThenRun(A: seq<Call>, Rest: seq<Call>, p: nat, q: nat, ok: nat -> bool, X: seq<Event>)
    requires q == p + |A| && Execute(Rest, q, ok) == X
    ensures Execute(A + Rest, p, ok) == Then(Execute(A, p, ok), X)
  {
    ExecuteAppend(A, Rest, p, ok);
  }

  /** Five stages run back to back, each from where the previous one
      ended: each runs unless an earlier one stopped, and the last (a
      clFinish) never stops. */
  lemma StagesRun(S: seq<Call>, B: seq<Call>, L: seq<Call>, R: seq<Call>, queue: Handle,
                  p: nat, pB: nat, pL: nat, pR: nat, pF: nat, ok: nat -> bool)
    requires pB == p + |S| && pL == pB + |B| && pR == pL + |L| && pF == pR + |R|
    ensures Execute(S + (B + (L + (R + [Finish(queue)]))), p, ok)
            == Then(Execute(S, p, ok), Then(Execute(B, pB, ok), Then(Execute(L, pL, ok),
                 Then(Execute(R, pR, ok), [EventAt(Finish(queue), pF, ok)]))))
  {
    ExecuteCons(Finish(queue), [], pF, ok);
    assert [Finish(queue)] == [Finish(queue)] + [];
    var X4 := Then(Execute(R, pR, ok), [EventAt(Finish(queue), pF, ok)]);
    ThenRun(R, [Finish(queue)], pR, pF, ok, [EventAt(Finish(queue), pF, ok)]);
    var X3 := Then(Execute(L, pL, ok), X4);
    ThenRun(L, R + [Finish(queue)], pL, pR, ok, X4);
    var X2 := Then(Execute(B, pB, ok), X3);
    ThenRun(B, L + (R + [Finish(queue)]), pB, pL, ok, X3);
    ThenRun(S, B + (L + (R + [Finish(queue)])), p, pB, ok, X2);
  }

  /** The run of the whole plan is the run of each stage in turn, up to
      the first stage that stops. */
  lemma ForwardStages<U>(inv: Invocation<U>, p: nat, ok: nat -> bool)
    ensures Forward(inv, p, ok)
            == Then(StagesOf(inv, p, ok).S, Then(StagesOf(inv, p, ok).B, Then(StagesOf(inv, p, ok).L,
                 Then(StagesOf(inv, p, ok).R, [StagesOf(inv, p, ok).fin]))))
  {
    var n := |inv.bufs|;
    var R := ReadBacks(inv.cx.queue, inv.bufs, p, 0);
    StagesRun(Setup(inv.cx, inv.kd, n, p), BufferCalls(inv.cx.context, inv.bufs),
              Launch(inv.cx, inv.kd, Handle(p + 4), DeviceBuffers(p, n), Verdict(inv, p)),
              R, inv.cx.queue, p, PosBuffers(p), PosLaunch(p, n), PosReads(p, n), PosFinish(p, n, |R|), ok);
  }

  // ---------------------------------------------------------------------
  // The engine's local state
  // ---------------------------------------------------------------------

  /** The handle array after the first m buffers were made: slot i holds
      buffer i for i < m and NULL (calloc's zero) after that. */
  function Filled(p: nat, m: nat, n: nat): (s: seq<Ptr>)
    ensures |s| == n
    ensures forall i | 0 <= i < n :: s[i] == (if i < m then Some(BufferHandle(p, i)) else None)
  {
    seq(n, i requires 0 <= i < n => if i < m then Some(BufferHandle(p, i)) else None)
  }

  /** The owned resources a run started at p over n descriptors holds once
      c calls of its plan went through: the result of every call that
      creates one, up to the last device buffer (a build creates nothing). */
  function HeldSet(p: nat, n: nat, c: nat): set<Handle>
  {
    if c == 0 then {}
    else HeldSet(p, n, c - 1) + (if c - 1 != 3 && c - 1 < SETUP_CALLS + n then {Handle(p + c - 1)} else {})
  }

  /** cl_run_kernel's pointer locals once c calls of a run started at p
      went through: the handle array's block after the calloc, the source
      after the load, the program after its creation and the kernel after
      its creation; NULL before. */
  predicate Locals(block: Ptr, source: Ptr, program: Ptr, kernel: Ptr, p: nat, c: nat)
  {
    block == Opt(c > 0, Handle(p)) && source == Opt(c > 1, Handle(p + 1))
    && program == Opt(c > 2, Handle(p + 2)) && kernel == Opt(c > 4, Handle(p + 4))
  }

  /** The handle array once c calls went through: it exists after the
      calloc, with n slots of which the buffers made so far are filled in. */
  ghost predicate HandleArray(deviceBufs: array?<Ptr>, p: nat, n: nat, c: nat)
    reads deviceBufs
  {
    (deviceBufs == null <==> c == 0)
    && (deviceBufs != null ==> deviceBufs.Length == n && deviceBufs[..] == Filled(p, BuffersMade(n, c), n))
  }

  /** One more set-up call through: the handle array, the source, the
      program and the kernel are held once their calls went through; a
      successful build adds nothing. */
  lemma HeldGrows(p: nat, n: nat, c: nat)
    requires c < SETUP_CALLS
    ensures HeldSet(p, n, c + 1) == HeldSet(p, n, c) + (if c != 3 then {Handle(p + c)} else {})
  {
  }

  /** The build log shown by a run that stopped after c calls went through:
      only a failed build (the fourth call) shows one. */
  function BuildLogAt(p: nat, device: Handle, c: nat): seq<Event>
  {
    if c == 3 then [BuildLogShown(Handle(p + 2), device)] else []
  }

  /**
   * The state of cl_run_kernel between its stages, for a run of `plan`
   * started at log position p over n descriptors: either the run is under
   * way, or it was stopped by a fatal failure and the log holds its events
   * and, after a failed build, the build log.  Either way the pointer
   * locals and the live resources are those of the calls that went through.
   */
  ghost predicate Progress(rt: Runtime, block: Ptr, source: Ptr, program: Ptr, kernel: Ptr,
                           plan: seq<Call>, p: nat, n: nat, device: Handle, base: seq<Event>, L0: set<Handle>,
                           going: bool, done: seq<Event>, k: nat, q: nat)
    reads rt
  {
    RunLog(rt, plan, p, device, base, going, done, k, q)
    && Locals(block, source, program, kernel, p, Ran(done))
    && rt.live == L0 + HeldSet(p, n, Ran(done))
  }

  /** The log of a run of `plan` that is under way, or that a fatal
      failure stopped, followed then by the build log of a failed build. */
  ghost predicate RunLog(rt: Runtime, plan: seq<Call>, p: nat, device: Handle, base: seq<Event>,
                         going: bool, done: seq<Event>, k: nat, q: nat)
    reads rt
  {
    (going ==> Going(rt, plan, p, base, done, k, q))
    && (!going ==> rt.Valid() && Stopped(done) && Execute(plan, p, rt.ok) == done
                   && rt.trace == base + done + BuildLogAt(p, device, Ran(done)))
  }

  /** Step 1 of cl_run_kernel, the first call of its plan: calloc the
      array of n buffer handles, all NULL. */
  method AllocHandleArray(rt: Runtime, n: nat, ghost plan: seq<Call>, ghost p: nat, ghost device: Handle)
    returns (deviceBufs: array?<Ptr>, block: Ptr, going: bool, ghost done: seq<Event>, ghost k: nat, ghost q: nat)
    requires rt.Valid() && |rt.trace| == p && SETUP_CALLS < |plan|
    requires plan[0] == Calloc(ToSizeT(n), SIZEOF_CL_MEM)
    modifies rt
    ensures deviceBufs != null ==> fresh(deviceBufs)
    ensures HandleArray(deviceBufs, p, n, Ran(done))
    ensures Progress(rt, block, None, None, None, plan, p, n, device, old(rt.trace), old(rt.live), going, done, k, q)
    ensures going ==> k == 1
  {
    ghost var base := rt.trace;
    StartRun(rt, plan, p);
    deviceBufs, block, going := null, None, false;
    var r;
    r, done, k, q := Step(rt, Calloc(ToSizeT(n), SIZEOF_CL_MEM), plan, p, 0, p, base, []);
    if r.Failed? {
      return;
    }
    block := Some(r.h);
    deviceBufs := new Ptr[n](_ => None);
    assert deviceBufs[..] == Filled(p, 0, n);
    HeldGrows(p, n, 0);
    going := true;
  }

  /** Step 2 of cl_run_kernel, calls 2 and 3 of its plan: load the kernel
      source and create the program from it, stopping at the first failure. */
  method LoadAndCreateProgram(rt: Runtime, cx: ContextHandles, kd: KernelDesc, block: Ptr, n: nat,
                              ghost deviceBufs: array?<Ptr>, ghost plan: seq<Call>, ghost p: nat, ghost base: seq<Event>, ghost L0: set<Handle>,
                              ghost done0: seq<Event>, ghost k0: nat, ghost q0: nat)
    returns (source: Ptr, program: Ptr, going: bool, ghost done: seq<Event>, ghost k: nat, ghost q: nat)
    requires Progress(rt, block, None, None, None, plan, p, n, cx.device, base, L0, true, done0, k0, q0)
    requires k0 == 1 && SETUP_CALLS < |plan| && HandleArray(deviceBufs, p, n, k0)
    requires plan[1] == LoadSource(kd.sourcePath) && plan[2] == CreateProgram(cx.context, Handle(p + 1))
    modifies rt
    ensures Progress(rt, block, source, program, None, plan, p, n, cx.device, base, L0, going, done, k, q)
    ensures HandleArray(deviceBufs, p, n, Ran(done))
    ensures going ==> k == 3
  {
    source, program, going := None, None, false;
    var r;
    r, done, k, q := Step(rt, LoadSource(kd.sourcePath), plan, p, k0, q0, base, done0);
    if r.Failed? {
      return;
    }
    source := Some(r.h);
    HeldGrows(p, n, 1);

    r, done, k, q := Step(rt, CreateProgram(cx.context, source.value), plan, p, k, q, base, done);
    if r.Failed? {
      return;
    }
    program := Some(r.h);
    HeldGrows(p, n, 2);
    going := true;
  }

  /** Step 2 of cl_run_kernel, continued, calls 4 and 5 of its plan: build the program
      (showing the build log if the build fails) and create the kernel. */
  method BuildKernel(rt: Runtime, cx: ContextHandles, kd: KernelDesc, block: Ptr, source: Ptr, program: Ptr, n: nat,
                     ghost deviceBufs: array?<Ptr>, ghost plan: seq<Call>, ghost p: nat, ghost base: seq<Event>, ghost L0: set<Handle>,
                     ghost done0: seq<Event>, ghost k0: nat, ghost q0: nat)
    returns (kernel: Ptr, going: bool, ghost done: seq<Event>, ghost k: nat, ghost q: nat)
    requires Progress(rt, block, source, program, None, plan, p, n, cx.device, base, L0, true, done0, k0, q0)
    requires k0 == 3 && SETUP_CALLS < |plan| && HandleArray(deviceBufs, p, n, k0)
    requires plan[3] == BuildProgram(Handle(p + 2), cx.device) && plan[4] == CreateKernel(Handle(p + 2), kd.kernelName)
    modifies rt
    ensures Progress(rt, block, source, program, kernel, plan, p, n, cx.device, base, L0, going, done, k, q)
    ensures HandleArray(deviceBufs, p, n, Ran(done))
    ensures going ==> k == SETUP_CALLS
  {
    kernel, going := None, false;
    var r;
    r, done, k, q := Step(rt, BuildProgram(program.value, cx.device), plan, p, k0, q0, base, done0);
    if r.Failed? {
      rt.ShowBuildLog(program.value, cx.device);
      return;
    }
    HeldGrows(p, n, 3);

    r, done, k, q := Step(rt, CreateKernel(program.value, kd.kernelName), plan, p, k, q, base, done);
    if r.Failed? {
      return;
    }
    kernel := Some(r.h);
    HeldGrows(p, n, 4);
    going := true;
  }

  /** The handle array after one more buffer was made. */
  lemma FilledNext(p: nat, i: nat, n: nat)
    requires i < n
    ensures Filled(p, i, n)[i := Some(BufferHandle(p, i))] == Filled(p, i + 1, n)
  {
  }

  /** One pass of step 3 of cl_run_kernel, the call at k0 of its plan:
      clCreateBuffer for descriptor d, with the flags and host pointer of
      the upload decision. */
  method CreateDeviceBuffer(rt: Runtime, context: Handle, d: BufferDesc, n: nat,
                            block: Ptr, source: Ptr, program: Ptr, kernel: Ptr, device: Handle,
                            ghost plan: seq<Call>, ghost p: nat, ghost base: seq<Event>, ghost L0: set<Handle>,
                            ghost done0: seq<Event>, ghost k0: nat, ghost q0: nat)
    returns (r: Reply, ghost done: seq<Event>, ghost k: nat, ghost q: nat)
    requires Progress(rt, block, source, program, kernel, plan, p, n, device, base, L0, true, done0, k0, q0)
    requires SETUP_CALLS <= k0 < SETUP_CALLS + n && k0 < |plan| && plan[k0] == BufferCall(context, d)
    modifies rt
    ensures Progress(rt, block, source, program, kernel, plan, p, n, device, base, L0, !r.Failed?, done, k, q)
    ensures r.Failed? || r == Created(BufferHandle(p, k0 - SETUP_CALLS))
    ensures k == k0 + 1 && Ran(done) == if r.Failed? then k0 else k
  {
    r, done, k, q := Step(rt, BufferCall(context, d), plan, p, k0, q0, base, done0);
  }

  /** Step 3 of cl_run_kernel, calls 6 to 5 + n of its plan: one device
      buffer per descriptor, in order; its handle goes to slot i of the
      handle array, and the first failure ends the stage. */
  method CreateBuffers(rt: Runtime, context: Handle, bufs: seq<BufferDesc>, deviceBufs: array<Ptr>,
                       block: Ptr, source: Ptr, program: Ptr, kernel: Ptr, device: Handle,
                       ghost plan: seq<Call>, ghost p: nat, ghost base: seq<Event>, ghost L0: set<Handle>,
                       ghost done0: seq<Event>, ghost k0: nat, ghost q0: nat)
    returns (going: bool, ghost done: seq<Event>, ghost k: nat, ghost q: nat)
    requires Progress(rt, block, source, program, kernel, plan, p, |bufs|, device, base, L0, true, done0, k0, q0)
    requires k0 == SETUP_CALLS && BuffersAt(plan, context, bufs)
    requires HandleArray(deviceBufs, p, |bufs|, SETUP_CALLS)
    modifies rt, deviceBufs
    ensures Progress(rt, block, source, program, kernel, plan, p, |bufs|, device, base, L0, going, done, k, q)
    ensures HandleArray(deviceBufs, p, |bufs|, Ran(done))
    ensures going ==> k == SETUP_CALLS + |bufs|
  {
    going, done, k, q := true, done0, k0, q0;
    var i := 0;
    while i < |bufs|
      invariant 0 <= i <= |bufs| && k == SETUP_CALLS + i
      invariant Progress(rt, block, source, program, kernel, plan, p, |bufs|, device, base, L0, true, done, k, q)
      invariant deviceBufs[..] == Filled(p, i, |bufs|)
    {
      var r;
      r, done, k, q := CreateDeviceBuffer(rt, context, bufs[i], |bufs|, block, source, program, kernel, device,
                                          plan, p, base, L0, done, k, q);
      deviceBufs[i] := if r.Created? then Some(r.h) else None;
      if r.Failed? {
        assert deviceBufs[..] == Filled(p, i, |bufs|);
        going := false;
        return;
      }
      FilledNext(p, i, |bufs|);
      i := i + 1;
    }
  }

  /** Issuing call k0 of the plan once every buffer exists: the call
      creates nothing, so only a fatal failure changes the state between
      stages, by ending the run. */
  method Proceed(rt: Runtime, c: Call, n: nat, block: Ptr, source: Ptr, program: Ptr, kernel: Ptr, device: Handle,
                 ghost plan: seq<Call>, ghost p: nat, ghost base: seq<Event>, ghost L0: set<Handle>,
                 ghost done0: seq<Event>, ghost k0: nat, ghost q0: nat)
    returns (r: Reply, ghost done: seq<Event>, ghost k: nat, ghost q: nat)
    requires Progress(rt, block, source, program, kernel, plan, p, n, device, base, L0, true, done0, k0, q0)
    requires SETUP_CALLS + n <= k0 < |plan| && plan[k0] == c && ResourceOf(c).None?
    modifies rt
    ensures r == ReplyOf(EventAt(c, q0, rt.ok)) && k == k0 + 1 && k0 <= Ran(done)
    ensures Stopped(done) == Fatal(EventAt(c, q0, rt.ok))
    ensures Progress(rt, block, source, program, kernel, plan, p, n, device, base, L0, !Stopped(done), done, k, q)
  {
    r, done, k, q := Step(rt, c, plan, p, k0, q0, base, done0);
  }

  /** The handles of a handle array whose every slot is filled. */
  function Unwrap(s: seq<Ptr>): (hs: seq<Handle>)
    requires forall i | 0 <= i < |s| :: s[i].Some?
    ensures |hs| == |s| && forall i | 0 <= i < |s| :: Some(hs[i]) == s[i]
  {
    seq(|s|, i requires 0 <= i < |s| => s[i].value)
  }

  /** Steps 4 and 5 of cl_run_kernel, the two calls after the buffers: the
      binder gets the kernel, the handle array and its length, and a
      non-zero answer ends the run before the launch; then the kernel is
      enqueued over the descriptor's work sizes. */
  method BindAndLaunch<U>(rt: Runtime, cx: ContextHandles, kd: KernelDesc, deviceBufs: array<Ptr>, n: nat,
                          bind: Binder<U>, userData: U, block: Ptr, source: Ptr, program: Ptr, kernel: Ptr,
                          ghost plan: seq<Call>, ghost p: nat, ghost base: seq<Event>, ghost L0: set<Handle>,
                          ghost done0: seq<Event>, ghost k0: nat, ghost q0: nat)
    returns (going: bool, ghost done: seq<Event>, ghost k: nat, ghost q: nat)
    requires Progress(rt, block, source, program, kernel, plan, p, n, cx.device, base, L0, true, done0, k0, q0)
    requires k0 == SETUP_CALLS + n && k0 + 2 <= |plan| && HandleArray(deviceBufs, p, n, k0)
    requires plan[k0] == BindArgs(Handle(p + 4), DeviceBuffers(p, n), bind(Handle(p + 4), DeviceBuffers(p, n), n, userData))
    requires plan[k0 + 1] == EnqueueKernel(cx.queue, Handle(p + 4), kd.workDim, kd.globalSize, kd.localSize)
    modifies rt
    ensures Progress(rt, block, source, program, kernel, plan, p, n, cx.device, base, L0, going, done, k, q)
    ensures HandleArray(deviceBufs, p, n, Ran(done))
    ensures going ==> k == k0 + 2
  {
    going := false;
    var hs := Unwrap(deviceBufs[..]);
    assert hs == DeviceBuffers(p, n);
    var verdict := bind(kernel.value, hs, n, userData);
    var r;
    r, done, k, q := Proceed(rt, BindArgs(kernel.value, hs, verdict), n, block, source, program, kernel, cx.device,
                             plan, p, base, L0, done0, k0, q0);
    if r.Failed? {
      return;
    }
    r, done, k, q := Proceed(rt, EnqueueKernel(cx.queue, kernel.value, kd.workDim, kd.globalSize, kd.localSize),
                             n, block, source, program, kernel, cx.device, plan, p, base, L0, done, k, q);
    if r.Failed? {
      return;
    }
    going := true;
  }

  /** The call at k of a plan whose rest starts with c, and the rest after it. */
  lemma RestStep(plan: seq<Call>, k: nat, c: Call, X: seq<Call>)
    requires k <= |plan| && plan[k..] == [c] + X
    ensures k < |plan| && plan[k] == c && plan[k + 1..] == X
  {
    assert plan[k..][0] == c;
    assert plan[k + 1..] == plan[k..][1..];
  }

  /** The read-back stage from descriptor i, followed by clFinish: a read
      of buffer i when it is copied back, then the stage from i + 1. */
  lemma ReadBacksNext(queue: Handle, bufs: seq<BufferDesc>, p: nat, i: nat)
    requires i < |bufs|
    ensures ReadsBack(bufs[i]) ==> ReadBacks(queue, bufs, p, i) + [Finish(queue)]
                                   == [ReadAt(queue, bufs, p, i)] + (ReadBacks(queue, bufs, p, i + 1) + [Finish(queue)])
    ensures !ReadsBack(bufs[i]) ==> ReadBacks(queue, bufs, p, i) == ReadBacks(queue, bufs, p, i + 1)
  {
  }

  /** One pass of step 6 of cl_run_kernel, for descriptor i: nothing
      unless it is read back and has host memory; otherwise a read of the
      whole buffer into that memory, blocking only for the last descriptor. */
  method ReadBackBuffer(rt: Runtime, queue: Handle, bufs: seq<BufferDesc>, i: nat, deviceBufs: array<Ptr>,
                        block: Ptr, source: Ptr, program: Ptr, kernel: Ptr, device: Handle,
                        ghost plan: seq<Call>, ghost p: nat, ghost base: seq<Event>, ghost L0: set<Handle>,
                        ghost done0: seq<Event>, ghost k0: nat, ghost q0: nat)
    returns (going: bool, ghost done: seq<Event>, ghost k: nat, ghost q: nat)
    requires Progress(rt, block, source, program, kernel, plan, p, |bufs|, device, base, L0, true, done0, k0, q0)
    requires i < |bufs| && SETUP_CALLS + |bufs| <= k0 <= |plan| && HandleArray(deviceBufs, p, |bufs|, k0)
    requires plan[k0..] == ReadBacks(queue, bufs, p, i) + [Finish(queue)]
    modifies rt
    ensures Progress(rt, block, source, program, kernel, plan, p, |bufs|, device, base, L0, going, done, k, q)
    ensures HandleArray(deviceBufs, p, |bufs|, Ran(done))
    ensures going ==> k0 <= k <= |plan| && plan[k..] == ReadBacks(queue, bufs, p, i + 1) + [Finish(queue)]
  {
    going, done, k, q := true, done0, k0, q0;
    ReadBacksNext(queue, bufs, p, i);
    if bufs[i].readBack == 0 || bufs[i].hostPtr.None? {
      return;
    }
    var blocking := i == |bufs| - 1;
    var c := EnqueueRead(queue, deviceBufs[i].value, blocking, bufs[i].size, bufs[i].hostPtr.value);
    assert c == ReadAt(queue, bufs, p, i);
    RestStep(plan, k, c, ReadBacks(queue, bufs, p, i + 1) + [Finish(queue)]);
    var r;
    r, done, k, q := Proceed(rt, c, |bufs|, block, source, program, kernel, device, plan, p, base, L0, done, k, q);
    going := !r.Failed?;
  }

  /** Step 6 of cl_run_kernel, the read-back loop: every descriptor in
      order, the first failed read ending the run. */
  method ReadBack(rt: Runtime, queue: Handle, bufs: seq<BufferDesc>, deviceBufs: array<Ptr>,
                  block: Ptr, source: Ptr, program: Ptr, kernel: Ptr, device: Handle,
                  ghost plan: seq<Call>, ghost p: nat, ghost base: seq<Event>, ghost L0: set<Handle>,
                  ghost done0: seq<Event>, ghost k0: nat, ghost q0: nat)
    returns (going: bool, ghost done: seq<Event>, ghost k: nat, ghost q: nat)
    requires Progress(rt, block, source, program, kernel, plan, p, |bufs|, device, base, L0, true, done0, k0, q0)
    requires SETUP_CALLS + |bufs| <= k0 <= |plan| && HandleArray(deviceBufs, p, |bufs|, k0)
    requires plan[k0..] == ReadBacks(queue, bufs, p, 0) + [Finish(queue)]
    modifies rt
    ensures Progress(rt, block, source, program, kernel, plan, p, |bufs|, device, base, L0, going, done, k, q)
    ensures HandleArray(deviceBufs, p, |bufs|, Ran(done))
    ensures going ==> k < |plan| && plan[k..] == [Finish(queue)]
  {
    going, done, k, q := true, done0, k0, q0;
    var i := 0;
    while i < |bufs|
      invariant 0 <= i <= |bufs| && k0 <= k <= |plan|
      invariant Progress(rt, block, source, program, kernel, plan, p, |bufs|, device, base, L0, true, done, k, q)
      invariant plan[k..] == ReadBacks(queue, bufs, p, i) + [Finish(queue)]
      invariant HandleArray(deviceBufs, p, |bufs|, Ran(done))
    {
      going, done, k, q := ReadBackBuffer(rt, queue, bufs, i, deviceBufs, block, source, program, kernel, device,
                                          plan, p, base, L0, done, k, q);
      if !going {
        return;
      }
      i := i + 1;
    }
  }

  // ---------------------------------------------------------------------
  // The cleanup label
  // ---------------------------------------------------------------------

  /** Buffers lo to hi - 1 of a run started at p, last first. */
  function Desc(p: nat, lo: nat, hi: nat): seq<Handle>
    decreases hi - lo
  {
    if lo >= hi then [] else Desc(p, lo + 1, hi) + [BufferHandle(p, lo)]
  }

  /** Handles lo to hi - 1, by id. */
  function Span(lo: nat, hi: nat): set<Handle>
    decreases hi - lo
  {
    if lo >= hi then {} else {Handle(lo)} + Span(lo + 1, hi)
  }

  lemma {:induction false} SpanIds(lo: nat, hi: nat, h: Handle)
    ensures h in Span(lo, hi) <==> lo <= h.id < hi
    decreases hi - lo
  {
    if lo < hi {
      SpanIds(lo + 1, hi, h);
    }
  }

  /** Buffers lo to hi - 1 last first are the last hi - lo of the reversed
      list of the first hi buffers. */
  lemma {:induction false} DescAt(p: nat, lo: nat, hi: nat)
    requires lo <= hi
    ensures |Desc(p, lo, hi)| == hi - lo
    ensures forall j | 0 <= j < hi - lo :: Desc(p, lo, hi)[j] == BufferHandle(p, hi - 1 - j)
    decreases hi - lo
  {
    if lo < hi {
      DescAt(p, lo + 1, hi);
    }
  }

  /** A run holds exactly the handles of the calls that went through
      before the first buffer past the last, except the build's. */
  lemma {:induction false} HeldIds(p: nat, n: nat, c: nat, h: Handle)
    ensures h in HeldSet(p, n, c) <==> p <= h.id < p + c && h.id < p + SETUP_CALLS + n && h.id != p + 3
  {
    if c > 0 {
      HeldIds(p, n, c - 1, h);
    }
  }

  function OptSet(x: Ptr): set<Handle>
  {
    if x.Some? then {x.value} else {}
  }

  /** What a run holds once c calls went through, part by part: the
      buffers made, the handle array, the kernel, the program and the source. */
  lemma HeldParts(p: nat, n: nat, c: nat)
    ensures HeldSet(p, n, c) == Span(p + SETUP_CALLS, p + SETUP_CALLS + BuffersMade(n, c))
                                + OptSet(Opt(c > 0, Handle(p))) + OptSet(Opt(c > 4, Handle(p + 4)))
                                + OptSet(Opt(c > 2, Handle(p + 2))) + OptSet(Opt(c > 1, Handle(p + 1)))
    ensures Held(p, n, c) == Desc(p, 0, BuffersMade(n, c))
                             + OptSeq(Opt(c > 0, Handle(p))) + OptSeq(Opt(c > 4, Handle(p + 4)))
                             + OptSeq(Opt(c > 2, Handle(p + 2))) + OptSeq(Opt(c > 1, Handle(p + 1)))
  {
    var m := BuffersMade(n, c);
    forall h
      ensures h in HeldSet(p, n, c) <==> h in Span(p + SETUP_CALLS, p + SETUP_CALLS + m)
                                             + OptSet(Opt(c > 0, Handle(p))) + OptSet(Opt(c > 4, Handle(p + 4)))
                                             + OptSet(Opt(c > 2, Handle(p + 2))) + OptSet(Opt(c > 1, Handle(p + 1)))
    {
      HeldIds(p, n, c, h);
      SpanIds(p + SETUP_CALLS, p + SETUP_CALLS + m, h);
    }
    DescAt(p, 0, m);
    assert Desc(p, 0, m) == Reverse(DeviceBuffers(p, m));
  }

  /** The release events of two lists of handles, one after the other. */
  lemma ReleasesAppend(a: seq<Handle>, b: seq<Handle>)
    ensures Releases(a + b) == Releases(a) + Releases(b)
  {
  }

  /** Releasing one more handle below the span already released. */
  lemma SpanRelease(L: set<Handle>, lo: nat, hi: nat)
    requires lo < hi
    ensures L - Span(lo + 1, hi) - {Handle(lo)} == L - Span(lo, hi)
  {
  }

  /** One pass of the first loop of the cleanup label: slot i of the
      handle array, of whose first m slots are filled, once the slots
      after it were handled. */
  method ReleaseSlot(rt: Runtime, deviceBufs: array?<Ptr>, n: nat, i: nat, ghost p: nat, ghost m: nat,
                     ghost T: seq<Event>, ghost L: set<Handle>)
    requires i < n && m <= n && (deviceBufs == null ==> m == 0)
    requires deviceBufs != null ==> deviceBufs.Length == n && deviceBufs[..] == Filled(p, m, n)
    requires Span(p + SETUP_CALLS, p + SETUP_CALLS + m) <= L
    requires rt.Valid() && rt.trace == T + Releases(Desc(p, i + 1, m))
    requires rt.live == L - Span(p + SETUP_CALLS + i + 1, p + SETUP_CALLS + m)
    modifies rt
    ensures rt.Valid() && rt.trace == T + Releases(Desc(p, i, m))
    ensures rt.live == L - Span(p + SETUP_CALLS + i, p + SETUP_CALLS + m)
  {
    if deviceBufs != null && deviceBufs[i].Some? {
      var h := deviceBufs[i].value;
      assert h == BufferHandle(p, i) && i < m;
      SpanIds(p + SETUP_CALLS, p + SETUP_CALLS + m, h);
      SpanIds(p + SETUP_CALLS + i + 1, p + SETUP_CALLS + m, h);
      ReleasesAppend(Desc(p, i + 1, m), [h]);
      SpanRelease(L, p + SETUP_CALLS + i, p + SETUP_CALLS + m);
      rt.Release(h);
    } else {
      assert i >= m;
    }
  }

  /** The first loop of the cleanup label: from the last slot to the
      first, release each device buffer the handle array holds; the first
      m slots are filled. */
  method ReleaseBuffers(rt: Runtime, deviceBufs: array?<Ptr>, n: nat, ghost p: nat, ghost m: nat)
    requires rt.Valid() && m <= n && (deviceBufs == null ==> m == 0)
    requires deviceBufs != null ==> deviceBufs.Length == n && deviceBufs[..] == Filled(p, m, n)
    requires Span(p + SETUP_CALLS, p + SETUP_CALLS + m) <= rt.live
    modifies rt
    ensures rt.Valid()
    ensures rt.trace == old(rt.trace) + Releases(Desc(p, 0, m))
    ensures rt.live == old(rt.live) - Span(p + SETUP_CALLS, p + SETUP_CALLS + m)
  {
    ghost var T, L := rt.trace, rt.live;
    var i: nat := n;
    assert Desc(p, n, m) == [] && Span(p + SETUP_CALLS + n, p + SETUP_CALLS + m) == {};
    while i > 0
      invariant i <= n && rt.Valid()
      invariant rt.trace == T + Releases(Desc(p, i, m))
      invariant rt.live == L - Span(p + SETUP_CALLS + i, p + SETUP_CALLS + m)
    {
      ReleaseSlot(rt, deviceBufs, n, i - 1, p, m, T, L);
      i := i - 1;
    }
  }

  /** free() or clRelease* of a pointer local that may be NULL: nothing
      when it is NULL. */
  method ReleaseIfHeld(rt: Runtime, x: Ptr)
    requires rt.Valid() && (x.Some? ==> x.value in rt.live)
    modifies rt
    ensures rt.Valid()
    ensures rt.trace == old(rt.trace) + Releases(OptSeq(x))
    ensures rt.live == old(rt.live) - OptSet(x)
  {
    if x.Some? {
      rt.Release(x.value);
    }
  }

  /** The release events of the handles the cleanup label gives back,
      part by part, after the log so far. */
  lemma ReleasesOfHeld(T: seq<Event>, D: seq<Handle>, a: seq<Handle>, b: seq<Handle>, c: seq<Handle>, d: seq<Handle>)
    ensures T + Releases(D) + Releases(a) + Releases(b) + Releases(c) + Releases(d) == T + Releases(D + a + b + c + d)
  {
    ReleasesAppend(D + a + b + c, d);
    ReleasesAppend(D + a + b, c);
    ReleasesAppend(D + a, b);
    ReleasesAppend(D, a);
  }

  /** The pointer locals the cleanup label releases after the buffers are
      still live when their turn comes, and together with the buffers they
      are what the run holds. */
  lemma TeardownSets(L: set<Handle>, p: nat, n: nat, c: nat, block: Ptr, source: Ptr, program: Ptr, kernel: Ptr)
    requires Locals(block, source, program, kernel, p, c) && HeldSet(p, n, c) <= L
    ensures var S := Span(p + SETUP_CALLS, p + SETUP_CALLS + BuffersMade(n, c));
            && S <= L
            && (block.Some? ==> block.value in L - S)
            && (kernel.Some? ==> kernel.value in L - S - OptSet(block))
            && (program.Some? ==> program.value in L - S - OptSet(block) - OptSet(kernel))
            && (source.Some? ==> source.value in L - S - OptSet(block) - OptSet(kernel) - OptSet(program))
            && L - S - OptSet(block) - OptSet(kernel) - OptSet(program) - OptSet(source) == L - HeldSet(p, n, c)
  {
    var m := BuffersMade(n, c);
    HeldParts(p, n, c);
    SpanIds(p + SETUP_CALLS, p + SETUP_CALLS + m, Handle(p));
    SpanIds(p + SETUP_CALLS, p + SETUP_CALLS + m, Handle(p + 1));
    SpanIds(p + SETUP_CALLS, p + SETUP_CALLS + m, Handle(p + 2));
    SpanIds(p + SETUP_CALLS, p + SETUP_CALLS + m, Handle(p + 4));
  }

  /** The cleanup label of cl_run_kernel, once c calls of a run started
      at p went through: release the device buffers last to first, free
      the handle array, release the kernel and the program when they
      exist and free the source. */
  method Teardown(rt: Runtime, deviceBufs: array?<Ptr>, n: nat, block: Ptr, source: Ptr, program: Ptr, kernel: Ptr,
                  ghost p: nat, ghost c: nat)
    requires rt.Valid() && HandleArray(deviceBufs, p, n, c) && Locals(block, source, program, kernel, p, c)
    requires HeldSet(p, n, c) <= rt.live
    modifies rt
    ensures rt.Valid()
    ensures rt.trace == old(rt.trace) + Releases(Held(p, n, c))
    ensures rt.live == old(rt.live) - HeldSet(p, n, c)
  {
    ghost var m := BuffersMade(n, c);
    HeldParts(p, n, c);
    ReleasesOfHeld(rt.trace, Desc(p, 0, m), OptSeq(block), OptSeq(kernel), OptSeq(program), OptSeq(source));
    TeardownSets(rt.live, p, n, c, block, source, program, kernel);
    ReleaseBuffers(rt, deviceBufs, n, p, m);
    ReleaseIfHeld(rt, block);
    ReleaseIfHeld(rt, kernel);
    ReleaseIfHeld(rt, program);
    ReleaseIfHeld(rt, source);
  }

  // ---------------------------------------------------------------------
  // cl_run_kernel
  // ---------------------------------------------------------------------

  /** Where each call of the plan of a run started at p sits: the set-up
      calls, one buffer per descriptor, then the launch and the rest. */
  ghost predicate PlanOf<U>(plan: seq<Call>, inv: Invocation<U>, p: nat)
  {
    SETUP_CALLS + |inv.bufs| + 2 <= |plan|
    && SetupAt(plan, inv.cx, inv.kd, |inv.bufs|, p)
    && BuffersAt(plan, inv.cx.context, inv.bufs)
    && LaunchAt(plan, inv, p)
  }

  ghost predicate SetupAt(plan: seq<Call>, cx: ContextHandles, kd: KernelDesc, n: nat, p: nat)
  {
    SETUP_CALLS <= |plan|
    && plan[0] == Calloc(ToSizeT(n), SIZEOF_CL_MEM) && plan[1] == LoadSource(kd.sourcePath)
    && plan[2] == CreateProgram(cx.context, Handle(p + 1))
    && plan[3] == BuildProgram(Handle(p + 2), cx.device)
    && plan[4] == CreateKernel(Handle(p + 2), kd.kernelName)
  }

  ghost predicate BuffersAt(plan: seq<Call>, context: Handle, bufs: seq<BufferDesc>)
  {
    SETUP_CALLS + |bufs| <= |plan|
    && forall i | 0 <= i < |bufs| :: plan[SETUP_CALLS + i] == BufferCall(context, bufs[i])
  }

  ghost predicate LaunchAt<U>(plan: seq<Call>, inv: Invocation<U>, p: nat)
  {
    var n, hs := |inv.bufs|, DeviceBuffers(p, |inv.bufs|);
    SETUP_CALLS + n + 2 <= |plan|
    && plan[SETUP_CALLS + n] == BindArgs(Handle(p + 4), hs, inv.bind(Handle(p + 4), hs, n, inv.userData))
    && plan[SETUP_CALLS + n + 1]
       == EnqueueKernel(inv.cx.queue, Handle(p + 4), inv.kd.workDim, inv.kd.globalSize, inv.kd.localSize)
    && plan[SETUP_CALLS + n + 2..] == ReadBacks(inv.cx.queue, inv.bufs, p, 0) + [Finish(inv.cx.queue)]
  }

  lemma PlanShape<U>(inv: Invocation<U>, p: nat)
    ensures PlanOf(Plan(inv, p), inv, p)
  {
    var n := |inv.bufs|;
    var S := Setup(inv.cx, inv.kd, n, p);
    var B := BufferCalls(inv.cx.context, inv.bufs);
    var L := Launch(inv.cx, inv.kd, Handle(p + 4), DeviceBuffers(p, n), Verdict(inv, p));
    var R := ReadBacks(inv.cx.queue, inv.bufs, p, 0) + [Finish(inv.cx.queue)];
    var plan := Plan(inv, p);
    assert plan == S + (B + (L + R));
    assert plan[SETUP_CALLS..] == B + (L + R);
    assert plan[SETUP_CALLS + n..] == L + R;
    assert plan[SETUP_CALLS + n + 2..] == R;
  }

  /** Where each kind of call sits in the plan: the build is the fourth
      call, the buffers come next in descriptor order, then the binder and
      the launch, the reads and, last, clFinish; cl_cleanup's device
      release is not part of it. */
  lemma PlanKinds<U>(inv: Invocation<U>, p: nat)
    ensures var plan, n := Plan(inv, p), |inv.bufs|;
            && |plan| >= SETUP_CALLS + n + 3
            && forall i | 0 <= i < |plan| :: KindAt(plan, n, i)
  {
    PlanShape(inv, p);
    PlanOfKinds(Plan(inv, p), inv, p);
  }

  lemma PlanOfKinds<U>(plan: seq<Call>, inv: Invocation<U>, p: nat)
    requires PlanOf(plan, inv, p)
    ensures |plan| >= SETUP_CALLS + |inv.bufs| + 3
    ensures forall i | 0 <= i < |plan| :: KindAt(plan, |inv.bufs|, i)
  {
    var n := |inv.bufs|;
    var R := ReadBacks(inv.cx.queue, inv.bufs, p, 0);
    ReadBacksAreReads(inv.cx.queue, inv.bufs, p, 0);
    assert plan[SETUP_CALLS + n + 2..] == R + [Finish(inv.cx.queue)];
    assert |plan| == SETUP_CALLS + n + 2 + |R| + 1;
    forall i | 0 <= i < |plan|
      ensures KindAt(plan, n, i)
    {
      if i < SETUP_CALLS + n + 2 {
        if SETUP_CALLS <= i < SETUP_CALLS + n {
          assert plan[i] == BufferCall(inv.cx.context, inv.bufs[i - SETUP_CALLS]);
        }
      } else {
        assert plan[i] == (R + [Finish(inv.cx.queue)])[i - (SETUP_CALLS + n + 2)];
      }
    }
  }

  /** The kind of call i of a plan over n descriptors, as PlanKinds states it. */
  predicate KindAt(plan: seq<Call>, n: nat, i: nat)
    requires i < |plan|
  {
    && (plan[i].BuildProgram? <==> i == 3)
    && (plan[i].CreateBuffer? <==> SETUP_CALLS <= i < SETUP_CALLS + n)
    && (plan[i].BindArgs? <==> i == SETUP_CALLS + n)
    && (plan[i].EnqueueKernel? <==> i == SETUP_CALLS + n + 1)
    && (plan[i].EnqueueRead? <==> SETUP_CALLS + n + 2 <= i < |plan| - 1)
    && (plan[i].Finish? <==> i == |plan| - 1)
    && !plan[i].ReleaseDevice?
  }

  /** The build log the engine shows: after a failed build, the one of
      its program; nothing otherwise. */
  lemma BuildLogOfRun<U>(inv: Invocation<U>, p: nat, ok: nat -> bool)
    ensures var F := Forward(inv, p, ok);
            BuildLog(F) == if Stopped(F) then BuildLogAt(p, inv.cx.device, Ran(F)) else []
  {
    var F := Forward(inv, p, ok);
    if Stopped(F) {
      LastOfRun(Plan(inv, p), p, ok);
      ExecuteIsPrefix(Plan(inv, p), p, ok);
      PlanKinds(inv, p);
      PlanShape(inv, p);
      assert KindAt(Plan(inv, p), |inv.bufs|, |F| - 1);
    }
  }

  /** Resources live before a run started at p are not among those it
      creates, so giving back what it holds leaves exactly them. */
  lemma HeldDisjoint(L0: set<Handle>, p: nat, n: nat, c: nat)
    requires forall h | h in L0 :: h.id < p
    ensures (L0 + HeldSet(p, n, c)) - HeldSet(p, n, c) == L0
  {
    forall h | h in L0
      ensures h !in HeldSet(p, n, c)
    {
      HeldIds(p, n, c, h);
    }
  }

  /** Steps 1 and 2 of cl_run_kernel: the handle array, then the kernel
      source, the program and its build, and the kernel. */
  method Prepare<U>(rt: Runtime, cx: ContextHandles, kd: KernelDesc, bufs: seq<BufferDesc>,
                    bind: Binder<U>, userData: U, ghost plan: seq<Call>, ghost p: nat)
    returns (deviceBufs: array?<Ptr>, block: Ptr, source: Ptr, program: Ptr, kernel: Ptr, going: bool,
             ghost done: seq<Event>, ghost k: nat, ghost q: nat)
    requires rt.Valid() && |rt.trace| == p && SetupAt(plan, cx, kd, |bufs|, p) && SETUP_CALLS < |plan|
    modifies rt
    ensures deviceBufs != null ==> fresh(deviceBufs)
    ensures Progress(rt, block, source, program, kernel, plan, p, |bufs|, cx.device, old(rt.trace), old(rt.live),
                     going, done, k, q)
    ensures HandleArray(deviceBufs, p, |bufs|, Ran(done))
    ensures going ==> k == SETUP_CALLS
  {
    ghost var base, L0 := rt.trace, rt.live;
    var n := |bufs|;
    source, program, kernel := None, None, None;
    deviceBufs, block, going, done, k, q := AllocHandleArray(rt, n, plan, p, cx.device);
    if !going {
      return;
    }
    source, program, going, done, k, q := LoadAndCreateProgram(rt, cx, kd, block, n, deviceBufs, plan, p, base, L0, done, k, q);
    if !going {
      return;
    }
    kernel, going, done, k, q := BuildKernel(rt, cx, kd, block, source, program, n, deviceBufs, plan, p, base, L0, done, k, q);
  }

  /** Steps 4 to 6 of cl_run_kernel and its clFinish, once every buffer
      exists: the binder, the launch, the read-backs and the wait for the
      queue. */
  method LaunchAndCollect<U>(rt: Runtime, cx: ContextHandles, kd: KernelDesc, bufs: seq<BufferDesc>,
                             bind: Binder<U>, userData: U, deviceBufs: array<Ptr>,
                             block: Ptr, source: Ptr, program: Ptr, kernel: Ptr,
                             ghost plan: seq<Call>, ghost p: nat, ghost base: seq<Event>, ghost L0: set<Handle>,
                             ghost done0: seq<Event>, ghost k0: nat, ghost q0: nat)
    returns (going: bool, ghost done: seq<Event>, ghost k: nat, ghost q: nat)
    requires Progress(rt, block, source, program, kernel, plan, p, |bufs|, cx.device, base, L0, true, done0, k0, q0)
    requires HandleArray(deviceBufs, p, |bufs|, k0)
    requires k0 == SETUP_CALLS + |bufs| && LaunchAt(plan, Invocation(cx, kd, bufs, bind, userData), p)
    modifies rt
    ensures Progress(rt, block, source, program, kernel, plan, p, |bufs|, cx.device, base, L0, going, done, k, q)
    ensures HandleArray(deviceBufs, p, |bufs|, Ran(done))
    ensures going ==> k == |plan|
  {
    var n := |bufs|;
    going, done, k, q := BindAndLaunch(rt, cx, kd, deviceBufs, n, bind, userData, block, source, program, kernel,
                                       plan, p, base, L0, done0, k0, q0);
    if !going {
      return;
    }
    going, done, k, q := ReadBack(rt, cx.queue, bufs, deviceBufs, block, source, program, kernel, cx.device,
                                  plan, p, base, L0, done, k, q);
    if !going {
      return;
    }
    var finished;
    finished, done, k, q := Proceed(rt, Finish(cx.queue), n, block, source, program, kernel, cx.device,
                                    plan, p, base, L0, done, k, q);
  }

  /** Steps 1 to 6 of cl_run_kernel and its clFinish, up to the cleanup
      label: the run of its plan, stopped by the first fatal failure. */
  method Pipeline<U>(rt: Runtime, cx: ContextHandles, kd: KernelDesc, bufs: seq<BufferDesc>,
                     bind: Binder<U>, userData: U, ghost plan: seq<Call>, ghost p: nat)
    returns (deviceBufs: array?<Ptr>, block: Ptr, source: Ptr, program: Ptr, kernel: Ptr, going: bool,
             ghost done: seq<Event>, ghost k: nat, ghost q: nat)
    requires rt.Valid() && |rt.trace| == p && PlanOf(plan, Invocation(cx, kd, bufs, bind, userData), p)
    modifies rt
    ensures deviceBufs != null ==> fresh(deviceBufs)
    ensures Progress(rt, block, source, program, kernel, plan, p, |bufs|, cx.device, old(rt.trace), old(rt.live),
                     going, done, k, q)
    ensures HandleArray(deviceBufs, p, |bufs|, Ran(done))
    ensures going ==> k == |plan|
  {
    deviceBufs, block, source, program, kernel, going, done, k, q := Prepare(rt, cx, kd, bufs, bind, userData, plan, p);
    if !going {
      return;
    }
    going, done, k, q := CreateBuffers(rt, cx.context, bufs, deviceBufs, block, source, program, kernel, cx.device,
                                       plan, p, old(rt.trace), old(rt.live), done, k, q);
    if !going {
      return;
    }
    going, done, k, q := LaunchAndCollect(rt, cx, kd, bufs, bind, userData, deviceBufs, block, source, program, kernel,
                                          plan, p, old(rt.trace), old(rt.live), done, k, q);
  }

  /** The whole log and the verdict of a run, from the events of its plan. */
  lemma EngineOfRun<U>(inv: Invocation<U>, p: nat, ok: nat -> bool, done: seq<Event>)
    requires Execute(Plan(inv, p), p, ok) == done
    ensures EngineTrace(inv, p, ok)
            == done + (if Stopped(done) then BuildLogAt(p, inv.cx.device, Ran(done)) else [])
               + Releases(Held(p, |inv.bufs|, Ran(done)))
    ensures EngineSucceeds(inv, p, ok) <==> !Stopped(done)
  {
    BuildLogOfRun(inv, p, ok);
  }

  /**
   * cl_run_kernel: calloc the handle array, load, build and create the
   * kernel, create the buffers (uploading readable host data), let the
   * binder set the arguments, enqueue the kernel with the sizes of a
   * well-formed description, read back the output buffers and wait for
   * the queue; any failure jumps to the cleanup
   * label, which releases everything the run holds.  The log gets the
   * run's calls, the build log if the build failed, and the releases; the
   * result is 0 exactly when no call failed fatally, and the live
   * resources are those of before.
   */
  method RunKernel<U>(rt: Runtime, ctx: CLContext, kd: KernelDesc, bufs: seq<BufferDesc>,
                      bind: Binder<U>, userData: U) returns (ret: int)
    requires rt.Valid() && ctx.Ready(rt) && WellFormed(kd)
    modifies rt
    ensures rt.Valid()
    ensures var inv := Invocation(old(ctx.Handles()), kd, bufs, bind, userData);
            rt.trace == old(rt.trace) + EngineTrace(inv, old(|rt.trace|), rt.ok)
            && ret == (if EngineSucceeds(inv, old(|rt.trace|), rt.ok) then 0 else -1)
    ensures rt.live == old(rt.live)
  {
    ghost var p, L0 := |rt.trace|, rt.live;
    var cx := ctx.Handles();
    ghost var inv := Invocation(cx, kd, bufs, bind, userData);
    PlanShape(inv, p);
    ghost var plan := Plan(inv, p);
    var deviceBufs, block, source, program, kernel, going, done, k, q
      := Pipeline(rt, cx, kd, bufs, bind, userData, plan, p);
    ret := -1;
    if going {
      EndRun(rt, plan, p, old(rt.trace), done, k, q);
      ret := 0;
    }
    EngineOfRun(inv, p, rt.ok, done);
    HeldDisjoint(L0, p, |bufs|, Ran(done));
    ghost var X := if Stopped(done) then BuildLogAt(p, cx.device, Ran(done)) else [];
    assert rt.trace == old(rt.trace) + done + X;
    Assoc(old(rt.trace), done, X);
    Assoc(old(rt.trace), done + X, Releases(Held(p, |bufs|, Ran(done))));
    ghost var R := Releases(Held(p, |bufs|, Ran(done)));
    ghost var T := EngineTrace(inv, p, rt.ok);
    assert T == done + X + R;
    Teardown(rt, deviceBufs, |bufs|, block, source, program, kernel, p, Ran(done));
  }
}
