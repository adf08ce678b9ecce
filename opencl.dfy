/**
 * The world outside the engine: the OpenCL runtime and the C allocator.
 *
 * None of these calls can be seen, so each one is modelled by what it may do:
 * a call either fails or succeeds, and a call that creates something returns
 * a handle nobody has seen before.  Which calls fail is decided by a fault
 * oracle `ok`, consulted with the position the call takes in the runtime's
 * event log; every proof below holds for every oracle.
 */
module OpenCL {
  import opened Wrappers

  /** Identity of an object or a memory block handed out by the runtime.
      The object created by the event at log position p is Handle(p). */
  datatype Handle = Handle(id: nat)

  /** A C pointer or OpenCL handle that may be NULL (None). */
  type Ptr = Option<Handle>

  newtype int32 = x: int | -0x8000_0000 <= x < 0x8000_0000

  const INT32_MAX: int := 0x7fff_ffff

  /** size_t on a 64-bit host. */
  const SIZE_T_MODULUS: int := 0x1_0000_0000_0000_0000
  type SizeT = x: int | 0 <= x < SIZE_T_MODULUS

  /** The C conversion `(size_t)x` of an int: reduction modulo 2^64. */
  function ToSizeT(x: int): (s: SizeT)
    ensures 0 <= x < SIZE_T_MODULUS ==> s == x
  {
    x % SIZE_T_MODULUS
  }

  /** cl_int status codes; CL_SUCCESS is zero, every error code is non-zero. */
  type ClInt = bv32
  const CL_SUCCESS: ClInt := 0

  /** cl_mem_flags bit-field values, as defined by the OpenCL headers. */
  type MemFlags = bv64
  const CL_MEM_READ_WRITE: MemFlags := 1
  const CL_MEM_WRITE_ONLY: MemFlags := 2
  const CL_MEM_READ_ONLY: MemFlags := 4
  const CL_MEM_COPY_HOST_PTR: MemFlags := 32

  /** sizeof(cl_mem) on a 64-bit host. */
  const SIZEOF_CL_MEM: SizeT := 8

  datatype DeviceType = Gpu

  /** One value handed to clSetKernelArg. */
  datatype KernelArg = MemArg(buffer: Handle) | IntArg(value: int32)

  /** Everything the code asks of the outside world, with its arguments. */
  datatype Call =
    | Malloc(bytes: SizeT)
    | Calloc(count: SizeT, elemSize: SizeT)
    | LoadSource(path: string)
    | GetPlatformIds
    | GetDeviceIds(platform: Handle, deviceType: DeviceType)
    | CreateContext(device: Handle)
    | CreateCommandQueue(context: Handle, device: Handle)
    | ReleaseDevice(device: Handle)
    | CreateProgram(context: Handle, source: Handle)
    | BuildProgram(program: Handle, device: Handle)
    | CreateKernel(program: Handle, name: string)
    | CreateBuffer(context: Handle, flags: MemFlags, size: SizeT, hostPtr: Ptr)
      /** The caller's argument-binding callback, with the handles it was
          given and the value it returned. */
    | BindArgs(kernel: Handle, bufs: seq<Handle>, verdict: int)
    | EnqueueKernel(queue: Handle, kernel: Handle, workDim: nat,
                    globalSize: seq<SizeT>, localSize: Option<seq<SizeT>>)
    | EnqueueRead(queue: Handle, buffer: Handle, blocking: bool, size: SizeT, dst: Handle)
    | Finish(queue: Handle)

  /** The kinds of thing a successful call creates. */
  datatype Resource =
    | HostMemory | SourceText | PlatformId | DeviceId | ContextObj | QueueObj
    | ProgramObj | KernelObj | MemObj

  function ResourceOf(c: Call): Option<Resource>
  {
    match c
    case Malloc(_) => Some(HostMemory)
    case Calloc(_, _) => Some(HostMemory)
    case LoadSource(_) => Some(SourceText)
    case GetPlatformIds => Some(PlatformId)
    case GetDeviceIds(_, _) => Some(DeviceId)
    case CreateContext(_) => Some(ContextObj)
    case CreateCommandQueue(_, _) => Some(QueueObj)
    case CreateProgram(_, _) => Some(ProgramObj)
    case CreateKernel(_, _) => Some(KernelObj)
    case CreateBuffer(_, _, _, _) => Some(MemObj)
    case _ => None
  }

  /** Resources the caller must give back.  Platform ids and root device ids
      are not reference counted in OpenCL, so they are not owned. */
  predicate Owned(c: Call)
  {
    ResourceOf(c).Some? && ResourceOf(c).value != PlatformId && ResourceOf(c).value != DeviceId
  }

  /** Whether call `c`, issued at log position `p`, succeeds: the binder's
      verdict is its own return value (zero for success); every other call
      succeeds exactly when the fault oracle says so. */
  function Succeeds(c: Call, p: nat, ok: nat -> bool): bool
  {
    if c.BindArgs? then c.verdict == 0 else ok(p)
  }

  datatype Event =
      /** Call `call` was issued at log position `at` and succeeded or not. */
    | Issued(call: Call, at: nat, success: bool)
      /** The build diagnostics of a program were surfaced to the user. */
    | BuildLogShown(program: Handle, device: Handle)
      /** clRelease* of an owned object, or free() of a host block. */
    | Released(h: Handle)

  function EventAt(c: Call, p: nat, ok: nat -> bool): Event
  {
    Issued(c, p, Succeeds(c, p, ok))
  }

  /** What a call returns. */
  datatype Reply = Created(h: Handle) | Done | Failed

  /** The reply of an issued call: a successful creation returns the handle
      named after its log position, so no two creations share a handle. */
  function ReplyOf(e: Event): (r: Reply)
    requires e.Issued?
    ensures r.Failed? <==> !e.success
    ensures r.Created? <==> e.success && ResourceOf(e.call).Some?
    ensures r.Created? ==> r.h == Handle(e.at)
  {
    if !e.success then Failed
    else if ResourceOf(e.call).Some? then Created(Handle(e.at))
    else Done
  }

  /** A failure the caller acts on.  The status of clFinish and of
      clReleaseDevice is ignored by the code, so their failures are not. */
  predicate Fatal(e: Event)
  {
    e.Issued? && !e.success && !e.call.Finish? && !e.call.ReleaseDevice?
  }

  /** Running a plan of calls under goto-on-error discipline: the calls are
      issued in order, each at the next log position, and the first fatal
      failure ends the run. */
  function Execute(plan: seq<Call>, p: nat, ok: nat -> bool): (es: seq<Event>)
    ensures |es| <= |plan|
    decreases |plan|
  {
    if plan == [] then []
    else
      var e := EventAt(plan[0], p, ok);
      if Fatal(e) then [e] else [e] + Execute(plan[1..], p + 1, ok)
  }

  /** A run that was ended by a fatal failure. */
  predicate Stopped(es: seq<Event>)
  {
    es != [] && Fatal(es[|es| - 1])
  }

  /** Issuing call i of a plan whose first i calls went through: a fatal
      failure ends the run there, anything else moves on to call i + 1. */
  lemma ExecuteAt(plan: seq<Call>, i: nat, p: nat, ok: nat -> bool)
    requires i < |plan|
    ensures Execute(plan[i..], p, ok)
            == var e := EventAt(plan[i], p, ok);
               if Fatal(e) then [e] else [e] + Execute(plan[i + 1..], p + 1, ok)
  {
    assert plan[i..][1..] == plan[i + 1..];
  }

  /** One more call of a plan: when the run so far is `done` followed by
      the rest of the plan from call i, issuing call i either ends the run
      (a fatal failure) or adds its event and moves on to call i + 1. */
  lemma Advance(plan: seq<Call>, p: nat, ok: nat -> bool, i: nat, done: seq<Event>)
    requires i < |plan|
    requires Execute(plan, p, ok) == done + Execute(plan[i..], p + i, ok)
    ensures var e := EventAt(plan[i], p + i, ok);
            Execute(plan, p, ok)
            == if Fatal(e) then done + [e] else (done + [e]) + Execute(plan[i + 1..], p + i + 1, ok)
  {
    ExecuteAt(plan, i, p + i, ok);
  }

  /** The first call of a run decides whether it goes on. */
  lemma ExecuteCons(c: Call, rest: seq<Call>, p: nat, ok: nat -> bool)
    ensures Execute([c] + rest, p, ok)
            == var e := EventAt(c, p, ok);
               if Fatal(e) then [e] else [e] + Execute(rest, p + 1, ok)
  {
    assert ([c] + rest)[1..] == rest;
  }

  /** ExecuteCons with the position of the rest given explicitly. */
  lemma ExecuteStep(c: Call, rest: seq<Call>, p: nat, q: nat, ok: nat -> bool)
    requires q == p + 1
    ensures Execute([c] + rest, p, ok)
            == if Fatal(EventAt(c, p, ok)) then [EventAt(c, p, ok)] else [EventAt(c, p, ok)] + Execute(rest, q, ok)
  {
    ExecuteCons(c, rest, p, ok);
  }

  /** A run of four calls, case by case. */
  lemma Execute4(c0: Call, c1: Call, c2: Call, c3: Call, p: nat, ok: nat -> bool)
    ensures var e0, e1, e2, e3 := EventAt(c0, p, ok), EventAt(c1, p + 1, ok), EventAt(c2, p + 2, ok), EventAt(c3, p + 3, ok);
            Execute([c0, c1, c2, c3], p, ok)
            == if Fatal(e0) then [e0]
               else if Fatal(e1) then [e0, e1]
               else if Fatal(e2) then [e0, e1, e2]
               else [e0, e1, e2, e3]
  {
    assert [c0, c1, c2, c3] == [c0] + [c1, c2, c3];
    assert [c1, c2, c3] == [c1] + [c2, c3];
    assert [c2, c3] == [c2] + [c3];
    assert [c3] == [c3] + [];
    ExecuteStep(c0, [c1, c2, c3], p, p + 1, ok);
    ExecuteStep(c1, [c2, c3], p + 1, p + 2, ok);
    ExecuteStep(c2, [c3], p + 2, p + 3, ok);
    ExecuteStep(c3, [], p + 3, p + 4, ok);
  }

  lemma SplitHead<T>(A: seq<T>, B: seq<T>)
    requires A != []
    ensures A == [A[0]] + A[1..] && A + B == [A[0]] + (A[1..] + B)
  {
  }

  lemma Assoc<T>(a: seq<T>, b: seq<T>, c: seq<T>)
    ensures a + (b + c) == (a + b) + c
  {
  }

  /** The first step of running A + B is the first step of running A. */
  lemma ExecuteAppendHead(A: seq<Call>, B: seq<Call>, p: nat, ok: nat -> bool)
    requires A != []
    ensures Execute(A, p, ok)
            == if Fatal(EventAt(A[0], p, ok)) then [EventAt(A[0], p, ok)]
               else [EventAt(A[0], p, ok)] + Execute(A[1..], p + 1, ok)
    ensures Execute(A + B, p, ok)
            == if Fatal(EventAt(A[0], p, ok)) then [EventAt(A[0], p, ok)]
               else [EventAt(A[0], p, ok)] + Execute(A[1..] + B, p + 1, ok)
  {
    SplitHead(A, B);
    ExecuteCons(A[0], A[1..], p, ok);
    ExecuteCons(A[0], A[1..] + B, p, ok);
  }

  /** What is run after a prefix: nothing once it stopped, B otherwise. */
  function After(F: seq<Event>, B: seq<Call>, q: nat, ok: nat -> bool): seq<Event>
  {
    if Stopped(F) then [] else Execute(B, q, ok)
  }

  /** Running A then B is running A and, unless A was stopped, B right after it. */
  lemma {:induction false} ExecuteAppend(A: seq<Call>, B: seq<Call>, p: nat, ok: nat -> bool)
    ensures Execute(A + B, p, ok) == Execute(A, p, ok) + After(Execute(A, p, ok), B, p + |A|, ok)
    decreases |A|
  {
    if A == [] {
      assert A + B == B;
    } else {
      var e := EventAt(A[0], p, ok);
      ExecuteAppendHead(A, B, p, ok);
      if Fatal(e) {
        assert Stopped([e]);
      } else {
        var RA := Execute(A[1..], p + 1, ok);
        var tail := After(RA, B, p + |A|, ok);
        ExecuteAppend(A[1..], B, p + 1, ok);
        ConsStopped(e, RA);
        assert After([e] + RA, B, p + |A|, ok) == tail;
        Assoc([e], RA, tail);
      }
    }
  }

  /** A non-fatal event in front does not change whether a run stopped. */
  lemma ConsStopped(e: Event, es: seq<Event>)
    requires !Fatal(e)
    ensures Stopped([e] + es) == Stopped(es)
  {
    if es != [] {
      assert ([e] + es)[|es|] == es[|es| - 1];
    }
  }

  /** The run issues the calls of the plan in order, each at its own
      position: it is a prefix of the plan's events. */
  lemma {:induction false} ExecuteIsPrefix(plan: seq<Call>, p: nat, ok: nat -> bool)
    ensures forall i | 0 <= i < |Execute(plan, p, ok)| :: Execute(plan, p, ok)[i] == EventAt(plan[i], p + i, ok)
    decreases |plan|
  {
    if plan != [] {
      ExecuteIsPrefix(plan[1..], p + 1, ok);
      var E := Execute(plan, p, ok);
      forall i | 0 <= i < |E| ensures E[i] == EventAt(plan[i], p + i, ok) {
        if i > 0 {
          assert plan[1..][i - 1] == plan[i];
        }
      }
    }
  }

  /** Only the last event of a run can be a fatal failure, and a run that
      was not stopped issued the whole plan. */
  lemma {:induction false} ExecuteRunsToFailure(plan: seq<Call>, p: nat, ok: nat -> bool)
    ensures forall i | 0 <= i < |Execute(plan, p, ok)| - 1 :: !Fatal(Execute(plan, p, ok)[i])
    ensures !Stopped(Execute(plan, p, ok)) ==> |Execute(plan, p, ok)| == |plan|
    decreases |plan|
  {
    if plan != [] {
      var e := EventAt(plan[0], p, ok);
      if !Fatal(e) {
        var R := Execute(plan[1..], p + 1, ok);
        ExecuteRunsToFailure(plan[1..], p + 1, ok);
        assert Execute(plan, p, ok) == [e] + R;
        assert R != [] ==> ([e] + R)[|[e] + R| - 1] == R[|R| - 1];
      }
    }
  }

  /** A run succeeds, that is ends without a fatal failure, exactly when
      no call of its plan fails fatally. */
  lemma ExecuteSucceedsIff(plan: seq<Call>, p: nat, ok: nat -> bool)
    ensures !Stopped(Execute(plan, p, ok)) <==> forall i | 0 <= i < |plan| :: !Fatal(EventAt(plan[i], p + i, ok))
  {
    var E := Execute(plan, p, ok);
    ExecuteIsPrefix(plan, p, ok);
    ExecuteRunsToFailure(plan, p, ok);
    if !Stopped(E) {
      forall i | 0 <= i < |plan| ensures !Fatal(EventAt(plan[i], p + i, ok)) {
        assert E[i] == EventAt(plan[i], p + i, ok);
      }
    } else {
      assert Fatal(EventAt(plan[|E| - 1], p + (|E| - 1), ok));
    }
  }

  /** How many calls of a run went through: all of them, or all but the
      last when a fatal failure stopped it. */
  function Ran(es: seq<Event>): (c: nat)
    ensures c <= |es|
    ensures !Stopped(es) ==> c == |es|
  {
    if Stopped(es) then |es| - 1 else |es|
  }

  /** The release events of the given handles, in order. */
  function Releases(hs: seq<Handle>): (es: seq<Event>)
    ensures |es| == |hs|
    ensures forall i | 0 <= i < |hs| :: es[i] == Released(hs[i])
  {
    seq(|hs|, i requires 0 <= i < |hs| => Released(hs[i]))
  }

  /**
   * The runtime: the log of everything issued to it, in order, and the set
   * of owned resources that are still allocated.
   */
  class Runtime {
    var trace: seq<Event>
    var live: set<Handle>
    /** The fault oracle: the call at log position p succeeds iff ok(p). */
    const ok: nat -> bool
    /** What clSetKernelArg answers for a kernel, an argument index and a value. */
    const argStatus: (Handle, nat, KernelArg) -> ClInt

    ghost predicate Valid()
      reads this
    {
      forall h | h in live :: h.id < |trace|
    }

    constructor (ok: nat -> bool, argStatus: (Handle, nat, KernelArg) -> ClInt)
      ensures Valid() && trace == [] && live == {}
      ensures this.ok == ok && this.argStatus == argStatus
    {
      trace := [];
      live := {};
      this.ok := ok;
      this.argStatus := argStatus;
    }

    /** Issue one call at the next log position.  A successful creation
        returns a handle that is not live, and an owned one becomes live. */
    method Issue(c: Call) returns (r: Reply)
      requires Valid()
      modifies this
      ensures Valid()
      ensures trace == old(trace) + [EventAt(c, old(|trace|), ok)]
      ensures r == ReplyOf(EventAt(c, old(|trace|), ok))
      ensures r.Failed? <==> !Succeeds(c, old(|trace|), ok)
      ensures !r.Failed? && ResourceOf(c).Some? ==> r == Created(Handle(old(|trace|)))
      ensures r.Created? ==> r.h !in old(live)
      ensures live == old(live) + (if r.Created? && Owned(c) then {r.h} else {})
    {
      var e := EventAt(c, |trace|, ok);
      r := ReplyOf(e);
      trace := trace + [e];
      if r.Created? && Owned(c) {
        live := live + {r.h};
      }
    }

    /** Give back an owned resource.  Only a live resource may be released. */
    method Release(h: Handle)
      requires Valid() && h in live
      modifies this
      ensures Valid()
      ensures trace == old(trace) + [Released(h)]
      ensures live == old(live) - {h}
    {
      trace := trace + [Released(h)];
      live := live - {h};
    }

    /** Surface the build log of a program (the text itself is not modelled). */
    method ShowBuildLog(program: Handle, device: Handle)
      requires Valid()
      modifies this
      ensures Valid()
      ensures trace == old(trace) + [BuildLogShown(program, device)]
      ensures live == old(live)
    {
      trace := trace + [BuildLogShown(program, device)];
    }
  }

  /**
   * A run of a plan under way: the log is `base` followed by the events
   * `done` of the plan's first k calls, none of which failed fatally, and
   * the next call goes to log position q.
   */
  ghost predicate Going(rt: Runtime, plan: seq<Call>, p: nat, base: seq<Event>, done: seq<Event>, k: nat, q: nat)
    reads rt
  {
    rt.Valid() && |base| == p && q == p + k && |done| == k && k <= |plan| && !Stopped(done)
    && rt.trace == base + done
    && Execute(plan, p, rt.ok) == done + Execute(plan[k..], q, rt.ok)
  }

  /** Issuing call k of a plan that is under way: a fatal failure ends the
      run of the plan there, anything else leaves it under way at k + 1. */
  method Step(rt: Runtime, c: Call, ghost plan: seq<Call>, ghost p: nat, ghost k: nat, ghost q: nat,
              ghost base: seq<Event>, ghost done: seq<Event>)
    returns (r: Reply, ghost done': seq<Event>, ghost k': nat, ghost q': nat)
    requires Going(rt, plan, p, base, done, k, q) && k < |plan| && c == plan[k]
    modifies rt
    ensures rt.Valid()
    ensures k' == k + 1 && q' == q + 1 && done' == done + [EventAt(c, q, rt.ok)]
    ensures r == ReplyOf(EventAt(c, q, rt.ok))
    ensures rt.live == old(rt.live) + (if r.Created? && Owned(c) then {r.h} else {})
    ensures Stopped(done') == Fatal(EventAt(c, q, rt.ok))
    ensures Ran(done') == if Stopped(done') then k else k'
    ensures done'[|done'| - 1].Issued? && done'[|done'| - 1].call == c
    ensures Stopped(done') ==> Execute(plan, p, rt.ok) == done' && rt.trace == base + done'
    ensures !Stopped(done') ==> Going(rt, plan, p, base, done', k', q')
  {
    r := rt.Issue(c);
    done', k', q' := done + [EventAt(c, q, rt.ok)], k + 1, q + 1;
    StepEvents(plan, p, rt.ok, k, done);
  }

  /** The events of a run under way, one call further on. */
  lemma StepEvents(plan: seq<Call>, p: nat, ok: nat -> bool, k: nat, done: seq<Event>)
    requires k < |plan| && |done| == k && !Stopped(done)
    requires Execute(plan, p, ok) == done + Execute(plan[k..], p + k, ok)
    ensures var e := EventAt(plan[k], p + k, ok);
            var done' := done + [e];
            && Stopped(done') == Fatal(e)
            && Ran(done') == (if Stopped(done') then k else k + 1)
            && (Stopped(done') ==> Execute(plan, p, ok) == done')
            && (!Stopped(done') ==> Execute(plan, p, ok) == done' + Execute(plan[k + 1..], p + k + 1, ok))
  {
    Advance(plan, p, ok, k, done);
  }

  /** The start of a run of a plan: nothing done, all of it to go. */
  lemma StartRun(rt: Runtime, plan: seq<Call>, p: nat)
    requires rt.Valid() && |rt.trace| == p
    ensures Going(rt, plan, p, rt.trace, [], 0, p)
  {
    assert plan[0..] == plan;
  }

  /** A plan whose every call went through has run to its end. */
  lemma EndRun(rt: Runtime, plan: seq<Call>, p: nat, base: seq<Event>, done: seq<Event>, k: nat, q: nat)
    requires Going(rt, plan, p, base, done, k, q) && k == |plan|
    ensures Execute(plan, p, rt.ok) == done
  {
    assert plan[k..] == [];
  }
}
