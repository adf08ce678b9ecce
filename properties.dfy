/**
 * What cl_run_kernel and add_vectors promise, stated over the runs the
 * model defines: when the engine succeeds, when the binder is called and
 * what its veto stops, which buffers are created and read back and how,
 * what the cleanup label gives back, when the build log is shown, and
 * that add_vectors runs cl_cleanup exactly once after a cl_init that
 * succeeded.
 */
module Properties {
  import opened OpenCL
  import opened RunCL
  import opened VectorAdd

  // ---------------------------------------------------------------------
  // Runs of a plan
  // ---------------------------------------------------------------------

  /** The events of a run: event i is the plan's call i, issued at p + i,
      only the last can be a fatal failure, and a run that was not stopped
      issued the whole plan. */
  lemma RunFacts(plan: seq<Call>, p: nat, ok: nat -> bool)
    ensures var F := Execute(plan, p, ok);
            && (plan != [] ==> F != [])
            && (forall i | 0 <= i < |F| :: F[i] == EventAt(plan[i], p + i, ok))
            && (forall i | 0 <= i < |F| - 1 :: !Fatal(F[i]))
            && (!Stopped(F) ==> |F| == |plan|)
  {
    ExecuteIsPrefix(plan, p, ok);
    ExecuteRunsToFailure(plan, p, ok);
  }

  /** A call whose failure is acted on ends the run when it fails, and it
      went through exactly when the run got past it. */
  lemma RanPast(plan: seq<Call>, p: nat, ok: nat -> bool, k: nat)
    requires k < |plan| && !plan[k].Finish? && !plan[k].ReleaseDevice?
    ensures var F := Execute(plan, p, ok);
            && (k < |F| ==> F[k].Issued? && (!F[k].success ==> |F| == k + 1))
            && (Ran(F) > k <==> k < |F| && F[k].success)
  {
    var F := Execute(plan, p, ok);
    RunFacts(plan, p, ok);
    if k < |F| && F[k].success && Stopped(F) {
      assert k != |F| - 1;
    }
  }

  /** A run reaches call k exactly when every call before it went through,
      provided none of them is one whose failure is ignored. */
  lemma Reaches(plan: seq<Call>, p: nat, ok: nat -> bool, k: nat)
    requires k < |plan|
    requires forall j | 0 <= j < k :: !plan[j].Finish? && !plan[j].ReleaseDevice?
    ensures var F := Execute(plan, p, ok);
            k < |F| <==> k <= |F| && forall j | 0 <= j < k :: F[j].Issued? && F[j].success
  {
    var F := Execute(plan, p, ok);
    RunFacts(plan, p, ok);
    if k < |F| {
      forall j | 0 <= j < k
        ensures F[j].Issued? && F[j].success
      {
        assert !Fatal(F[j]);
      }
    }
  }

  /** What is known of the plan of a run: where each call sits and what
      each kind of call is. */
  ghost predicate PlanFacts<U>(plan: seq<Call>, inv: Invocation<U>, p: nat)
  {
    PlanOf(plan, inv, p) && forall i | 0 <= i < |plan| :: KindAt(plan, |inv.bufs|, i)
  }

  lemma PlanFactsHold<U>(inv: Invocation<U>, p: nat)
    ensures PlanFacts(Plan(inv, p), inv, p)
  {
    PlanShape(inv, p);
    PlanKinds(inv, p);
  }

  // ---------------------------------------------------------------------
  // The verdict of cl_run_kernel
  // ---------------------------------------------------------------------

  /** cl_run_kernel returns 0 exactly when no call of its plan fails in a
      way the code acts on (a failed clFinish is ignored). */
  lemma SucceedsIffNoFatalCall<U>(inv: Invocation<U>, p: nat, ok: nat -> bool)
    ensures EngineSucceeds(inv, p, ok)
            <==> forall i | 0 <= i < |Plan(inv, p)| :: !Fatal(EventAt(Plan(inv, p)[i], p + i, ok))
  {
    ExecuteSucceedsIff(Plan(inv, p), p, ok);
  }

  /** The last call issued is the clFinish on the queue. */
  predicate EndsWithFinish(F: seq<Event>, queue: Handle)
  {
    F != [] && F[|F| - 1].Issued? && F[|F| - 1].call == Finish(queue)
  }

  /** A run succeeds exactly when its last call is the clFinish on the
      queue, that is when it got to the end of the pipeline. */
  lemma SucceedsIffFinished<U>(inv: Invocation<U>, p: nat, ok: nat -> bool)
    ensures EngineSucceeds(inv, p, ok) <==> EndsWithFinish(Forward(inv, p, ok), inv.cx.queue)
  {
    PlanFactsHold(inv, p);
    FinishedOf(Plan(inv, p), inv, p, ok);
  }

  lemma FinishedOf<U>(plan: seq<Call>, inv: Invocation<U>, p: nat, ok: nat -> bool)
    requires PlanFacts(plan, inv, p)
    ensures !Stopped(Execute(plan, p, ok)) <==> EndsWithFinish(Execute(plan, p, ok), inv.cx.queue)
  {
    var F, n := Execute(plan, p, ok), |inv.bufs|;
    RunFacts(plan, p, ok);
    assert plan[|plan| - 1] == plan[SETUP_CALLS + n + 2..][|plan| - 1 - (SETUP_CALLS + n + 2)];
    assert KindAt(plan, n, |F| - 1);
  }

  // ---------------------------------------------------------------------
  // Buffers, binder and launch
  // ---------------------------------------------------------------------

  /** Buffer i is created by call SETUP_CALLS + i, with its upload
      decision, and a creation that fails is the last call of the run. */
  predicate BuffersInOrder(F: seq<Event>, context: Handle, bufs: seq<BufferDesc>, p: nat, ok: nat -> bool)
  {
    forall i | 0 <= i < |bufs| && SETUP_CALLS + i < |F| ::
      && F[SETUP_CALLS + i] == EventAt(BufferCall(context, bufs[i]), p + SETUP_CALLS + i, ok)
      && (!F[SETUP_CALLS + i].success ==> |F| == SETUP_CALLS + i + 1)
  }

  /** The buffers are created in descriptor order and the first creation
      that fails ends the run there. */
  lemma BuffersCreatedInOrder<U>(inv: Invocation<U>, p: nat, ok: nat -> bool)
    ensures BuffersInOrder(Forward(inv, p, ok), inv.cx.context, inv.bufs, p, ok)
  {
    PlanShape(inv, p);
    BuffersOf(Plan(inv, p), inv.cx.context, inv.bufs, p, ok);
  }

  lemma BuffersOf(plan: seq<Call>, context: Handle, bufs: seq<BufferDesc>, p: nat, ok: nat -> bool)
    requires BuffersAt(plan, context, bufs)
    ensures BuffersInOrder(Execute(plan, p, ok), context, bufs, p, ok)
  {
    var F := Execute(plan, p, ok);
    RunFacts(plan, p, ok);
    forall i | 0 <= i < |bufs| && SETUP_CALLS + i < |F|
      ensures F[SETUP_CALLS + i] == EventAt(BufferCall(context, bufs[i]), p + SETUP_CALLS + i, ok)
      ensures !F[SETUP_CALLS + i].success ==> |F| == SETUP_CALLS + i + 1
    {
      assert plan[SETUP_CALLS + i] == BufferCall(context, bufs[i]);
      RanPast(plan, p, ok, SETUP_CALLS + i);
    }
  }

  /** The binder's call is the only one, at position b, and it is reached
      exactly when every call before it went through. */
  predicate BinderOnce(F: seq<Event>, b: nat)
  {
    && (forall i | 0 <= i < |F| :: F[i].Issued? && (F[i].call.BindArgs? <==> i == b))
    && (b < |F| <==> b <= |F| && forall j | 0 <= j < b :: F[j].Issued? && F[j].success)
  }

  /** The binder is called at most once, right after the buffers, and it
      is reached exactly when every set-up call and every buffer creation
      went through. */
  lemma BinderCalledOnce<U>(inv: Invocation<U>, p: nat, ok: nat -> bool)
    ensures BinderOnce(Forward(inv, p, ok), SETUP_CALLS + |inv.bufs|)
  {
    PlanFactsHold(inv, p);
    BinderOnceOf(Plan(inv, p), inv, p, ok);
  }

  lemma BinderOnceOf<U>(plan: seq<Call>, inv: Invocation<U>, p: nat, ok: nat -> bool)
    requires PlanFacts(plan, inv, p)
    ensures BinderOnce(Execute(plan, p, ok), SETUP_CALLS + |inv.bufs|)
  {
    var F, n := Execute(plan, p, ok), |inv.bufs|;
    RunFacts(plan, p, ok);
    forall i | 0 <= i < |F|
      ensures F[i].Issued? && (F[i].call.BindArgs? <==> i == SETUP_CALLS + n)
    {
      assert KindAt(plan, n, i);
    }
    forall j | 0 <= j < SETUP_CALLS + n
      ensures !plan[j].Finish? && !plan[j].ReleaseDevice?
    {
      assert KindAt(plan, n, j);
    }
    Reaches(plan, p, ok, SETUP_CALLS + n);
  }

  /** The binder's call, when reached, hands it the kernel and the n
      device buffers that the earlier calls created, in order. */
  predicate BinderGetsCreated(F: seq<Event>, n: nat, p: nat, verdict: int, ok: nat -> bool)
  {
    SETUP_CALLS + n < |F| ==>
      && F[SETUP_CALLS + n] == EventAt(BindArgs(Handle(p + 4), DeviceBuffers(p, n), verdict), p + SETUP_CALLS + n, ok)
      && F[4].Issued? && ReplyOf(F[4]) == Created(Handle(p + 4))
      && forall i | 0 <= i < n ::
           F[SETUP_CALLS + i].Issued? && ReplyOf(F[SETUP_CALLS + i]) == Created(DeviceBuffers(p, n)[i])
  }

  /** The binder is handed the kernel and the device buffers that the
      earlier calls created, in descriptor order; its verdict is what it
      returns for them and the caller's data. */
  lemma BinderArguments<U>(inv: Invocation<U>, p: nat, ok: nat -> bool)
    ensures BinderGetsCreated(Forward(inv, p, ok), |inv.bufs|, p, Verdict(inv, p), ok)
    ensures Verdict(inv, p) == inv.bind(Handle(p + 4), DeviceBuffers(p, |inv.bufs|), |inv.bufs|, inv.userData)
  {
    PlanShape(inv, p);
    ArgumentsOf(Plan(inv, p), inv.cx.context, inv.bufs, Verdict(inv, p), p, ok);
  }

  lemma ArgumentsOf(plan: seq<Call>, context: Handle, bufs: seq<BufferDesc>, verdict: int, p: nat, ok: nat -> bool)
    requires SETUP_CALLS + |bufs| < |plan| && plan[4].CreateKernel?
    requires plan[SETUP_CALLS + |bufs|] == BindArgs(Handle(p + 4), DeviceBuffers(p, |bufs|), verdict)
    requires BuffersAt(plan, context, bufs)
    ensures BinderGetsCreated(Execute(plan, p, ok), |bufs|, p, verdict, ok)
  {
    var F, n := Execute(plan, p, ok), |bufs|;
    RunFacts(plan, p, ok);
    if SETUP_CALLS + n < |F| {
      assert !Fatal(F[4]);
      BufferReplies(plan, context, bufs, p, ok);
    }
  }

  /** Once the run is past the buffer loop, buffer i's creation returned
      the i-th device buffer. */
  lemma BufferReplies(plan: seq<Call>, context: Handle, bufs: seq<BufferDesc>, p: nat, ok: nat -> bool)
    requires BuffersAt(plan, context, bufs)
    requires SETUP_CALLS + |bufs| < |Execute(plan, p, ok)|
    ensures var F := Execute(plan, p, ok);
            forall i | 0 <= i < |bufs| ::
              F[SETUP_CALLS + i].Issued? && ReplyOf(F[SETUP_CALLS + i]) == Created(DeviceBuffers(p, |bufs|)[i])
  {
    var F := Execute(plan, p, ok);
    RunFacts(plan, p, ok);
    forall i | 0 <= i < |bufs|
      ensures F[SETUP_CALLS + i].Issued? && ReplyOf(F[SETUP_CALLS + i]) == Created(DeviceBuffers(p, |bufs|)[i])
    {
      assert plan[SETUP_CALLS + i] == BufferCall(context, bufs[i]);
      assert !Fatal(F[SETUP_CALLS + i]);
    }
  }

  /** A non-zero verdict stops the run at the binder's call, before any
      launch, read or clFinish; once the binder is reached, the kernel is
      enqueued right after it exactly when the verdict is 0. */
  predicate VetoStops(F: seq<Event>, b: nat, verdict: int)
  {
    && (verdict != 0 ==>
          && Stopped(F)
          && forall i | 0 <= i < |F| ::
               F[i].Issued? && !F[i].call.EnqueueKernel? && !F[i].call.EnqueueRead? && !F[i].call.Finish?)
    && (b < |F| ==> (b + 1 < |F| <==> verdict == 0))
    && (b + 1 < |F| ==> F[b + 1].Issued? && F[b + 1].call.EnqueueKernel?)
  }

  /** A binder that answers non-zero makes cl_run_kernel fail without
      enqueueing the kernel, reading anything back or reaching clFinish. */
  lemma VetoStopsLaunch<U>(inv: Invocation<U>, p: nat, ok: nat -> bool)
    ensures VetoStops(Forward(inv, p, ok), SETUP_CALLS + |inv.bufs|, Verdict(inv, p))
    ensures Verdict(inv, p) != 0 ==> !EngineSucceeds(inv, p, ok)
  {
    PlanFactsHold(inv, p);
    VetoOf(Plan(inv, p), |inv.bufs|, Handle(p + 4), DeviceBuffers(p, |inv.bufs|), Verdict(inv, p), p, ok);
  }

  lemma VetoOf(plan: seq<Call>, n: nat, kernel: Handle, hs: seq<Handle>, verdict: int, p: nat, ok: nat -> bool)
    requires SETUP_CALLS + n < |plan| && plan[SETUP_CALLS + n] == BindArgs(kernel, hs, verdict)
    requires forall i | 0 <= i < |plan| :: KindAt(plan, n, i)
    ensures VetoStops(Execute(plan, p, ok), SETUP_CALLS + n, verdict)
  {
    var F, b := Execute(plan, p, ok), SETUP_CALLS + n;
    RunFacts(plan, p, ok);
    RanPast(plan, p, ok, b);
    assert KindAt(plan, n, |plan| - 1);
    if b + 1 < |F| {
      assert KindAt(plan, n, b + 1);
    }
    if verdict != 0 {
      forall i | 0 <= i < |F|
        ensures F[i].Issued? && !F[i].call.EnqueueKernel? && !F[i].call.EnqueueRead? && !F[i].call.Finish?
      {
        assert KindAt(plan, n, i);
      }
    }
  }

  // ---------------------------------------------------------------------
  // Read-backs
  // ---------------------------------------------------------------------

  /** The read-back stage from descriptor i on reads back exactly the
      buffers that are copied back: each one once, whole, into its host
      memory, blocking only for the last descriptor. */
  lemma {:induction false} ReadBacksExact(queue: Handle, bufs: seq<BufferDesc>, p: nat, i: nat)
    ensures var R := ReadBacks(queue, bufs, p, i);
            && (forall k | i <= k < |bufs| && ReadsBack(bufs[k]) :: ReadAt(queue, bufs, p, k) in R)
            && (forall c | c in R ::
                  exists k | i <= k < |bufs| && ReadsBack(bufs[k]) :: c == ReadAt(queue, bufs, p, k))
            && (forall c | c in R ::
                  && c.EnqueueRead? && c.queue == queue
                  && (c.blocking <==> c.buffer == BufferHandle(p, |bufs| - 1)))
    decreases |bufs| - i
  {
    if i < |bufs| {
      ReadBacksExact(queue, bufs, p, i + 1);
    }
  }

  /** The reads of the read-back stage go to the buffers in descriptor
      order, so none is read twice. */
  lemma ReadBacksOrdered(queue: Handle, bufs: seq<BufferDesc>, p: nat)
    ensures var R := ReadBacks(queue, bufs, p, 0);
            forall j, k | 0 <= j < k < |R| ::
              R[j].EnqueueRead? && R[k].EnqueueRead? && R[j].buffer.id < R[k].buffer.id
  {
    forall j, k | 0 <= j < k < |ReadBacks(queue, bufs, p, 0)|
      ensures var R := ReadBacks(queue, bufs, p, 0);
              R[j].EnqueueRead? && R[k].EnqueueRead? && R[j].buffer.id < R[k].buffer.id
    {
      ReadBeforeRead(queue, bufs, p, 0, j, k);
    }
  }

  /** Read j of the stage from descriptor i on reads a buffer of that
      descriptor or a later one. */
  lemma {:induction false} ReadFrom(queue: Handle, bufs: seq<BufferDesc>, p: nat, i: nat, j: nat)
    requires j < |ReadBacks(queue, bufs, p, i)|
    ensures ReadBacks(queue, bufs, p, i)[j].EnqueueRead?
    ensures ReadBacks(queue, bufs, p, i)[j].buffer.id >= p + SETUP_CALLS + i
    decreases |bufs| - i
  {
    var R, R' := ReadBacks(queue, bufs, p, i), ReadBacks(queue, bufs, p, i + 1);
    if ReadsBack(bufs[i]) {
      assert R == [ReadAt(queue, bufs, p, i)] + R';
      if j > 0 {
        ReadFrom(queue, bufs, p, i + 1, j - 1);
      }
    } else {
      assert R == R';
      ReadFrom(queue, bufs, p, i + 1, j);
    }
  }

  /** An earlier read of the stage reads an earlier buffer. */
  lemma {:induction false} ReadBeforeRead(queue: Handle, bufs: seq<BufferDesc>, p: nat, i: nat, j: nat, k: nat)
    requires j < k < |ReadBacks(queue, bufs, p, i)|
    ensures ReadBacks(queue, bufs, p, i)[j].EnqueueRead? && ReadBacks(queue, bufs, p, i)[k].EnqueueRead?
    ensures ReadBacks(queue, bufs, p, i)[j].buffer.id < ReadBacks(queue, bufs, p, i)[k].buffer.id
    decreases |bufs| - i
  {
    var R, R' := ReadBacks(queue, bufs, p, i), ReadBacks(queue, bufs, p, i + 1);
    if ReadsBack(bufs[i]) {
      assert R == [ReadAt(queue, bufs, p, i)] + R';
      if j > 0 {
        ReadBeforeRead(queue, bufs, p, i + 1, j - 1, k - 1);
      } else {
        ReadFrom(queue, bufs, p, i + 1, k - 1);
      }
    } else {
      assert R == R';
      ReadBeforeRead(queue, bufs, p, i + 1, j, k);
    }
  }

  /** After the kernel launch, the run issues the calls of the read-back
      stage in order. */
  predicate ReadsFollowLaunch(F: seq<Event>, R: seq<Call>, b: nat, p: nat, ok: nat -> bool)
  {
    forall j | 0 <= j < |R| && b + 2 + j < |F| :: F[b + 2 + j] == EventAt(R[j], p + b + 2 + j, ok)
  }

  /** Right after the launch, cl_run_kernel issues the read-backs of the
      read-back stage, and nothing else, in order. */
  lemma ReadsAfterLaunch<U>(inv: Invocation<U>, p: nat, ok: nat -> bool)
    ensures ReadsFollowLaunch(Forward(inv, p, ok), ReadBacks(inv.cx.queue, inv.bufs, p, 0),
                              SETUP_CALLS + |inv.bufs|, p, ok)
  {
    PlanShape(inv, p);
    ReadsOf(Plan(inv, p), ReadBacks(inv.cx.queue, inv.bufs, p, 0), inv.cx.queue, SETUP_CALLS + |inv.bufs|, p, ok);
  }

  lemma ReadsOf(plan: seq<Call>, R: seq<Call>, queue: Handle, b: nat, p: nat, ok: nat -> bool)
    requires b + 2 <= |plan| && plan[b + 2..] == R + [Finish(queue)]
    ensures ReadsFollowLaunch(Execute(plan, p, ok), R, b, p, ok)
  {
    var F := Execute(plan, p, ok);
    RunFacts(plan, p, ok);
    forall j | 0 <= j < |R| && b + 2 + j < |F|
      ensures F[b + 2 + j] == EventAt(R[j], p + b + 2 + j, ok)
    {
      assert plan[b + 2 + j] == plan[b + 2..][j];
    }
  }

  // ---------------------------------------------------------------------
  // The cleanup label and the build log
  // ---------------------------------------------------------------------

  /** The handles the cleanup label gives back are exactly those created
      by calls of the run that went through. */
  predicate HeldIsCreated(F: seq<Event>, H: seq<Handle>, p: nat)
  {
    && (forall k | 0 <= k < |F| :: F[k].Issued? && (ReplyOf(F[k]).Created? ==> ReplyOf(F[k]).h in H))
    && (forall h | h in H :: p <= h.id < p + |F| && F[h.id - p].Issued? && ReplyOf(F[h.id - p]) == Created(h))
  }

  /** cl_run_kernel's cleanup label releases every buffer, the handle
      array, the kernel, the program and the source that were created,
      and nothing else. */
  lemma TeardownReleasesCreated<U>(inv: Invocation<U>, p: nat, ok: nat -> bool)
    ensures var F := Forward(inv, p, ok);
            HeldIsCreated(F, Held(p, |inv.bufs|, Ran(F)), p)
  {
    PlanFactsHold(inv, p);
    CreatesOf(Plan(inv, p), inv.cx, inv.kd, |inv.bufs|, p);
    var F := Forward(inv, p, ok);
    HeldMembers(p, |inv.bufs|, Ran(F));
    HeldOf(Plan(inv, p), |inv.bufs|, p, ok, Held(p, |inv.bufs|, Ran(F)));
  }

  /** The calls of a plan that create something are the set-up calls but
      the build, and the n buffer creations. */
  predicate CreatesFirst(plan: seq<Call>, n: nat)
  {
    forall k | 0 <= k < |plan| :: ResourceOf(plan[k]).Some? <==> k < SETUP_CALLS + n && k != 3
  }

  lemma CreatesOf(plan: seq<Call>, cx: ContextHandles, kd: KernelDesc, n: nat, p: nat)
    requires SetupAt(plan, cx, kd, n, p) && forall i | 0 <= i < |plan| :: KindAt(plan, n, i)
    ensures CreatesFirst(plan, n)
  {
    forall k | 0 <= k < |plan|
      ensures ResourceOf(plan[k]).Some? <==> k < SETUP_CALLS + n && k != 3
    {
      assert KindAt(plan, n, k);
    }
  }

  lemma HeldOf(plan: seq<Call>, n: nat, p: nat, ok: nat -> bool, H: seq<Handle>)
    requires CreatesFirst(plan, n)
    requires var c := Ran(Execute(plan, p, ok));
             forall h :: h in H <==> p <= h.id < p + c && h.id < p + SETUP_CALLS + n && h.id != p + 3
    ensures HeldIsCreated(Execute(plan, p, ok), H, p)
  {
    CreatedIsHeld(plan, n, p, ok, H);
    HeldWasCreated(plan, n, p, ok, H);
  }

  lemma CreatedIsHeld(plan: seq<Call>, n: nat, p: nat, ok: nat -> bool, H: seq<Handle>)
    requires CreatesFirst(plan, n)
    requires var c := Ran(Execute(plan, p, ok));
             forall h :: h in H <==> p <= h.id < p + c && h.id < p + SETUP_CALLS + n && h.id != p + 3
    ensures var F := Execute(plan, p, ok);
            forall k | 0 <= k < |F| :: F[k].Issued? && (ReplyOf(F[k]).Created? ==> ReplyOf(F[k]).h in H)
  {
    RunFacts(plan, p, ok);
  }

  lemma HeldWasCreated(plan: seq<Call>, n: nat, p: nat, ok: nat -> bool, H: seq<Handle>)
    requires CreatesFirst(plan, n)
    requires var c := Ran(Execute(plan, p, ok));
             forall h :: h in H <==> p <= h.id < p + c && h.id < p + SETUP_CALLS + n && h.id != p + 3
    ensures var F := Execute(plan, p, ok);
            forall h | h in H :: p <= h.id < p + |F| && F[h.id - p].Issued? && ReplyOf(F[h.id - p]) == Created(h)
  {
    var F := Execute(plan, p, ok);
    RunFacts(plan, p, ok);
    forall h | h in H
      ensures p <= h.id < p + |F| && F[h.id - p].Issued? && ReplyOf(F[h.id - p]) == Created(h)
    {
      assert !Fatal(F[h.id - p]);
    }
  }

  /** Membership in the list the cleanup label releases, for every handle. */
  lemma HeldMembers(p: nat, n: nat, c: nat)
    ensures forall h :: h in Held(p, n, c) <==> p <= h.id < p + c && h.id < p + SETUP_CALLS + n && h.id != p + 3
  {
    forall h
      ensures h in Held(p, n, c) <==> p <= h.id < p + c && h.id < p + SETUP_CALLS + n && h.id != p + 3
    {
      InHeld(p, n, c, h);
    }
  }

  /** Membership in the list the cleanup label releases, by handle id. */
  lemma InHeld(p: nat, n: nat, c: nat, h: Handle)
    ensures h in Held(p, n, c) <==> p <= h.id < p + c && h.id < p + SETUP_CALLS + n && h.id != p + 3
  {
    var m := BuffersMade(n, c);
    HeldParts(p, n, c);
    HeldIds(p, n, c, h);
    SpanIds(p + SETUP_CALLS, p + SETUP_CALLS + m, h);
    DescAt(p, 0, m);
    if h in Span(p + SETUP_CALLS, p + SETUP_CALLS + m) {
      assert Desc(p, 0, m)[m - 1 - (h.id - p - SETUP_CALLS)] == h;
    }
  }

  /** The cleanup label releases each handle once: the device buffers
      first, last to first, then the rest. */
  lemma HeldOnce(p: nat, n: nat, c: nat)
    ensures var H, m := Held(p, n, c), BuffersMade(n, c);
            && m <= |H|
            && (forall j | 0 <= j < m :: H[j] == BufferHandle(p, m - 1 - j))
            && (forall j | m <= j < |H| :: H[j].id < p + SETUP_CALLS)
            && (forall j, k | 0 <= j < k < |H| :: H[j] != H[k])
  {
    var m := BuffersMade(n, c);
    HeldParts(p, n, c);
    DescAt(p, 0, m);
  }

  /** A run stops at the build exactly when the build fails. */
  lemma BuildFailedOf<U>(plan: seq<Call>, inv: Invocation<U>, p: nat, ok: nat -> bool)
    requires PlanFacts(plan, inv, p)
    ensures var F := Execute(plan, p, ok);
            Stopped(F) && Ran(F) == 3 <==> 3 < |F| && F[3].Issued? && !F[3].success
  {
    RunFacts(plan, p, ok);
    assert KindAt(plan, |inv.bufs|, 3);
    RanPast(plan, p, ok, 3);
  }

  /** cl_run_kernel surfaces a build log exactly when the build fails, and
      then the one of the program it built for the context's device. */
  lemma BuildLogIffBuildFailed<U>(inv: Invocation<U>, p: nat, ok: nat -> bool)
    ensures var F := Forward(inv, p, ok);
            && (BuildLog(F) != [] <==> 3 < |F| && F[3].Issued? && !F[3].success)
            && (BuildLog(F) == [] || BuildLog(F) == [BuildLogShown(Handle(p + 2), inv.cx.device)])
  {
    BuildLogOfRun(inv, p, ok);
    PlanFactsHold(inv, p);
    BuildFailedOf(Plan(inv, p), inv, p, ok);
  }

  // ---------------------------------------------------------------------
  // add_vectors and cl_cleanup
  // ---------------------------------------------------------------------

  /** An event that releases a device: the end of cl_cleanup. */
  predicate ReleasesDevice(e: Event)
  {
    e.Issued? && e.call.ReleaseDevice?
  }

  predicate KeepsDevice(t: seq<Event>)
  {
    forall i | 0 <= i < |t| :: !ReleasesDevice(t[i])
  }

  lemma KeepsDeviceAppend(a: seq<Event>, b: seq<Event>)
    requires KeepsDevice(a) && KeepsDevice(b)
    ensures KeepsDevice(a + b)
  {
    forall i | 0 <= i < |a + b|
      ensures !ReleasesDevice((a + b)[i])
    {
      if i >= |a| {
        assert (a + b)[i] == b[i - |a|];
      }
    }
  }

  /** cl_run_kernel never releases a device. */
  lemma EngineKeepsDevice<U>(inv: Invocation<U>, p: nat, ok: nat -> bool)
    ensures KeepsDevice(EngineTrace(inv, p, ok))
  {
    var F := Forward(inv, p, ok);
    PlanKinds(inv, p);
    RunKeepsDevice(Plan(inv, p), |inv.bufs|, p, ok);
    TeardownKeepsDevice(F, Releases(Held(p, |inv.bufs|, Ran(F))));
  }

  lemma RunKeepsDevice(plan: seq<Call>, n: nat, p: nat, ok: nat -> bool)
    requires forall i | 0 <= i < |plan| :: KindAt(plan, n, i)
    ensures KeepsDevice(Execute(plan, p, ok))
  {
    var F := Execute(plan, p, ok);
    RunFacts(plan, p, ok);
    forall i | 0 <= i < |F|
      ensures !ReleasesDevice(F[i])
    {
      assert KindAt(plan, n, i);
    }
  }

  /** The build log and the releases of the cleanup label release no device. */
  lemma TeardownKeepsDevice(F: seq<Event>, R: seq<Event>)
    requires KeepsDevice(F) && forall i | 0 <= i < |R| :: R[i].Released?
    ensures KeepsDevice(F + BuildLog(F) + R)
  {
    KeepsDeviceAppend(F, BuildLog(F));
    KeepsDeviceAppend(F + BuildLog(F), R);
  }

  /** A log that releases no device followed by cl_cleanup releases the
      device once, as its last event, and ends with cl_cleanup. */
  lemma ThenCleanup(G: seq<Event>, cx: ContextHandles, q: nat, ok: nat -> bool)
    requires KeepsDevice(G)
    ensures var t := G + CleanupTrace(cx, q, ok);
            && (forall i | 0 <= i < |t| :: ReleasesDevice(t[i]) <==> i == |t| - 1)
            && |t| >= 3 && t[|t| - 3..] == CleanupTrace(cx, q, ok)
  {
    var t := G + CleanupTrace(cx, q, ok);
    assert t[|t| - 3..] == CleanupTrace(cx, q, ok);
    forall i | 0 <= i < |G|
      ensures t[i] == G[i]
    {
    }
  }

  /** After a successful cl_init, whatever the engine run did, add_vectors
      ends with cl_cleanup, which releases the device as its last event. */
  lemma AfterRunCleansOnce(E: seq<Event>, succeeded: bool, n: int32, p: nat, ok: nat -> bool)
    requires KeepsDevice(E)
    ensures var t := AfterRun(E, succeeded, n, p, ok);
            && (forall i | 0 <= i < |t| :: ReleasesDevice(t[i]) <==> i == |t| - 1)
            && |t| >= 3 && t[|t| - 3..] == CleanupTrace(InitHandles(p), p + 4 + |t| - 3, ok)
  {
    var C := if succeeded then CheckTrace(n, p + 4 + |E|, ok) else [];
    var G := GpuPart(E, succeeded, n, p + 4, ok);
    assert G == E + C;
    KeepsDeviceAppend(E, C);
    ThenCleanup(G, InitHandles(p), p + 4 + |G|, ok);
  }

  /** What follows a successful cl_init releases the device once, at its end. */
  lemma AfterInitCleansOnce(job: Job, p: nat, ok: nat -> bool)
    ensures var A := AfterInit(job, p, ok);
            && (forall i | 0 <= i < |A| :: ReleasesDevice(A[i]) <==> i == |A| - 1)
            && |A| >= 3 && A[|A| - 3..] == CleanupTrace(InitHandles(p), p + 4 + |A| - 3, ok)
  {
    var inv := InvocationAt(job, p);
    EngineKeepsDevice(inv, p + 4, ok);
    AfterRunCleansOnce(EngineTrace(inv, p + 4, ok), EngineSucceeds(inv, p + 4, ok), job.n, p, ok);
  }

  /** cl_init releases no device, and issues its four calls when it succeeds. */
  lemma InitKeepsDevice(p: nat, ok: nat -> bool)
    ensures KeepsDevice(InitTrace(p, ok))
    ensures InitSucceeds(p, ok) ==> |InitTrace(p, ok)| == 4
  {
  }

  /** The log t of add_vectors past its argument checks, from log position
      p: when cl_init succeeded, the device is released by the last event
      and by no other, which ends the cl_cleanup of the context cx; when it
      failed, no device is released at all. */
  predicate CleansUpOnce(t: seq<Event>, initSucceeded: bool, cx: ContextHandles, p: nat, ok: nat -> bool)
  {
    && (forall i | 0 <= i < |t| :: ReleasesDevice(t[i]) <==> initSucceeded && i == |t| - 1)
    && (initSucceeded ==> |t| >= 3 && t[|t| - 3..] == CleanupTrace(cx, p + |t| - 3, ok))
  }

  /** add_vectors past its argument checks runs cl_cleanup exactly when
      cl_init succeeded, once, and as its last step. */
  lemma CleanupOnce(job: Job, p: nat, ok: nat -> bool)
    ensures CleansUpOnce(SessionTrace(job, p, ok), InitSucceeds(p, ok), InitHandles(p), p, ok)
  {
    InitKeepsDevice(p, ok);
    AfterInitCleansOnce(job, p, ok);
    SessionEnd(InitTrace(p, ok), AfterInit(job, p, ok), InitSucceeds(p, ok), InitHandles(p), p, ok);
  }

  /** The cl_init events followed, when it succeeded, by a tail that
      releases the device only as its last event, by cl_cleanup. */
  lemma SessionEnd(I: seq<Event>, A: seq<Event>, succeeded: bool, cx: ContextHandles, p: nat, ok: nat -> bool)
    requires KeepsDevice(I) && (succeeded ==> |I| == 4)
    requires forall i | 0 <= i < |A| :: ReleasesDevice(A[i]) <==> i == |A| - 1
    requires |A| >= 3 && A[|A| - 3..] == CleanupTrace(cx, p + 4 + |A| - 3, ok)
    ensures CleansUpOnce(I + (if succeeded then A else []), succeeded, cx, p, ok)
  {
    var t := I + (if succeeded then A else []);
    if succeeded {
      assert t[|t| - 3..] == A[|A| - 3..];
      forall i | 0 <= i < |t|
        ensures ReleasesDevice(t[i]) <==> i == |t| - 1
      {
        if i >= 4 {
          assert t[i] == A[i - 4];
        }
      }
    } else {
      assert t == I;
    }
  }
}
