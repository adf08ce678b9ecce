# OpenCL host engine: a Dafny model

This project models the generic OpenCL host engine of the vector-addition exercise (`02-gyak/04-vector`):

- the device-context layer, `cl_init` and `cl_cleanup`;
- the task-agnostic kernel runner `cl_run_kernel`, with its helpers `buffer_needs_upload` and `print_build_log`;
- the vector-addition client built on them: `vector_create`, `vector_free`, the argument binder `vector_add_bind_args`, and `add_vectors`.

The OpenCL runtime and the C allocator cannot be seen from the engine. They are modelled by the class `OpenCL.Runtime` (`opencl.dfy`):

- `trace` is the log of what the engine and the vector code ask of the outside world: each call they issue and whether it succeeded, each call of `print_build_log`, and each release or `free`. The argument binder's own `clSetKernelArg` calls are not in it (see "## Left out").
- `live` is the set of owned objects and host blocks that are not released yet.
- `ok` is a fault oracle. The call at log position `p` succeeds exactly when `ok(p)`, and every proof holds for every oracle.
- `argStatus` is what `clSetKernelArg` answers.

A successful creating call returns `Handle(p)`, named after its log position, so no two creations ever share a handle. `Release` requires its handle to be live, so a double release or the release of something never created fails verification.

The engine is specified declaratively in `run_cl.dfy`:

- `Plan` is the list of calls of a run that goes all the way through: the handle array, the source, the program, the build, the kernel, one `clCreateBuffer` per descriptor, the binder, the launch, one read per read-back buffer, and `clFinish`.
- `Execute` is the goto-on-error discipline of the source. The calls are issued in order, and the first fatal failure ends the run.
- `EngineTrace` is what `cl_run_kernel` leaves in the log. It is the run, then the call of `print_build_log` if the build failed, then the releases of everything the run created, in the order of the cleanup label.

The imperative model (`RunCL.RunKernel` and its stage methods) updates the runtime step by step, as the C function does, and is proved to produce exactly `EngineTrace`, to return 0 exactly when the run was not stopped, and to leave `live` as it found it. `properties.dfy` proves what the header and the code promise about that specification.

Where the header's prose and the code differ, the model follows the code:

- A buffer is copied back when `read_back` is any non-zero value. The header says `read_back == 1` (`include/run_cl.h:39`, `src/run_cl.c:174`).
- A read blocks when it belongs to the last descriptor (`i == n_bufs - 1`), not when it is the last read issued. When the last descriptor is not read back, no read blocks.
- `clFinish` is issued unconditionally, not only when no buffer is read back, and its status is ignored.
- The engine also frees the handle array and the kernel source, besides the OpenCL objects that the header's step 6 lists.

## Model

| member | source | states |
|---|---|---|
| OpenCL.ToSizeT | 02-gyak/04-vector/src/run_cl.c:108 | The `(size_t)` conversion is the identity on every value that fits in 64 bits. |
| OpenCL.Runtime.Issue | 02-gyak/04-vector/src/run_cl.c:10-16 | Issuing a call appends exactly one event at the end of the log. The reply is a failure exactly when the oracle says so. A created handle was not live before, and only owned creations join `live`. |
| OpenCL.Runtime.Release | 02-gyak/04-vector/src/run_cl.c:199-208 | Releasing a live object logs the release and removes exactly that object from `live`. |
| OpenCL.Runtime.ShowBuildLog | 02-gyak/04-vector/src/run_cl.c:21-36 | The call of `print_build_log` appends one build-log event and leaves `live` unchanged. |
| OpenCL.Step | 02-gyak/04-vector/src/run_cl.c:10-16 | One call of a plan under way extends the run by its event. A fatal failure stops the run, and the log is then exactly the run. Otherwise the run continues with the next call. |
| OpenCL.StepEvents | 02-gyak/04-vector/src/run_cl.c:10-16 | In the specification, issuing call k either stops the run there, when the call fails fatally, or leaves the rest of the plan to run from k + 1. |
| OpenCL.ExecuteIsPrefix | 02-gyak/04-vector/src/run_cl.c:10-16 | Event i of a run is call i of the plan, issued at log position p + i. |
| OpenCL.ExecuteRunsToFailure | 02-gyak/04-vector/src/run_cl.c:10-16 | Only the last event of a run can be a fatal failure. A run that was not stopped issued the whole plan. |
| OpenCL.ExecuteSucceedsIff | 02-gyak/04-vector/src/run_cl.c:10-16 | A run is not stopped exactly when no call of its plan fails fatally. |
| OpenCL.ExecuteAppend | 02-gyak/04-vector/src/run_cl.c:10-16 | Running two plans back to back is running the first, then the second from where the first ended, unless the first stopped. |
| RunCL.CLContext.constructor | 02-gyak/04-vector/include/run_cl.h:12-17 | A fresh context whose four handles are not written yet (None stands for "not yet written": `add_vectors` declares `CLContext ctx;` uninitialised, and `cl_init` writes each field before it is read). |
| RunCL.InitIsRun | 02-gyak/04-vector/src/run_cl.c:53-77 | The log of `cl_init` is the stop-at-first-failure run of its four calls. When only the command queue fails, the context is released after the run. `cl_init` succeeds exactly when that run is not stopped. |
| RunCL.FindDevice | 02-gyak/04-vector/src/run_cl.c:58-63 | Looks up the platform and then its first GPU device, stopping at the first failure. A device is found exactly when both calls succeed, and it is then recorded in the context. Nothing becomes owned. |
| RunCL.Init | 02-gyak/04-vector/src/run_cl.c:53-77 | Logs exactly `InitTrace` and returns 0 exactly when all four calls succeed (-1 otherwise). On success the context is ready and owns exactly the new context and queue. On failure it owns nothing new. |
| RunCL.Cleanup | 02-gyak/04-vector/src/run_cl.c:82-87 | Releases the queue, then the context, then the device, whose status is ignored. Exactly the queue and the context leave `live`. |
| RunCL.BufferNeedsUpload | 02-gyak/04-vector/src/run_cl.c:43-48 | True exactly when there is host data and the flags include READ_ONLY or READ_WRITE. |
| RunCL.AllocFlags | 02-gyak/04-vector/src/run_cl.c:137-142 | COPY_HOST_PTR is set when the data is uploaded. Every other bit is the descriptor's own, and without an upload the flags are unchanged. |
| RunCL.HostPtrArg | 02-gyak/04-vector/src/run_cl.c:144-149 | `clCreateBuffer` receives a host pointer exactly when the data is uploaded, and it is then the descriptor's. |
| RunCL.ForwardStages | 02-gyak/04-vector/src/run_cl.c:107-195 | The run of the whole plan is set-up, buffers, bind and launch, read-backs and `clFinish`, each running only if no earlier stage stopped. |
| RunCL.AllocHandleArray | 02-gyak/04-vector/src/run_cl.c:107-112 | Step 1: `calloc` of n NULL handles. The array exists exactly when the call went through, and the engine's state afterwards is that of the plan's first call. |
| RunCL.LoadAndCreateProgram | 02-gyak/04-vector/src/run_cl.c:114-124 | Step 2: the source is loaded, then the program is created from it. The first failure stops the run. Each object is held exactly when its call went through. |
| RunCL.BuildKernel | 02-gyak/04-vector/src/run_cl.c:126-133 | Step 2: the build, then the kernel. A failed build stops the run after calling `print_build_log` for the program. A built program adds nothing to hold, and the kernel is held when created. |
| RunCL.CreateDeviceBuffer | 02-gyak/04-vector/src/run_cl.c:144-154 | One `clCreateBuffer` for one descriptor. It answers a failure (the run stops) or the buffer named after this call's log position. |
| RunCL.CreateBuffers | 02-gyak/04-vector/src/run_cl.c:135-155 | Step 3: the buffers are created in descriptor order, and each is stored in its slot of the handle array. The loop stops at the first failure, and the array holds exactly the buffers made. When all succeed, the run continues after the last buffer. |
| RunCL.Proceed | 02-gyak/04-vector/src/run_cl.c:158-170 | A call of the plan that creates nothing: it stops the run exactly when it fails fatally, and it changes nothing that is held. |
| RunCL.BindAndLaunch | 02-gyak/04-vector/src/run_cl.c:157-170 | Steps 4 and 5: the binder is called with the kernel and the device buffers in order, and a non-zero answer stops the run. Otherwise the kernel is enqueued, and a failure there stops the run. |
| RunCL.ReadBackBuffer | 02-gyak/04-vector/src/run_cl.c:174-190 | One iteration of step 6. A buffer that is not read back is skipped. Otherwise its read is issued, blocking exactly for the last descriptor, and a failure stops the run. |
| RunCL.ReadBack | 02-gyak/04-vector/src/run_cl.c:172-191 | Step 6: one read per read-back buffer, in descriptor order. When all succeed, only `clFinish` remains. |
| RunCL.ReleaseSlot | 02-gyak/04-vector/src/run_cl.c:201-203 | One cleanup-loop iteration: the buffer in slot i is released when it exists, and nothing else changes. |
| RunCL.ReleaseBuffers | 02-gyak/04-vector/src/run_cl.c:200-203 | The cleanup loop releases the buffers made, last to first, and exactly those leave `live`. |
| RunCL.ReleaseIfHeld | 02-gyak/04-vector/src/run_cl.c:205-208 | A non-NULL object or block is released. NULL releases nothing. |
| RunCL.TeardownSets | 02-gyak/04-vector/src/run_cl.c:199-208 | Every object the cleanup label releases is still live when its turn comes. Together they are exactly what the run holds. |
| RunCL.Teardown | 02-gyak/04-vector/src/run_cl.c:199-209 | The cleanup label logs exactly `Releases(Held(...))`: the buffers in reverse, the handle array, the kernel, the program and the source. Exactly those leave `live`. |
| RunCL.PlanShape | 02-gyak/04-vector/src/run_cl.c:107-195 | The plan is set-up, then the buffers, then the binder and launch, then the read-backs and `clFinish`. |
| RunCL.PlanKinds | 02-gyak/04-vector/src/run_cl.c:107-195 | Every call of the plan has the kind its position gives it. Only the final `clFinish` is a call whose failure is not fatal. |
| RunCL.BuildLogOfRun | 02-gyak/04-vector/src/run_cl.c:126-130 | `print_build_log` is called exactly when the run stopped at the build. |
| RunCL.HeldDisjoint | 02-gyak/04-vector/src/run_cl.c:199-209 | Releasing what the run created gives back exactly the objects that were live before it. |
| RunCL.Prepare | 02-gyak/04-vector/src/run_cl.c:107-133 | Steps 1 and 2 in order, ending in the engine state of the set-up part of the plan. |
| RunCL.LaunchAndCollect | 02-gyak/04-vector/src/run_cl.c:157-197 | Steps 4 to 6 and `clFinish`. When nothing fails fatally, the whole plan has run. |
| RunCL.Pipeline | 02-gyak/04-vector/src/run_cl.c:107-197 | All stages in order. The run is the plan up to its first fatal failure, and the locals and live objects are those of the calls that went through. |
| RunCL.EngineOfRun | 02-gyak/04-vector/src/run_cl.c:195-209 | The engine's log is its run, plus the call of `print_build_log` when stopped at the build, plus the releases of what was held. The engine succeeds exactly when the run did not stop. |
| RunCL.RunKernel | 02-gyak/04-vector/src/run_cl.c:92-210 | For a well-formed kernel description (`RunCL.WellFormed`: one to three dimensions, a global size per dimension, a local size per dimension or NULL), `cl_run_kernel` logs exactly `EngineTrace`. That log includes the binder's verdict on the created kernel, the created buffers, their number and the caller's data passed on unchanged. It returns 0 exactly when no call failed fatally (-1 otherwise). It leaves `live` as it was, so every resource it creates is released on every path. |
| VectorAdd.Vector.constructor | 02-gyak/04-vector/src/vector.c:13-19 | A vector is its storage, its two blocks and its length. |
| VectorAdd.Bytes | 02-gyak/04-vector/src/vector.c:88-90 | The byte count `(size_t)n * sizeof(float)` is 4n for every non-negative n. |
| VectorAdd.VectorCreate | 02-gyak/04-vector/src/vector.c:8-21 | Returns a vector exactly when the size is positive and both allocations succeed. Its storage then has that many zeros, and both blocks are held. When the storage `calloc` fails, the struct is freed again. |
| VectorAdd.VectorFree | 02-gyak/04-vector/src/vector.c:23-28 | NULL frees nothing. Otherwise the storage and then the struct are freed, and exactly those leave `live`. |
| VectorAdd.OrAllSuccess | 02-gyak/04-vector/src/vector.c:59-68 | OR-ing the statuses together gives CL_SUCCESS exactly when every status is CL_SUCCESS. |
| VectorAdd.VectorAddBindArgs | 02-gyak/04-vector/src/vector.c:53-69 | The binder returns 0 or -1. |
| VectorAdd.BindArgsSucceedsIff | 02-gyak/04-vector/src/vector.c:53-69 | The binder returns 0 exactly when all four `clSetKernelArg` calls succeed: a, b and out as buffers 0 to 2, and n as argument 3. |
| VectorAdd.AddKernelWellFormed | 02-gyak/04-vector/src/vector.c:97-103 | The kernel description of `add_vectors` is well-formed as the engine requires: one dimension, the rounded global size, and a work-group size of 256. |
| VectorAdd.GlobalSizeCovers | 02-gyak/04-vector/src/vector.c:93-95 | The global size is a multiple of 256, at least n, and less than n + 256. |
| VectorAdd.DescriptorRoles | 02-gyak/04-vector/src/vector.c:87-91 | Inputs a and b are uploaded and out is not. The only read-back is one blocking read of out's whole buffer, `(size_t)n * sizeof(float)` bytes. |
| VectorAdd.CheckResult | 02-gyak/04-vector/src/vector.c:117-129 | Validation: allocates the reference buffer, and returns 0 exactly when that succeeds and the result matches. |
| VectorAdd.RunOnGpu | 02-gyak/04-vector/src/vector.c:111-129 | The engine run, then validation only when it succeeded. Returns 0 exactly when both succeed, and leaves `live` unchanged. |
| VectorAdd.RunAndCleanup | 02-gyak/04-vector/src/vector.c:111-134 | After a successful `cl_init`: the run on the GPU, then `cl_cleanup` on every path. The context and queue are no longer live. |
| VectorAdd.RunAdd | 02-gyak/04-vector/src/vector.c:105-134 | For a job with a well-formed kernel description: `cl_init`, then run and clean up. Returns -1 with nothing to clean up when init fails. Returns 0 exactly when the session succeeds, and leaves `live` unchanged. |
| VectorAdd.AddVectors | 02-gyak/04-vector/src/vector.c:71-135 | A NULL argument or a size mismatch returns -1 and issues nothing. Otherwise the log is the session for the three storage blocks, and 0 is returned exactly when the session succeeds. `live` is left unchanged. |
| Properties.RunFacts | 02-gyak/04-vector/src/run_cl.c:10-16 | A non-empty plan issues at least one call. Event i is call i at position p + i. Only the last event can fail fatally. A run that was not stopped is complete. |
| Properties.RanPast | 02-gyak/04-vector/src/run_cl.c:10-16 | For a call k other than `clFinish` or `clReleaseDevice`: if it failed, it is the last call issued, and the run went past it exactly when it succeeded. |
| Properties.Reaches | 02-gyak/04-vector/src/run_cl.c:107-158 | Call k is issued exactly when every earlier call succeeded. |
| Properties.SucceedsIffNoFatalCall | 02-gyak/04-vector/include/run_cl.h:106 | `cl_run_kernel` returns 0 exactly when no call of its plan fails fatally. |
| Properties.SucceedsIffFinished | 02-gyak/04-vector/src/run_cl.c:193-197 | The engine succeeds exactly when its last call was `clFinish` on the context's queue. |
| Properties.BuffersCreatedInOrder | 02-gyak/04-vector/src/run_cl.c:136-155 | Device buffer i is created by the call at index 5+i of the run (after the five set-up calls), with descriptor i's flags, size and host pointer. A failed creation is the last call of the run. |
| Properties.BinderCalledOnce | 02-gyak/04-vector/include/run_cl.h:47-48 | The binder is called at most once, right after all buffers, and exactly when everything before it succeeded. |
| Properties.BinderArguments | 02-gyak/04-vector/include/run_cl.h:52-56 | When called, the binder gets the kernel that was created and the device buffers that were created, in descriptor order, with their number. |
| Properties.VetoStopsLaunch | 02-gyak/04-vector/include/run_cl.h:58 | A non-zero binder answer aborts the run before any launch, read or `clFinish`, and the engine then fails. A zero answer is always followed by the launch. |
| Properties.ReadBacksExact | 02-gyak/04-vector/src/run_cl.c:173-191 | There is one read per descriptor with non-zero `read_back` and host memory, and nothing else. Each read targets the queue, and it blocks exactly when it reads the last descriptor's buffer. |
| Properties.ReadBacksOrdered | 02-gyak/04-vector/src/run_cl.c:173 | Reads are issued in strictly increasing buffer order. |
| Properties.ReadsAfterLaunch | 02-gyak/04-vector/src/run_cl.c:163-191 | The read-backs come right after the launch, in that order. |
| Properties.TeardownReleasesCreated | 02-gyak/04-vector/src/run_cl.c:199-208 | The cleanup label releases every object the run created, and only objects the run created. |
| Properties.HeldOnce | 02-gyak/04-vector/src/run_cl.c:200-208 | Teardown releases the device buffers first, last to first, and then the rest. It never releases a handle twice. |
| Properties.BuildLogIffBuildFailed | 02-gyak/04-vector/src/run_cl.c:126-130 | `print_build_log` is called exactly when the build was issued and failed, and then for that program on the context's device. |
| Properties.EngineKeepsDevice | 02-gyak/04-vector/src/run_cl.c:92-210 | `cl_run_kernel` never releases the device. |
| Properties.AfterInitCleansOnce | 02-gyak/04-vector/src/vector.c:111-134 | After a successful init, the session releases the device exactly once, as the last event. The log ends with `cl_cleanup` of the handles that init created. |
| Properties.CleanupOnce | 02-gyak/04-vector/src/vector.c:105-134 | The device is released exactly once, as the last event, when `cl_init` succeeded, and never otherwise. Whenever init succeeded, the session ends with `cl_cleanup` of that context. |

## Left out

- Floating-point arithmetic. `add_vectors_seq` and `validate` (`src/vector.c:30-51`) are not modelled. Whether the GPU result matches the sequential reference is the `matches` parameter of `AddVectors`.
- Device execution and data movement. Vector elements are reals that the model never changes. A read-back is a logged call, and the bytes it copies into host memory are not modelled.
- Diagnostic output. The `fprintf`/`printf` messages of `CL_CHECK`, the engine and `add_vectors` are not modelled.
- Build log text. `print_build_log` is one `BuildLogShown` event. Its two `clGetProgramBuildInfo` queries, its `malloc` and the early return when that `malloc` fails are not modelled.
- `load_kernel_source`. `kernel_loader.c` is not part of this model. Loading is one call that fails or yields the source block, which the engine later frees, with `loader_err != 0` taken to mean that no source was returned.
- Which calls fail. This is decided by the fault oracle and by `argStatus` (for `clSetKernelArg`). Specific OpenCL error codes are not distinguished.
- Platform and device ids are not owned objects. They are never in `live`, and `clReleaseDevice` is a logged call whose status is ignored.
- Negative `n_bufs`. The descriptor count is the length of the descriptor sequence, so `calloc((size_t)n_bufs, ...)` with a negative count is not modelled.
- Concurrency. There is one calling thread, and the in-order queue is the order of the log.
- 64-bit host. `size_t` is 64 bits, and the `sizeof` values are fixed constants (`cl_mem` 8, `float` 4, `Vector` 16).
- RunCL.BindAndLaunch: the binder (`RunCL.Binder`) is a pure function of a copy of the device-buffer handles. In C it receives the engine's own mutable array, and the cleanup loop then releases whatever that array holds. The model cannot express a callback that overwrites a slot, so `Properties.TeardownReleasesCreated` and `Properties.HeldOnce` hold for callbacks that leave the array as they got it. The binder's own `clSetKernelArg` calls are not logged either: only its verdict is a call in the log, and the statuses it combines come from `argStatus`.
- VectorAdd.VectorAddBindArgs: with fewer than three buffers it returns -1, where the C function would read past the array. `add_vectors` always passes three.
- VectorAdd.RunAdd: it is stated for any `Job` (kernel, descriptors, binder and n) whose kernel description is well-formed. `AddVectors` supplies the one built by `add_vectors`.
- `main.c` and the `05-replace-missing` exercise are not part of this model.
