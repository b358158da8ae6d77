# OpenCL vector addition: error handling and clean-up

This project models the host side of the OpenCL "getting started" vector
addition program: `main()` in `main.c`, and the check-and-jump macros of
`errorchecking/check_opencl.h`.

`main()` does the following:

- It allocates and fills the input lists A and B.
- It reads the kernel source from `vector_add_kernel.cl`.
- It runs 17 forward steps, which are 16 OpenCL calls plus `free(source_str)`:
  - find a platform and a GPU device;
  - create a context, a command queue and three buffers;
  - write A and B;
  - create and build the program;
  - create the kernel and set its three arguments;
  - enqueue the kernel.
- It reads C back, then flushes and finishes the queue.
- It releases the OpenCL objects and frees the host memory.
- It returns the number of errors it saw.

Every OpenCL call of the forward steps except `clBuildProgram` is followed by the `CHECKRET` macro. A failed `clBuildProgram` is not counted: the program fetches the build log, counts only a failure of that fetch, and jumps. When a checked call fails, the macro counts an error and jumps forward. Most checks jump into one chain of 14 labels (lines 177-206), but three jump to a label outside it: the build-log fetch to `err_clGetProgramBuildInfo` (line 124), the read of C to `err_clEnqueueReadBuffer` (line 165) and `clFlush` to `err_clFlush` (line 174). The chain holds seven releases, run in order as control falls through. Several labels share a release: `err_clEnqueueNDRangeKernel` and `err_clSetKernelArg`, for instance, both stand before `clReleaseKernel`. The last three labels (`err_clCreateContext`, `err_clGetDeviceIDs`, `err_clGetPlatformIDs`) release nothing.

The model does not run OpenCL. Each external call (`malloc`, `fopen`, every `cl*` function) is one call site, and its outcome comes from a **fault script**: the set of call sites that fail. For every fault script, the model states and proves:

- which calls `main()` makes, in order (`fread` and the console output are not in this trace);
- what `main()` returns.

Modules:

- `CheckOpenCL` (`check_opencl.dfy`) covers the macros of `check_opencl.h`:
  - the locals that `DECLARE_CHECK` opens become a class `Scope`, with methods for `inc_CHECK_errors`, `CHECKRET_`, `CHECK_malloc` and the `CHECK_cl*` wrappers;
  - a jump is returned as a `Flow` value that names the label.
- `Ops` (`ops.dfy`) holds the reference definitions:
  - the call sites, the seven OpenCL objects and the fault script;
  - the list of forward steps, and the step where the forward pass stops;
  - the label chain and its release order;
  - the calls and error count of every part of `main()`, as functions of the fault script.
- `VectorAdd` (`main.dfy`) is `main()` itself, written imperatively:
  - the fill loop;
  - one method per group of checked calls;
  - the read back;
  - the release chain. It is entered at the position of the label a failing check returned, and the release after label n runs exactly when that position is at or before n. A failing release moves control to the label its check names (`ReleaseTarget`), which is proved to be the one right before the next release. A jump inside one part of `main()` (the read back, the build-log fetch) is a `break` out of a labeled block that ends where the C label stands;
  - the host-side shell.

  Every method is proved against the matching `Ops` function.
- `VectorAddProperties` (`properties.dfy`) proves what the error handling promises:
  - the count is the number of reported failures;
  - every created object is released exactly once, newest first, and nothing else is released;
  - A and B are each freed exactly once if they were allocated, and never otherwise; source_str is freed only once the program object exists; the kernel file is closed only when source_str was allocated;
  - failing releases only add errors;
  - which objects each early failure releases.

## Model

| member | source | states |
|---|---|---|
| CheckOpenCL.Bump | errorchecking/check_opencl.h:22-23 | inc_CHECK_errors adds one below 64 and stays within 0..64 |
| CheckOpenCL.BumpsSaturate | errorchecking/check_opencl.h:22-23 | after k reported failures the counter is min(n + k, 64): it saturates at 64 and never exceeds it |
| CheckOpenCL.Scope.Declare | errorchecking/check_opencl.h:17-20 | DECLARE_CHECK opens a scope whose error counter starts at 0 with no failure reported |
| CheckOpenCL.Scope.IncErrors | errorchecking/check_opencl.h:22-23 | one more failure is reported; the counter goes up by one only while below 64, so it stays the saturated count of failures |
| CheckOpenCL.Scope.CheckRet | errorchecking/check_opencl.h:35-41 | a zero status falls through with nothing counted; a non-zero status counts one failure and jumps to the exit label |
| CheckOpenCL.Scope.CheckMalloc | errorchecking/check_opencl.h:25-31 | malloc's result is kept in CHECK_malloc_tmp; a null result counts one failure and jumps to the label, any block falls through |
| CheckOpenCL.Scope.CheckCall | errorchecking/check_opencl.h:43-100 | every CHECK_cl* wrapper stores the call's status in CHECK_ret and then behaves as CHECKRET_ on it |
| Ops.CreatorIndexCreates | main.c:54-152 | each OpenCL object is created by exactly one forward step, the one that makes its creating call |
| Ops.FirstFailure | main.c:54-152 | the forward pass stops at the first failing step: every step before it succeeded, and the step it stops at failed unless the pass completed |
| Ops.ReleaseOrderReversesCreation | main.c:177-201 | the label chain releases the objects in the reverse of the order they are created |
| Ops.TargetIsBoundary | main.c:54-152 | the label each failing step jumps to stands between the objects created before that step, which are released after it, and those that are not, which are released before it |
| Ops.EntryIsCreationBoundary | main.c:177-207 | wherever the forward pass leaves, the release right after its entry label is of a created object and the release right before it is of one that was never created |
| Ops.CreatedFrom | main.c:177-207 | in a newest-first chain entered at a creation boundary, the objects created so far are exactly those released after the entry label |
| Ops.ForwardPassMeetsStop | main.c:54-176 | the step-by-step forward pass, resumed after any run of successful steps, leaves at the first failing step's label with exactly the calls and errors of the steps up to it |
| Ops.ForwardPassIsReference | main.c:54-176 | the forward pass from the start reaches the unwind at Entry with the calls and errors that the stop index determines |
| Ops.ReleaseTargetIsNext | main.c:177-201 | the label each release's check jumps to on failure is the one right after that release, so the next release still runs |
| Ops.ChainReleasesCreated | main.c:177-201 | the chain entered at a creation boundary makes, up to any label, exactly the release calls of the created objects |
| Ops.ChainCountsCreated | main.c:177-201 | the same chain counts one error for each failing release of a created object |
| Ops.UnwindReleasesCreated | main.c:177-207 | entered where the forward pass left, the whole chain releases exactly the created objects, newest first, and counts their failing releases |
| VectorAdd.FillInputs | main.c:33-36 | after the loop A[i] == i and B[i] == 1024 - i for every index |
| VectorAdd.ReadBack | main.c:154-176 | the read back allocates C; when it gets C, it reads C and frees it. It then flushes and finishes the queue, counting each failure and a missing C, exactly as the reference read back |
| VectorAdd.CheckStep | main.c:12-17 | a checked step makes its call; on failure it counts one error and jumps to the step's label, otherwise it falls through with nothing counted |
| VectorAdd.GetDevice | main.c:54-65 | clGetPlatformIDs and clGetDeviceIDs either jump out as the reference forward pass does or pass steps 0 and 1 |
| VectorAdd.CreateContextAndQueue | main.c:67-75 | clCreateContext and clCreateCommandQueue follow the reference forward pass through steps 2 and 3 |
| VectorAdd.CreateBuffers | main.c:77-89 | the three clCreateBuffer calls follow the reference forward pass through steps 4 to 6, each failure jumping to its own label |
| VectorAdd.WriteInputs | main.c:91-97 | the two clEnqueueWriteBuffer calls follow the reference forward pass through steps 7 and 8 |
| VectorAdd.BuildKernelProgram | main.c:99-126 | creates the program, frees source_str and builds. A failed build is not counted: it fetches the build log, counts only a failure of that fetch, and leaves for err_clBuildProgram. This matches the reference pass through steps 9 to 11 |
| VectorAdd.CreateKernelObject | main.c:128-130 | clCreateKernel follows the reference forward pass through step 12 |
| VectorAdd.SetKernelArgs | main.c:131-138 | the three clSetKernelArg calls follow the reference forward pass through steps 13 to 15, all jumping to one label |
| VectorAdd.Execute | main.c:140-152 | clEnqueueNDRangeKernel follows the reference forward pass through step 16 |
| VectorAdd.Create | main.c:54-176 | the whole forward pass returns the entry label, errors and calls of the reference forward pass |
| VectorAdd.ReleaseStep | main.c:177-201 | the release after a label runs exactly when control stands at that label, which holds exactly when the chain was entered at or above it; a failing release counts an error and moves control to the label its check names, and control then stands right before the next release either way |
| VectorAdd.Unwind | main.c:177-207 | the chain entered at the entry label, following each failing release to its check's label, makes every release from that label on, in order, and counts each failing one |
| VectorAdd.DevicePipeline | main.c:47-207 | the device part makes exactly the reference calls and counts exactly the reference errors for every fault script |
| VectorAdd.LoadAndRun | main.c:40-215 | a missing kernel file or source buffer counts one error. Otherwise the file is closed and the device part runs |
| VectorAdd.Run | main.c:23-221 | main() makes exactly the calls Calls(s) and returns Errors(s) for every fault script |
| VectorAddProperties.ErrorsCountReportedFailures | main.c:12-17 | the returned error count equals the number of failing calls among those main() made, leaving out the unreported ones: the mallocs of A and B and clBuildProgram |
| VectorAddProperties.ErrorsBounded | main.c:23-221 | main() never returns more than 10 |
| VectorAddProperties.ErrorsBoundReached | main.c:154-201 | 10 is reached: a complete forward pass with C, flush and finish failing and every release failing returns 10 |
| VectorAddProperties.CounterNeverSaturates | errorchecking/check_opencl.h:22-23 | the count main() returns stays below the header's ceiling of 64, so counting its failures through inc_CHECK_errors would give the same value |
| VectorAddProperties.ReleasesCreatedNewestFirst | main.c:177-207 | the unwind releases exactly the objects created, as a tail of the release order, newest first |
| VectorAddProperties.EachCreatedObjectReleasedOnce | main.c:177-207 | the unwind releases each object exactly once if it was created and never otherwise |
| VectorAddProperties.EachObjectReleasedOnceInRun | main.c:23-221 | over all of main(), each OpenCL object is released exactly once when the device part ran and created it, and never otherwise |
| VectorAddProperties.CreatorCalledAt | main.c:54-152 | a pass stopped at step k has made an object's creating call exactly when that call's step is not after k |
| VectorAddProperties.CreatedMeansCreatorSucceeded | main.c:68-130 | an object counts as created exactly when the trace holds its creating call and that call succeeded |
| VectorAddProperties.FreeSourceOnceInPrefix | main.c:99-108 | free(source_str) occurs once among the forward calls of any prefix that passes its step, and not at all in a shorter one |
| VectorAddProperties.PipelineFreesSource | main.c:100-108 | the device part frees source_str exactly once when the program object was created, and never otherwise |
| VectorAddProperties.PipelineFreesC | main.c:154-170 | the device part frees C exactly once when the forward pass completed and C was allocated, and never otherwise |
| VectorAddProperties.PipelineLeavesHost | main.c:47-207 | the device part neither frees A or B nor closes the kernel file |
| VectorAddProperties.ShellCount | main.c:30-218 | around the kernel-file part, the A and B allocations add one free(B), one free(A) and no other call besides the two mallocs |
| VectorAddProperties.KernelFileCount | main.c:40-45 | the kernel-file part adds one fclose to the device part's calls when the file and source_str were obtained, and otherwise makes no call besides the fopen and the malloc |
| VectorAddProperties.CountAround | main.c:30-218 | how often main() makes any call other than the mallocs of A, B and source_str and the fopen: none without A; without B, only free(A); otherwise free(A) and free(B) once each, and, once the host part is ready, the fclose and the device part's calls |
| VectorAddProperties.HostOnceAround | main.c:30-218 | around device calls that make no such call, A is freed once exactly when allocated, B once exactly when A and B were, and the file closed once exactly when the host part is ready |
| VectorAddProperties.OnceAround | main.c:40-215 | a call that only the device part makes, and makes once exactly when some condition holds, happens once in the whole run exactly when the host part is ready and that condition holds |
| VectorAddProperties.HostBuffersFreed | main.c:30-218 | A is freed exactly once if it was allocated and never otherwise; B exactly once if A and B were allocated; the kernel file is closed exactly once if source_str was allocated, and left open otherwise |
| VectorAddProperties.SourceAndResultFreed | main.c:99-170 | over all of main(), source_str is freed exactly once if the program object was created and never otherwise; C is freed exactly once if the forward pass completed and C was allocated, and never otherwise |
| VectorAddProperties.SamePipelineCalls | main.c:177-201 | two fault scripts that differ only in the releases make the same device-part calls |
| VectorAddProperties.ReleaseFailuresDoNotChangeCalls | main.c:177-201 | a failing release jumps only to the next label, so which releases fail does not change any call main() makes |
| VectorAddProperties.ReleaseFailuresOnlyAddErrors | main.c:177-201 | failing releases change the returned count only by the number of failing releases when the device part ran |
| VectorAddProperties.EarlyFailureReleasesNothing | main.c:54-70 | a failure at clGetPlatformIDs, clGetDeviceIDs or clCreateContext releases nothing |
| VectorAddProperties.QueueFailureReleasesContext | main.c:73-75 | a failure at clCreateCommandQueue releases only the context |
| VectorAddProperties.WriteOrProgramFailureReleasesBuffers | main.c:92-106 | a failing buffer write or program creation releases C, B, A, the queue and the context, in that order |
| VectorAddProperties.BuildFailureReleasesProgram | main.c:111-126 | a failed build releases the program, the three buffers, the queue and the context. It counts only a failed log fetch and failing releases |
| VectorAddProperties.LateFailureReleasesEverything | main.c:133-152 | a failure after the kernel was created releases the kernel and everything before it, newest first |
| VectorAddProperties.ReadBackAround | main.c:40-215 | main() makes none of the read-back calls itself: each one appears in the whole run exactly when the host part is ready and the device part makes it |
| VectorAddProperties.ResultAllocatedAfterCompletePass | main.c:156 | C is allocated exactly when the device part ran and every forward step succeeded |
| VectorAddProperties.ResultReadWhenAllocated | main.c:157-170 | C is read back exactly when the forward pass completed and C was allocated |
| VectorAddProperties.FlushAndFinishAfterCompletePass | main.c:172-176 | clFlush and clFinish run exactly when the device part ran and every forward step succeeded, whether or not C was allocated |

## Left out

- What the OpenCL calls do on the device is not modelled: platforms, devices, the kernel's arithmetic and C's contents. Each call is reduced to success or failure, as the fault script says.
- `fprintf`/`printf` output is not modelled. This covers the error messages, the build log text, the result printed by lines 162-163, and `clGetErrorString`. Output changes no state the program reads back.
- The contents `fread` reads and `MAX_SOURCE_SIZE` are not modelled, because only the call order depends on them. `fread` is not a call site of the model and does not appear in the trace. `fclose` and `free` are call sites that never fail, because the source does not check them.
- The build log buffer `val`, its size `val_size`, and `sizeused` are not modelled.
- `opencl_errors.h` (`clGetErrorString`) is not part of this model.
- Nothing is released for `device_id` and `platform_id`, and the model makes no call there. Lines 202-205 only mark the question in comments.
- The `errors` counter of `main()` is an unbounded integer. Proved bounds keep it at 10 or less, so the overflow of a C `int` cannot arise.
- `goto` is modelled as `break` out of labeled blocks and as `Flow`/`Exit` values returned by the phase methods. The unwind chain is entered by a label position (`Ops.Position`) rather than by jumping into the middle of a statement sequence.
- `CHECK_malloc_tmp` is a `Ptr` value (null or a block address). No memory is allocated behind it.
- `CheckOpenCL.Scope.Declare`: `CHECK_ret` and `CHECK_malloc_tmp` start uninitialised in C, so the constructor promises nothing about them.
- The header's macros are modelled on their own. `main.c` does not use them: it has its own `CHECKRET` macro, which counts without the ceiling of 64. `VectorAddProperties.CounterNeverSaturates` shows the difference never shows in this program.
- The leaks the program has are modelled as written, not fixed:
  - when `malloc` of `source_str` fails, `fp` is not closed;
  - `source_str` is freed only once `clCreateProgramWithSource` succeeds (line 108).
