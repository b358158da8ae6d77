/**
 main() of main.c with every external call replaced by its outcome in a
 fault script.  Each method returns the calls it made, in order, and the
 value of the errors counter it adds up.

 A jump inside one part of main() (the read back, the build-log fetch)
 is a `break` out of a labeled block that ends where the C label stands.
 A failing check that leaves for the release chain makes its method
 return `Goto(label)`; Unwind then enters the chain at that label's
 position and tracks, as a position in the chain, where control stands:
 the release after label n runs when control stands at n.  A failing
 release moves control to the position of the label its check names
 (ReleaseTarget), which is proved to be the one right before the next
 release, so every later release still runs.
 */
module VectorAdd {
  import opened CheckOpenCL
  import opened Ops

  const ListSize: int := 1024

  /** Lines 33-36: A counts up from 0, B counts down from ListSize. */
  method FillInputs(A: array<int>, B: array<int>)
    requires A.Length == ListSize && B.Length == ListSize && A != B
    modifies A, B
    ensures forall i :: 0 <= i < ListSize ==> A[i] == i && B[i] == ListSize - i
  {
    var i := 0;
    while i < ListSize
      invariant 0 <= i <= ListSize
      invariant forall j :: 0 <= j < i ==> A[j] == j && B[j] == ListSize - j
    {
      A[i] := i;
      B[i] := ListSize - i;
      i := i + 1;
    }
  }

  /**
   Lines 154-176: read C back when it can be allocated, then flush and
   finish the queue.  Every exit reaches err_clEnqueueNDRangeKernel, the
   label right after line 176.
   */
  method ReadBack(s: Script) returns (errors: int, calls: seq<Op>)
    ensures calls == ReadBackCalls(s) && errors == ReadBackErrors(s)
  {
    errors, calls := 0, [MallocC];
    if !Fails(s, MallocC) {
      label errEnqueueReadBuffer: {
        calls := calls + [EnqueueReadBuffer];
        if Fails(s, EnqueueReadBuffer) { errors := errors + 1; break errEnqueueReadBuffer; }
        // the print loop of lines 162-163 only writes to the console
      }
      calls := calls + [FreeC];
    } else {
      errors := errors + 1;
    }
    label errFlush: {
      calls := calls + [Flush];
      if Fails(s, Flush) { errors := errors + 1; break errFlush; }
    }
    calls := calls + [Finish];
    if Fails(s, Finish) { errors := errors + 1; }
  }

  /**
   Forward step n followed by the CHECKRET macro of lines 12-17: the call
   is made; when it fails, the error is counted and control jumps to lbl,
   the label the macro names; otherwise it falls through.
   */
  method CheckStep(s: Script, n: nat, op: Op, lbl: Label, errors0: int, calls0: seq<Op>)
    returns (flow: Flow<Label>, errors: int, calls: seq<Op>)
    requires n < StepCount && n != BuildStep && Step(n) == op && Target(op) == lbl
    ensures calls == calls0 + [op]
    ensures Fails(s, op) ==> flow == Goto(lbl) && errors == errors0 + 1
    ensures !Fails(s, op) ==> flow == FallThrough && errors == errors0
    ensures flow.Goto? ==> Exit(flow.target, errors, calls) == ForwardPass(s, n, errors0, calls0)
    ensures flow.FallThrough? ==> ForwardPass(s, n + 1, errors, calls) == ForwardPass(s, n, errors0, calls0)
  {
    errors, calls := errors0, calls0 + [op];
    if Fails(s, op) {
      errors := errors + 1;
      flow := Goto(lbl);
    } else {
      flow := FallThrough;
    }
  }

  /**
   Lines 54-65: obtain the platform and the GPU device.  A failing check
   jumps to the label it names; otherwise control falls through to line 67.
   */
  method GetDevice(s: Script, errors0: int, calls0: seq<Op>) returns (flow: Flow<Label>, errors: int, calls: seq<Op>)
    ensures flow.Goto? ==> Exit(flow.target, errors, calls) == ForwardPass(s, 0, errors0, calls0)
    ensures flow.FallThrough? ==> ForwardPass(s, 2, errors, calls) == ForwardPass(s, 0, errors0, calls0)
  {
    flow, errors, calls := CheckStep(s, 0, GetPlatformIDs, ErrGetPlatformIDs, errors0, calls0);
    if flow.Goto? { return; }
    flow, errors, calls := CheckStep(s, 1, GetDeviceIDs, ErrGetDeviceIDs, errors, calls);
  }

  /**
   Lines 67-75: create the context and the command queue.
   */
  method CreateContextAndQueue(s: Script, errors0: int, calls0: seq<Op>) returns (flow: Flow<Label>, errors: int, calls: seq<Op>)
    ensures flow.Goto? ==> Exit(flow.target, errors, calls) == ForwardPass(s, 2, errors0, calls0)
    ensures flow.FallThrough? ==> ForwardPass(s, 4, errors, calls) == ForwardPass(s, 2, errors0, calls0)
  {
    flow, errors, calls := CheckStep(s, 2, CreateContext, ErrCreateContext, errors0, calls0);
    if flow.Goto? { return; }
    flow, errors, calls := CheckStep(s, 3, CreateCommandQueue, ErrCreateCommandQueue, errors, calls);
  }

  /**
   Lines 77-89: create the buffers for A, B and C on the device.
   */
  method CreateBuffers(s: Script, errors0: int, calls0: seq<Op>) returns (flow: Flow<Label>, errors: int, calls: seq<Op>)
    ensures flow.Goto? ==> Exit(flow.target, errors, calls) == ForwardPass(s, 4, errors0, calls0)
    ensures flow.FallThrough? ==> ForwardPass(s, 7, errors, calls) == ForwardPass(s, 4, errors0, calls0)
  {
    flow, errors, calls := CheckStep(s, 4, CreateBufferA, ErrAMemObj, errors0, calls0);
    if flow.Goto? { return; }
    flow, errors, calls := CheckStep(s, 5, CreateBufferB, ErrBMemObj, errors, calls);
    if flow.Goto? { return; }
    flow, errors, calls := CheckStep(s, 6, CreateBufferC, ErrCMemObj, errors, calls);
  }

  /**
   Lines 91-97: write A and B into their device buffers.
   */
  method WriteInputs(s: Script, errors0: int, calls0: seq<Op>) returns (flow: Flow<Label>, errors: int, calls: seq<Op>)
    ensures flow.Goto? ==> Exit(flow.target, errors, calls) == ForwardPass(s, 7, errors0, calls0)
    ensures flow.FallThrough? ==> ForwardPass(s, 9, errors, calls) == ForwardPass(s, 7, errors0, calls0)
  {
    flow, errors, calls := CheckStep(s, 7, WriteBufferA, ErrEnqueueWriteBufferA, errors0, calls0);
    if flow.Goto? { return; }
    flow, errors, calls := CheckStep(s, 8, WriteBufferB, ErrEnqueueWriteBufferB, errors, calls);
  }

  /**
   Lines 99-126: create the program from the kernel source, free the
   source buffer and build the program.  A failed build fetches the build
   log and goes on to err_clBuildProgram.
   */
  method BuildKernelProgram(s: Script, errors0: int, calls0: seq<Op>) returns (flow: Flow<Label>, errors: int, calls: seq<Op>)
    ensures flow.Goto? ==> Exit(flow.target, errors, calls) == ForwardPass(s, 9, errors0, calls0)
    ensures flow.FallThrough? ==> ForwardPass(s, 12, errors, calls) == ForwardPass(s, 9, errors0, calls0)
  {
    flow, errors, calls := CheckStep(s, 9, CreateProgramWithSource, ErrCreateProgramWithSource, errors0, calls0);
    if flow.Goto? { return; }
    calls := calls + [FreeSource];
    calls := calls + [BuildProgram];
    if Fails(s, BuildProgram) {
      // the failed build itself is not counted; only a failure to fetch its log is
      label errGetProgramBuildInfo: {
        calls := calls + [GetProgramBuildInfo];
        if Fails(s, GetProgramBuildInfo) { errors := errors + 1; break errGetProgramBuildInfo; }
        // the build log is printed here
      }
      return Goto(ErrBuildProgram), errors, calls;
    }
    flow := FallThrough;
  }

  /**
   Lines 128-129: create the kernel from the built program.
   */
  method CreateKernelObject(s: Script, errors0: int, calls0: seq<Op>) returns (flow: Flow<Label>, errors: int, calls: seq<Op>)
    ensures flow.Goto? ==> Exit(flow.target, errors, calls) == ForwardPass(s, 12, errors0, calls0)
    ensures flow.FallThrough? ==> ForwardPass(s, 13, errors, calls) == ForwardPass(s, 12, errors0, calls0)
  {
    flow, errors, calls := CheckStep(s, 12, CreateKernel, ErrCreateKernel, errors0, calls0);
  }

  /**
   Lines 131-138: set the kernel's three arguments to the buffers; all
   three checks share one label.
   */
  method SetKernelArgs(s: Script, errors0: int, calls0: seq<Op>) returns (flow: Flow<Label>, errors: int, calls: seq<Op>)
    ensures flow.Goto? ==> Exit(flow.target, errors, calls) == ForwardPass(s, 13, errors0, calls0)
    ensures flow.FallThrough? ==> ForwardPass(s, 16, errors, calls) == ForwardPass(s, 13, errors0, calls0)
  {
    flow, errors, calls := CheckStep(s, 13, SetKernelArg0, ErrSetKernelArg, errors0, calls0);
    if flow.Goto? { return; }
    flow, errors, calls := CheckStep(s, 14, SetKernelArg1, ErrSetKernelArg, errors, calls);
    if flow.Goto? { return; }
    flow, errors, calls := CheckStep(s, 15, SetKernelArg2, ErrSetKernelArg, errors, calls);
  }

  /**
   Lines 140-152: enqueue the kernel over the whole list, in work groups
   of 64.
   */
  method Execute(s: Script, errors0: int, calls0: seq<Op>) returns (flow: Flow<Label>, errors: int, calls: seq<Op>)
    ensures flow.Goto? ==> Exit(flow.target, errors, calls) == ForwardPass(s, 16, errors0, calls0)
    ensures flow.FallThrough? ==> ForwardPass(s, 17, errors, calls) == ForwardPass(s, 16, errors0, calls0)
  {
    flow, errors, calls := CheckStep(s, 16, EnqueueNDRangeKernel, ErrEnqueueNDRangeKernel, errors0, calls0);
  }

  /**
   Lines 54-176: create the OpenCL objects, build the program, run the
   kernel and read its result back.  A failing check jumps into the unwind
   chain at the label it names; the label is returned.
   */
  method Create(s: Script) returns (entry: Label, errors: int, calls: seq<Op>)
    ensures Exit(entry, errors, calls) == ForwardPass(s, 0, 0, [])
  {
    var flow;
    flow, errors, calls := GetDevice(s, 0, []);
    if flow.Goto? { return flow.target, errors, calls; }
    flow, errors, calls := CreateContextAndQueue(s, errors, calls);
    if flow.Goto? { return flow.target, errors, calls; }
    flow, errors, calls := CreateBuffers(s, errors, calls);
    if flow.Goto? { return flow.target, errors, calls; }
    flow, errors, calls := WriteInputs(s, errors, calls);
    if flow.Goto? { return flow.target, errors, calls; }
    flow, errors, calls := BuildKernelProgram(s, errors, calls);
    if flow.Goto? { return flow.target, errors, calls; }
    flow, errors, calls := CreateKernelObject(s, errors, calls);
    if flow.Goto? { return flow.target, errors, calls; }
    flow, errors, calls := SetKernelArgs(s, errors, calls);
    if flow.Goto? { return flow.target, errors, calls; }
    flow, errors, calls := Execute(s, errors, calls);
    if flow.Goto? { return flow.target, errors, calls; }
    var e, c := ReadBack(s);
    // clFinish jumps to err_clEnqueueNDRangeKernel, which also follows it
    entry, errors, calls := ErrEnqueueNDRangeKernel, errors + e, calls + c;
  }

  /**
   The release right after label n, lines 177-201, in a chain entered at
   label start that had made base and counted baseErrors on entry.  The
   position at says where control stands: at n when it has reached this
   release, further down when the chain was entered below it, in which
   case the release is skipped.  A release that runs is checked by
   CHECKRET, which on failure jumps to the release's own label, and
   control then stands right before the next release either way.
   */
  method ReleaseStep(s: Script, at: nat, start: nat, n: nat, errors0: int, calls0: seq<Op>,
                     ghost base: seq<Op>, ghost baseErrors: int)
    returns (next: nat, errors: int, calls: seq<Op>)
    requires n < |ReleaseOrder|
    requires at == if start <= n then n else start
    requires calls0 == base + ChainUpTo(ReleaseOrder, start, n) && errors0 == baseErrors + ChainErrorsUpTo(s, ReleaseOrder, start, n)
    ensures next == if start <= n + 1 then n + 1 else start
    ensures calls == base + ChainUpTo(ReleaseOrder, start, n + 1) && errors == baseErrors + ChainErrorsUpTo(s, ReleaseOrder, start, n + 1)
  {
    next, errors, calls := at, errors0, calls0;
    if at == n {
      var o := ReleaseOrder[n];
      calls := calls + [Release(o)];
      if Fails(s, Release(o)) {
        errors := errors + 1;
        ReleaseTargetIsNext(n);
        next := Position(ReleaseTarget(o));
      } else {
        next := n + 1;
      }
    }
  }

  /**
   Lines 177-206: the chain of release calls, entered at the label a
   failing check jumped to, or that the read back reached.  Entering at a
   label skips every release above it; each failing release jumps to its
   own label, which stands right before the next release, so from the
   entry label on every release of the chain runs, in order.
   */
  method Unwind(s: Script, entry: Label, errors0: int, calls0: seq<Op>) returns (errors: int, calls: seq<Op>)
    ensures calls == calls0 + ChainUpTo(ReleaseOrder, Position(entry), |ReleaseOrder|)
    ensures errors == errors0 + ChainErrorsUpTo(s, ReleaseOrder, Position(entry), |ReleaseOrder|)
  {
    var start := Position(entry);
    var at := start;
    assert calls0 + ChainUpTo(ReleaseOrder, start, 0) == calls0;
    // err_clEnqueueNDRangeKernel, err_clSetKernelArg: clReleaseKernel
    at, errors, calls := ReleaseStep(s, at, start, 0, errors0, calls0, calls0, errors0);
    // err_clCreateKernel, err_clBuildProgram: clReleaseProgram
    at, errors, calls := ReleaseStep(s, at, start, 1, errors, calls, calls0, errors0);
    // err_clCreateProgramWithSource, err_clEnqueueWriteBuffer_B, err_clEnqueueWriteBuffer_A: clReleaseMemObject(c_mem_obj)
    at, errors, calls := ReleaseStep(s, at, start, 2, errors, calls, calls0, errors0);
    // err_c_mem_obj: clReleaseMemObject(b_mem_obj)
    at, errors, calls := ReleaseStep(s, at, start, 3, errors, calls, calls0, errors0);
    // err_b_mem_obj: clReleaseMemObject(a_mem_obj)
    at, errors, calls := ReleaseStep(s, at, start, 4, errors, calls, calls0, errors0);
    // err_a_mem_obj: clReleaseCommandQueue
    at, errors, calls := ReleaseStep(s, at, start, 5, errors, calls, calls0, errors0);
    // err_clCreateCommandQueue: clReleaseContext
    at, errors, calls := ReleaseStep(s, at, start, 6, errors, calls, calls0, errors0);
    // err_clCreateContext, err_clGetDeviceIDs, err_clGetPlatformIDs: nothing left to release
  }

  /** Lines 47-207: the device part of main(), its forward pass followed by its unwind. */
  method DevicePipeline(s: Script) returns (errors: int, calls: seq<Op>)
    ensures calls == PipelineCalls(s) && errors == PipelineErrors(s)
  {
    var entry;
    entry, errors, calls := Create(s);
    ForwardPassIsReference(s);
    UnwindReleasesCreated(s);
    errors, calls := Unwind(s, entry, errors, calls);
  }

  /**
   Lines 40-215: open the kernel file and allocate source_str; with both,
   read the source, close the file and run the device part.  A missing
   file or buffer is reported and counted.
   */
  method LoadAndRun(s: Script) returns (errors: int, calls: seq<Op>)
    ensures calls == KernelFileCalls(s) && errors == KernelFileErrors(s)
  {
    errors, calls := 0, [FOpen];
    if !Fails(s, FOpen) {
      calls := calls + [MallocSource];
      if !Fails(s, MallocSource) {
        // what fread reads is not modelled; fclose always follows it
        calls := calls + [FClose];
        var e, c := DevicePipeline(s);
        errors, calls := errors + e, calls + c;
      } else {
        errors := errors + 1;
      }
    } else {
      errors := errors + 1;
    }
  }

  /**
   main(): allocate and fill A and B, run lines 40-215, and free what the
   host side obtained.  The returned errors is main()'s exit value.
   */
  method Run(s: Script) returns (errors: int, calls: seq<Op>)
    ensures calls == Calls(s) && errors == Errors(s)
  {
    errors, calls := 0, [MallocA];
    if !Fails(s, MallocA) {
      var A := new int[ListSize];
      calls := calls + [MallocB];
      if !Fails(s, MallocB) {
        var B := new int[ListSize];
        FillInputs(A, B);
        var e, c := LoadAndRun(s);
        errors, calls := errors + e, calls + c;
        calls := calls + [FreeB];
      }
      calls := calls + [FreeA];
    }
  }
}
