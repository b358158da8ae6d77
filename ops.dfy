/**
 The external calls main() in main.c makes, the fault script that decides
 which of them fail, and the reference behaviour of the program: the calls
 it makes and the error count it returns, written as a forward pass over a
 list of steps that stops at the first failure, followed by an unwind that
 releases what the forward pass created, newest first.
 */
module Ops {

  /** One constructor per call site of main(), in the order they appear in main.c. */
  datatype Op =
    | MallocA | MallocB | FOpen | MallocSource | FClose
    | GetPlatformIDs | GetDeviceIDs | CreateContext | CreateCommandQueue
    | CreateBufferA | CreateBufferB | CreateBufferC
    | WriteBufferA | WriteBufferB | CreateProgramWithSource | FreeSource
    | BuildProgram | GetProgramBuildInfo | CreateKernel
    | SetKernelArg0 | SetKernelArg1 | SetKernelArg2 | EnqueueNDRangeKernel
    | MallocC | EnqueueReadBuffer | FreeC | Flush | Finish
    | ReleaseKernel | ReleaseProgram | ReleaseMemC | ReleaseMemB | ReleaseMemA
    | ReleaseCommandQueue | ReleaseContext
    | FreeB | FreeA

  /** Calls whose outcome main() never looks at: fclose and free. */
  predicate Unchecked(op: Op)
  {
    op.FClose? || op.FreeSource? || op.FreeC? || op.FreeB? || op.FreeA?
  }

  /** The OpenCL release calls of the unwind chain. */
  predicate IsRelease(op: Op)
  {
    op.ReleaseKernel? || op.ReleaseProgram? || op.ReleaseMemC? || op.ReleaseMemB? || op.ReleaseMemA?
    || op.ReleaseCommandQueue? || op.ReleaseContext?
  }

  /**
   A fault script: the call sites whose call fails (a null pointer from
   malloc or fopen, a non-zero cl_int status from OpenCL).  Each call site
   runs at most once, so a set says everything about one run.
   */
  type Script = set<Op>

  predicate Fails(s: Script, op: Op)
  {
    op in s && !Unchecked(op)
  }

  /** The OpenCL objects main() creates and must release. */
  datatype Obj = Context | CommandQueue | MemA | MemB | MemC | Program | Kernel

  /** The call that creates an object. */
  function Creator(o: Obj): Op
  {
    match o
    case Context => CreateContext
    case CommandQueue => CreateCommandQueue
    case MemA => CreateBufferA
    case MemB => CreateBufferB
    case MemC => CreateBufferC
    case Program => CreateProgramWithSource
    case Kernel => CreateKernel
  }

  /** The call that releases an object. */
  function Release(o: Obj): Op
  {
    match o
    case Context => ReleaseContext
    case CommandQueue => ReleaseCommandQueue
    case MemA => ReleaseMemA
    case MemB => ReleaseMemB
    case MemC => ReleaseMemC
    case Program => ReleaseProgram
    case Kernel => ReleaseKernel
  }

  /** The objects a step creates: one for a create call, none for any other step. */
  function Made(op: Op): seq<Obj>
  {
    match op
    case CreateContext => [Context]
    case CreateCommandQueue => [CommandQueue]
    case CreateBufferA => [MemA]
    case CreateBufferB => [MemB]
    case CreateBufferC => [MemC]
    case CreateProgramWithSource => [Program]
    case CreateKernel => [Kernel]
    case _ => []
  }

  /** The number of forward steps of the device part. */
  const StepCount: nat := 17

  /**
   Forward step i of the device part of main(), lines 54-152, in order:
   each one that fails stops the forward pass.  free(source_str) never fails.
   */
  function Step(i: nat): Op
    requires i < StepCount
  {
    if i == 0 then GetPlatformIDs
    else if i == 1 then GetDeviceIDs
    else if i == 2 then CreateContext
    else if i == 3 then CreateCommandQueue
    else if i == 4 then CreateBufferA
    else if i == 5 then CreateBufferB
    else if i == 6 then CreateBufferC
    else if i == 7 then WriteBufferA
    else if i == 8 then WriteBufferB
    else if i == 9 then CreateProgramWithSource
    else if i == 10 then FreeSource
    else if i == 11 then BuildProgram
    else if i == 12 then CreateKernel
    else if i == 13 then SetKernelArg0
    else if i == 14 then SetKernelArg1
    else if i == 15 then SetKernelArg2
    else EnqueueNDRangeKernel
  }

  /** The calls of the first n forward steps. */
  function Prefix(n: nat): seq<Op>
    requires n <= StepCount
  {
    seq(n, i requires 0 <= i < n => Step(i))
  }

  /** The position of free(source_str) among the forward steps. */
  const FreeSourceStep: nat := 10

  /** The position of clBuildProgram among the forward steps. */
  const BuildStep: nat := 11

  /** The forward step that creates an object. */
  function CreatorIndex(o: Obj): nat
  {
    match o
    case Context => 2
    case CommandQueue => 3
    case MemA => 4
    case MemB => 5
    case MemC => 6
    case Program => 9
    case Kernel => 12
  }

  /** CreatorIndex names a forward step, that step is the object's creating call, and no other step makes that call. */
  lemma CreatorIndexCreates(o: Obj)
    ensures CreatorIndex(o) < StepCount && Step(CreatorIndex(o)) == Creator(o)
    ensures forall i :: 0 <= i < StepCount && Step(i) == Creator(o) ==> i == CreatorIndex(o)
  {
  }

  /** The order in which the label chain of lines 177-201 releases objects. */
  const ReleaseOrder: seq<Obj> := [Kernel, Program, MemC, MemB, MemA, CommandQueue, Context]

  /** The labels of the unwind chain, lines 177-206, from first to last. */
  datatype Label =
    | ErrEnqueueNDRangeKernel | ErrSetKernelArg
    | ErrCreateKernel | ErrBuildProgram
    | ErrCreateProgramWithSource | ErrEnqueueWriteBufferB | ErrEnqueueWriteBufferA
    | ErrCMemObj | ErrBMemObj | ErrAMemObj
    | ErrCreateCommandQueue
    | ErrCreateContext | ErrGetDeviceIDs | ErrGetPlatformIDs

  /** How many release calls of the chain stand before a label. */
  function Position(l: Label): (n: nat)
    ensures n <= |ReleaseOrder|
  {
    match l
    case ErrEnqueueNDRangeKernel | ErrSetKernelArg => 0
    case ErrCreateKernel | ErrBuildProgram => 1
    case ErrCreateProgramWithSource | ErrEnqueueWriteBufferB | ErrEnqueueWriteBufferA => 2
    case ErrCMemObj => 3
    case ErrBMemObj => 4
    case ErrAMemObj => 5
    case ErrCreateCommandQueue => 6
    case ErrCreateContext | ErrGetDeviceIDs | ErrGetPlatformIDs => 7
  }

  /** The label the CHECKRET after an object's release jumps to on failure, lines 180-201. */
  function ReleaseTarget(o: Obj): Label
  {
    match o
    case Kernel => ErrCreateKernel
    case Program => ErrCreateProgramWithSource
    case MemC => ErrCMemObj
    case MemB => ErrBMemObj
    case MemA => ErrAMemObj
    case CommandQueue => ErrCreateCommandQueue
    case Context => ErrCreateContext
  }

  /** Each failing release jumps to the label standing right before the next release, or after the last one. */
  lemma ReleaseTargetIsNext(n: nat)
    requires n < |ReleaseOrder|
    ensures Position(ReleaseTarget(ReleaseOrder[n])) == n + 1
  {
  }

  /**
   The label a failing forward step jumps to (lines 55-152); a failing
   clBuildProgram reaches err_clBuildProgram through err_clGetProgramBuildInfo.
   free(source_str) never fails and has none.
   */
  function Target(op: Op): Label
  {
    match op
    case GetPlatformIDs => ErrGetPlatformIDs
    case GetDeviceIDs => ErrGetDeviceIDs
    case CreateContext => ErrCreateContext
    case CreateCommandQueue => ErrCreateCommandQueue
    case CreateBufferA => ErrAMemObj
    case CreateBufferB => ErrBMemObj
    case CreateBufferC => ErrCMemObj
    case WriteBufferA => ErrEnqueueWriteBufferA
    case WriteBufferB => ErrEnqueueWriteBufferB
    case CreateProgramWithSource => ErrCreateProgramWithSource
    case BuildProgram => ErrBuildProgram
    case CreateKernel => ErrCreateKernel
    case SetKernelArg0 | SetKernelArg1 | SetKernelArg2 => ErrSetKernelArg
    case _ => ErrEnqueueNDRangeKernel
  }

  /** The first failing forward step from step i on, or StepCount when none fails. */
  function FirstFailure(s: Script, i: nat): (k: nat)
    requires i <= StepCount
    ensures i <= k <= StepCount
    ensures forall j :: i <= j < k ==> !Fails(s, Step(j))
    ensures k < StepCount ==> Fails(s, Step(k))
    decreases StepCount - i
  {
    if i == StepCount || Fails(s, Step(i)) then i else FirstFailure(s, i + 1)
  }

  /** Where the forward pass of the device part stops. */
  function Stop(s: Script): nat
  {
    FirstFailure(s, 0)
  }

  /** An object exists once its creating call has run and succeeded: when the forward pass stops after it. */
  predicate Created(s: Script, o: Obj)
  {
    CreatedBefore(Stop(s), o)
  }

  /** The object is created by one of the first k forward steps. */
  predicate CreatedBefore(k: nat, o: Obj)
  {
    CreatorIndex(o) < k
  }

  /** The label control reaches when the forward pass stops at step k (k == StepCount when it completes). */
  function EntryAt(k: nat): Label
  {
    if k < StepCount then Target(Step(k)) else ErrEnqueueNDRangeKernel
  }

  /**
   The label where the unwind starts: the target of the failing forward
   step, or err_clEnqueueNDRangeKernel, which clFinish jumps to and the
   read back falls through to, when the forward pass completes.
   */
  function Entry(s: Script): Label
  {
    EntryAt(Stop(s))
  }

  /** The first n forward steps all succeed: the pass stops no earlier than step n. */
  predicate Passed(s: Script, n: nat)
  {
    n <= Stop(s)
  }

  /** Where control leaves the forward pass for the unwind chain, with the errors and calls made until then. */
  datatype Exit = Exit(entry: Label, errors: int, calls: seq<Op>)

  /**
   The forward pass resumed at step n with the errors and calls made so
   far, step by step: a failing step counts one error and leaves for its
   label; a failing clBuildProgram instead fetches the build log, counting
   one error only when that fails, and leaves for err_clBuildProgram; once
   every step passed, the read back runs and control reaches
   err_clEnqueueNDRangeKernel.
   */
  function ForwardPass(s: Script, n: nat, errors: int, calls: seq<Op>): Exit
    requires n <= StepCount
    decreases StepCount - n
  {
    if n == StepCount then
      Exit(ErrEnqueueNDRangeKernel, errors + ReadBackErrors(s), calls + ReadBackCalls(s))
    else if !Fails(s, Step(n)) then
      ForwardPass(s, n + 1, errors, calls + [Step(n)])
    else if n == BuildStep then
      Exit(ErrBuildProgram, errors + Bit(Fails(s, GetProgramBuildInfo)), calls + [BuildProgram] + [GetProgramBuildInfo])
    else
      Exit(Target(Step(n)), errors + 1, calls + [Step(n)])
  }

  /** Prefix(n + 1) extends Prefix(n) by step n. */
  lemma PrefixStep(n: nat)
    requires n < StepCount
    ensures Prefix(n + 1) == Prefix(n) + [Step(n)]
  {
    assert Prefix(n + 1)[..n] == Prefix(n);
  }

  /** When step n fails after the first n passed, the pass stops at step n. */
  lemma StopsAt(s: Script, n: nat)
    requires n < StepCount && Passed(s, n) && Fails(s, Step(n))
    ensures Stop(s) == n
  {
  }

  /** When the pass stops at step n, it leaves from there, as Entry, ErrorsBeforeUnwind and BeforeUnwind say. */
  lemma LeavesAtFailure(s: Script, n: nat)
    requires n < StepCount && Stop(s) == n
    ensures ForwardPass(s, n, 0, Prefix(n)) == Exit(Entry(s), ErrorsBeforeUnwind(s), BeforeUnwind(s))
  {
    PrefixStep(n);
  }

  /** When step n passes after the first n passed, the first n + 1 passed and the pass goes on from step n + 1. */
  lemma PassesStep(s: Script, n: nat)
    requires n < StepCount && Passed(s, n) && !Fails(s, Step(n))
    ensures Passed(s, n + 1)
    ensures ForwardPass(s, n, 0, Prefix(n)) == ForwardPass(s, n + 1, 0, Prefix(n + 1))
  {
    PrefixStep(n);
  }

  /**
   The forward pass, resumed after the first n steps passed, leaves at the
   label of the first failing step, having made every step up to it and
   counted the errors the step-list definitions say.
   */
  lemma {:induction false} ForwardPassMeetsStop(s: Script, n: nat)
    requires n <= StepCount && Passed(s, n)
    ensures ForwardPass(s, n, 0, Prefix(n)) == Exit(Entry(s), ErrorsBeforeUnwind(s), BeforeUnwind(s))
    decreases StepCount - n
  {
    if n < StepCount {
      if Fails(s, Step(n)) {
        StopsAt(s, n);
        LeavesAtFailure(s, n);
      } else {
        PassesStep(s, n);
        ForwardPassMeetsStop(s, n + 1);
      }
    }
  }

  /** The pass started at step 0 with nothing made is the one Stop, Entry and BeforeUnwind describe. */
  lemma ForwardPassIsReference(s: Script)
    ensures ForwardPass(s, 0, 0, []) == Exit(Entry(s), ErrorsBeforeUnwind(s), BeforeUnwind(s))
  {
    assert Prefix(0) == [];
    ForwardPassMeetsStop(s, 0);
  }

  /**
   The releases made by the first n labels of a chain releasing order,
   when the forward pass stopped at step k: order[..n], skipping objects
   the first k steps did not create.
   */
  function ReleasedUpTo(k: nat, order: seq<Obj>, n: nat): seq<Op>
    requires n <= |order|
  {
    if n == 0 then []
    else if CreatedBefore(k, order[n - 1]) then ReleasedUpTo(k, order, n - 1) + [Release(order[n - 1])]
    else ReleasedUpTo(k, order, n - 1)
  }

  /** The releases of the whole unwind chain. */
  function Releases(s: Script): seq<Op>
  {
    ReleasedUpTo(Stop(s), ReleaseOrder, |ReleaseOrder|)
  }

  function Bit(b: bool): nat
  {
    if b then 1 else 0
  }

  /** One error when o's release call runs and fails. */
  function ReleaseError(s: Script, k: nat, o: Obj): nat
  {
    Bit(CreatedBefore(k, o) && Fails(s, Release(o)))
  }

  /** The errors counted by the first n releases of a chain releasing order. */
  function ReleaseErrorsUpTo(s: Script, k: nat, order: seq<Obj>, n: nat): nat
    requires n <= |order|
  {
    if n == 0 then 0 else ReleaseErrorsUpTo(s, k, order, n - 1) + ReleaseError(s, k, order[n - 1])
  }

  /** One error for each release call that runs and fails. */
  function ReleaseErrors(s: Script): nat
  {
    ReleaseErrorsUpTo(s, Stop(s), ReleaseOrder, |ReleaseOrder|)
  }

  /**
   The forward calls made when the forward pass stops at step k: every
   step up to and including the failing one, and clGetProgramBuildInfo
   when the failing one is clBuildProgram.
   */
  function ForwardCallsAt(k: nat): seq<Op>
    requires k <= StepCount
  {
    if k == StepCount then Prefix(StepCount)
    else if k == BuildStep then Prefix(k + 1) + [GetProgramBuildInfo]
    else Prefix(k + 1)
  }

  function ForwardCalls(s: Script): seq<Op>
  {
    ForwardCallsAt(Stop(s))
  }

  /** A failing forward step k counts one error, except clBuildProgram, which counts only a failing clGetProgramBuildInfo. */
  function ForwardErrorsAt(s: Script, k: nat): nat
  {
    if k == StepCount then 0
    else if k == BuildStep then Bit(Fails(s, GetProgramBuildInfo))
    else 1
  }

  function ForwardErrors(s: Script): nat
  {
    ForwardErrorsAt(s, Stop(s))
  }

  /** The calls after a complete forward pass: read back C when it could be allocated, then flush and finish. */
  function ReadBackCalls(s: Script): seq<Op>
  {
    [MallocC] + (if Fails(s, MallocC) then [] else [EnqueueReadBuffer, FreeC]) + [Flush, Finish]
  }

  /** One error for the read-back stage (no C, or a failed read), one for each failing flush or finish. */
  function ReadBackErrors(s: Script): nat
  {
    Bit(Fails(s, MallocC) || Fails(s, EnqueueReadBuffer)) + Bit(Fails(s, Flush)) + Bit(Fails(s, Finish))
  }

  /** The calls of the device part before its unwind, when the forward pass stops at step k: the read back follows a complete pass. */
  function BeforeUnwindAt(s: Script, k: nat): seq<Op>
    requires k <= StepCount
  {
    if k == StepCount then ForwardCallsAt(k) + ReadBackCalls(s) else ForwardCallsAt(k)
  }

  function BeforeUnwind(s: Script): seq<Op>
  {
    BeforeUnwindAt(s, Stop(s))
  }

  function ErrorsBeforeUnwindAt(s: Script, k: nat): nat
  {
    if k == StepCount then ForwardErrorsAt(s, k) + ReadBackErrors(s) else ForwardErrorsAt(s, k)
  }

  function ErrorsBeforeUnwind(s: Script): nat
  {
    ErrorsBeforeUnwindAt(s, Stop(s))
  }

  /** The device part of main(): forward pass, read back when it completed, then the unwind. */
  function PipelineCalls(s: Script): seq<Op>
  {
    BeforeUnwind(s) + Releases(s)
  }

  function PipelineErrors(s: Script): nat
  {
    ErrorsBeforeUnwind(s) + ReleaseErrors(s)
  }

  /**
   The release calls made by a chain releasing order, entered at label
   start, up to label n: one for each object of order[start..n], in order.
   */
  function ChainUpTo(order: seq<Obj>, start: nat, n: nat): seq<Op>
    requires n <= |order|
  {
    if n <= start then [] else ChainUpTo(order, start, n - 1) + [Release(order[n - 1])]
  }

  /** The errors counted by a chain releasing order, entered at label start, up to label n: one per failing release. */
  function ChainErrorsUpTo(s: Script, order: seq<Obj>, start: nat, n: nat): nat
    requires n <= |order|
  {
    if n <= start then 0 else ChainErrorsUpTo(s, order, start, n - 1) + Bit(Fails(s, Release(order[n - 1])))
  }

  /** A release order that releases every object before the objects created ahead of it. */
  ghost predicate NewestFirst(order: seq<Obj>)
  {
    forall i, j :: 0 <= i < j < |order| ==> CreatorIndex(order[i]) > CreatorIndex(order[j])
  }

  /** The chain releases objects in the reverse of the order the forward pass creates them. */
  lemma ReleaseOrderReversesCreation()
    ensures NewestFirst(ReleaseOrder)
  {
  }

  /**
   Every jump into the chain lands where exactly the objects still to be
   released exist: the object released right after the entry label was
   created, the one released right before it was not.  This states the
   boundary for the entry of a whole run, in terms of the fault script;
   the proofs about the chain use TargetIsBoundary, which states it for
   every stop index k, and no proof depends on this lemma.
   */
  lemma EntryIsCreationBoundary(s: Script)
    ensures var n := Position(Entry(s));
      && (0 < n ==> !Created(s, ReleaseOrder[n - 1]))
      && (n < |ReleaseOrder| ==> Created(s, ReleaseOrder[n]))
  {
    TargetIsBoundary(Stop(s));
  }

  /** The label a stop at step k leads to (no stop is possible at free(source_str)) separates the objects created before step k from the rest. */
  lemma TargetIsBoundary(k: nat)
    requires k <= StepCount && (k < StepCount ==> !Unchecked(Step(k)))
    ensures var n := Position(EntryAt(k));
      && (0 < n ==> CreatorIndex(ReleaseOrder[n - 1]) >= k)
      && (n < |ReleaseOrder| ==> CreatorIndex(ReleaseOrder[n]) < k)
  {
  }

  /**
   In a chain that releases newest first, entered at a label start where
   the creations stop (the object released right before it is created at
   step k or later, the one right after it before step k), the objects
   created before step k are exactly those released after start.
   */
  lemma CreatedFrom(order: seq<Obj>, start: nat, k: nat)
    requires NewestFirst(order) && start <= |order|
    requires 0 < start ==> CreatorIndex(order[start - 1]) >= k
    requires start < |order| ==> CreatorIndex(order[start]) < k
    ensures forall j :: 0 <= j < |order| ==> (CreatorIndex(order[j]) < k <==> start <= j)
  {
    forall j | 0 <= j < |order|
      ensures CreatorIndex(order[j]) < k <==> start <= j
    {
      if j < start - 1 {
        assert CreatorIndex(order[j]) > CreatorIndex(order[start - 1]);
      } else if start < j {
        assert CreatorIndex(order[start]) > CreatorIndex(order[j]);
      }
    }
  }

  /**
   When the objects created by the first k steps are exactly those
   released after label start, the chain entered at start releases, up to
   any label n, exactly those objects among order[..n].
   */
  lemma {:induction false} ChainReleasesCreated(order: seq<Obj>, start: nat, k: nat, n: nat)
    requires n <= |order|
    requires forall j :: 0 <= j < |order| ==> (CreatorIndex(order[j]) < k <==> start <= j)
    ensures ChainUpTo(order, start, n) == ReleasedUpTo(k, order, n)
  {
    if n > 0 {
      ChainReleasesCreated(order, start, k, n - 1);
      assert CreatedBefore(k, order[n - 1]) <==> start < n;
    }
  }

  /** Under the same condition, the chain counts one error per failing release of an existing object. */
  lemma {:induction false} ChainCountsCreated(s: Script, order: seq<Obj>, start: nat, k: nat, n: nat)
    requires n <= |order|
    requires forall j :: 0 <= j < |order| ==> (CreatorIndex(order[j]) < k <==> start <= j)
    ensures ChainErrorsUpTo(s, order, start, n) == ReleaseErrorsUpTo(s, k, order, n)
  {
    if n > 0 {
      ChainCountsCreated(s, order, start, k, n - 1);
      assert CreatedBefore(k, order[n - 1]) <==> start < n;
    }
  }

  /** Entered where the forward pass left, the chain releases exactly the created objects, newest first. */
  lemma UnwindReleasesCreated(s: Script)
    ensures ChainUpTo(ReleaseOrder, Position(Entry(s)), |ReleaseOrder|) == Releases(s)
    ensures ChainErrorsUpTo(s, ReleaseOrder, Position(Entry(s)), |ReleaseOrder|) == ReleaseErrors(s)
  {
    var k := Stop(s);
    var start := Position(EntryAt(k));
    TargetIsBoundary(k);
    ReleaseOrderReversesCreation();
    CreatedFrom(ReleaseOrder, start, k);
    ChainReleasesCreated(ReleaseOrder, start, k, |ReleaseOrder|);
    ChainCountsCreated(s, ReleaseOrder, start, k, |ReleaseOrder|);
  }

  /** A, B, the kernel file and source_str were all obtained, so the device part runs. */
  predicate HostReady(s: Script)
  {
    !Fails(s, MallocA) && !Fails(s, MallocB) && !Fails(s, FOpen) && !Fails(s, MallocSource)
  }

  /**
   The calls of lines 40-215 when the device part makes the calls device:
   open the kernel file and, when that works, allocate source_str and, when
   that works too, read the file, close it and run the device part.
   */
  function KernelFileCallsAround(s: Script, device: seq<Op>): seq<Op>
  {
    if Fails(s, FOpen) then [FOpen]
    else if Fails(s, MallocSource) then [FOpen] + [MallocSource]
    else [FOpen] + [MallocSource] + [FClose] + device
  }

  function KernelFileCalls(s: Script): seq<Op>
  {
    KernelFileCallsAround(s, PipelineCalls(s))
  }

  /** The errors counted by lines 40-215: one for a missing file or source buffer, else the device part's. */
  function KernelFileErrors(s: Script): nat
  {
    if Fails(s, FOpen) || Fails(s, MallocSource) then 1 else PipelineErrors(s)
  }

  /** The calls main() makes, in order, when its device part makes the calls device. */
  function CallsAround(s: Script, device: seq<Op>): seq<Op>
  {
    if Fails(s, MallocA) then [MallocA]
    else if Fails(s, MallocB) then [MallocA] + [MallocB] + [FreeA]
    else [MallocA] + [MallocB] + KernelFileCallsAround(s, device) + [FreeB] + [FreeA]
  }

  /** Every call main() makes, in order. */
  function Calls(s: Script): seq<Op>
  {
    CallsAround(s, PipelineCalls(s))
  }

  /** main()'s return value. */
  function Errors(s: Script): nat
  {
    if Fails(s, MallocA) || Fails(s, MallocB) then 0 else KernelFileErrors(s)
  }
}
