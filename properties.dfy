/**
 What the calls and the return value of main() in main.c amount to, for
 every fault script: how many errors are counted and which failures they
 stand for, which OpenCL objects are released and how often, which host
 buffers are freed, and what the unwind does when release calls fail.
 */
module VectorAddProperties {
  import opened Ops
  import opened CheckOpenCL

  // ---------------------------------------------------------------------
  // The error count
  // ---------------------------------------------------------------------

  /**
   A failure main() reports by incrementing errors.  A failing
   clBuildProgram is only reported through clGetProgramBuildInfo, and a
   failing malloc of A or B is not reported at all.
   */
  predicate Reported(op: Op)
  {
    !op.BuildProgram? && !op.MallocA? && !op.MallocB?
  }

  /** The reported failures among a sequence of calls. */
  function ReportedFailures(s: Script, calls: seq<Op>): nat
  {
    if calls == [] then 0 else Bit(Fails(s, calls[0]) && Reported(calls[0])) + ReportedFailures(s, calls[1..])
  }

  lemma {:induction false} ReportedFailuresAppend(s: Script, a: seq<Op>, b: seq<Op>)
    ensures ReportedFailures(s, a + b) == ReportedFailures(s, a) + ReportedFailures(s, b)
  {
    if a == [] {
      assert a + b == b;
    } else {
      assert (a + b)[1..] == a[1..] + b;
      ReportedFailuresAppend(s, a[1..], b);
    }
  }

  lemma ReportedFailuresSingle(s: Script, op: Op)
    ensures ReportedFailures(s, [op]) == Bit(Fails(s, op) && Reported(op))
  {
    assert [op][1..] == [];
  }

  /** Release calls report their failures. */
  lemma ReleaseKind(o: Obj)
    ensures Reported(Release(o)) && IsRelease(Release(o))
  {
  }

  /**
   Every forward step but clBuildProgram reports its failure; none is a
   release or a host-side call except free(source_str), which is step FreeSourceStep.
   */
  lemma StepKind(k: nat)
    requires k < StepCount
    ensures k != BuildStep ==> Reported(Step(k))
    ensures !IsRelease(Step(k))
    ensures !Step(k).FreeA? && !Step(k).FreeB? && !Step(k).FClose? && !Step(k).FreeC?
    ensures Step(k).FreeSource? <==> k == FreeSourceStep
  {
  }

  /** A call no forward step makes is not among the first m forward calls. */
  lemma NotInPrefix(m: nat, op: Op)
    requires m <= StepCount
    requires forall i :: 0 <= i < m ==> Step(i) != op
    ensures op !in Prefix(m)
  {
    forall i | 0 <= i < m
      ensures Prefix(m)[i] != op
    {
    }
  }

  /** Steps that did not fail report nothing. */
  lemma {:induction false} PassedStepsReportNothing(s: Script, n: nat)
    requires n <= StepCount
    requires forall j :: 0 <= j < n ==> !Fails(s, Step(j))
    ensures ReportedFailures(s, Prefix(n)) == 0
  {
    if n > 0 {
      PassedStepsReportNothing(s, n - 1);
      PrefixStep(n - 1);
      ReportedFailuresAppend(s, Prefix(n - 1), [Step(n - 1)]);
    }
  }

  /** The forward pass counts exactly the reported failure among its calls. */
  lemma ForwardErrorsReported(s: Script)
    ensures ForwardErrors(s) == ReportedFailures(s, ForwardCalls(s))
  {
    var k := Stop(s);
    PassedStepsReportNothing(s, k);
    if k < StepCount {
      var op := Step(k);
      StepKind(k);
      PrefixStep(k);
      ReportedFailuresAppend(s, Prefix(k), [op]);
      assert ReportedFailures(s, [op]) == Bit(Fails(s, op) && Reported(op));
      if k == BuildStep {
        ReportedFailuresAppend(s, Prefix(k + 1), [GetProgramBuildInfo]);
      }
    }
  }

  lemma ReadBackErrorsReported(s: Script)
    ensures ReadBackErrors(s) == ReportedFailures(s, ReadBackCalls(s))
  {
    var tail := if Fails(s, MallocC) then [] else [EnqueueReadBuffer] + [FreeC];
    assert ReadBackCalls(s) == [MallocC] + tail + [Flush] + [Finish];
    ReportedFailuresSingle(s, MallocC);
    ReportedFailuresSingle(s, EnqueueReadBuffer);
    ReportedFailuresSingle(s, FreeC);
    ReportedFailuresSingle(s, Flush);
    ReportedFailuresSingle(s, Finish);
    ReportedFailuresAppend(s, [EnqueueReadBuffer], [FreeC]);
    ReportedFailuresAppend(s, [MallocC], tail);
    ReportedFailuresAppend(s, [MallocC] + tail, [Flush]);
    ReportedFailuresAppend(s, [MallocC] + tail + [Flush], [Finish]);
  }

  lemma {:induction false} ReleaseErrorsReported(s: Script, k: nat, order: seq<Obj>, n: nat)
    requires n <= |order|
    ensures ReleaseErrorsUpTo(s, k, order, n) == ReportedFailures(s, ReleasedUpTo(k, order, n))
  {
    if n > 0 {
      var o := order[n - 1];
      ReleaseErrorsReported(s, k, order, n - 1);
      if CreatedBefore(k, o) {
        ReleaseKind(o);
        ReportedFailuresSingle(s, Release(o));
        ReportedFailuresAppend(s, ReleasedUpTo(k, order, n - 1), [Release(o)]);
      }
    }
  }

  lemma PipelineErrorsReported(s: Script)
    ensures PipelineErrors(s) == ReportedFailures(s, PipelineCalls(s))
  {
    ForwardErrorsReported(s);
    if Stop(s) == StepCount {
      ReadBackErrorsReported(s);
      ReportedFailuresAppend(s, ForwardCalls(s), ReadBackCalls(s));
    }
    ReleaseErrorsReported(s, Stop(s), ReleaseOrder, |ReleaseOrder|);
    ReportedFailuresAppend(s, BeforeUnwind(s), Releases(s));
  }

  /**
   main() returns the number of failed calls it reports: every failing
   checked call it makes counts once, except clBuildProgram and the
   mallocs of A and B.
   */
  lemma ErrorsCountReportedFailures(s: Script)
    ensures Errors(s) == ReportedFailures(s, Calls(s))
  {
    ReportedFailuresSingle(s, MallocA);
    ReportedFailuresSingle(s, MallocB);
    ReportedFailuresSingle(s, FOpen);
    ReportedFailuresSingle(s, MallocSource);
    ReportedFailuresSingle(s, FClose);
    ReportedFailuresSingle(s, FreeB);
    ReportedFailuresSingle(s, FreeA);
    ReportedFailuresAppend(s, [MallocA], [MallocB]);
    if Fails(s, MallocB) {
      ReportedFailuresAppend(s, [MallocA] + [MallocB], [FreeA]);
    } else if !Fails(s, MallocA) {
      var host := KernelFileCalls(s);
      if Fails(s, FOpen) {
      } else if Fails(s, MallocSource) {
        ReportedFailuresAppend(s, [FOpen], [MallocSource]);
      } else {
        PipelineErrorsReported(s);
        ReportedFailuresAppend(s, [FOpen], [MallocSource]);
        ReportedFailuresAppend(s, [FOpen] + [MallocSource], [FClose]);
        ReportedFailuresAppend(s, [FOpen] + [MallocSource] + [FClose], PipelineCalls(s));
      }
      ReportedFailuresAppend(s, [MallocA] + [MallocB], host);
      ReportedFailuresAppend(s, [MallocA] + [MallocB] + host, [FreeB]);
      ReportedFailuresAppend(s, [MallocA] + [MallocB] + host + [FreeB], [FreeA]);
    }
  }

  lemma {:induction false} ReleaseErrorsBounded(s: Script, k: nat, order: seq<Obj>, n: nat)
    requires n <= |order|
    ensures ReleaseErrorsUpTo(s, k, order, n) <= n
  {
    if n > 0 {
      ReleaseErrorsBounded(s, k, order, n - 1);
    }
  }

  /**
   At most ten errors are counted: three in the read back and seven in
   the release chain, or one forward failure and the releases after it.
   */
  lemma ErrorsBounded(s: Script)
    ensures Errors(s) <= 10
  {
    ReleaseErrorsBounded(s, Stop(s), ReleaseOrder, |ReleaseOrder|);
  }

  /**
   The count never gets near the ceiling of check_opencl.h, so counting
   through inc_CHECK_errors from a fresh DECLARE_CHECK would give the
   same value as main()'s plain increment.
   */
  lemma CounterNeverSaturates(s: Script)
    ensures Errors(s) < Ceiling
    ensures BumpTimes(0, Errors(s)) == Errors(s)
  {
    ErrorsBounded(s);
    BumpsSaturate(0, Errors(s));
  }

  /** Every release of a chain runs and fails: each one counts. */
  lemma {:induction false} AllReleasesCount(s: Script, k: nat, order: seq<Obj>, n: nat)
    requires n <= |order|
    requires forall j :: 0 <= j < |order| ==> CreatedBefore(k, order[j]) && Fails(s, Release(order[j]))
    ensures ReleaseErrorsUpTo(s, k, order, n) == n
  {
    if n > 0 {
      AllReleasesCount(s, k, order, n - 1);
    }
  }

  /**
   The bound is reached: when the forward pass completes, C cannot be
   allocated, flush and finish fail, and so does every release.
   */
  lemma ErrorsBoundReached(s: Script)
    requires HostReady(s) && Stop(s) == StepCount
    requires Fails(s, MallocC) && Fails(s, Flush) && Fails(s, Finish)
    requires forall o :: Fails(s, Release(o))
    ensures Errors(s) == 10
  {
    AllReleasesCount(s, StepCount, ReleaseOrder, |ReleaseOrder|);
  }

  // ---------------------------------------------------------------------
  // What the unwind releases
  // ---------------------------------------------------------------------

  /** The release calls for a run of objects, in the same order. */
  function ReleaseCalls(objs: seq<Obj>): seq<Op>
  {
    seq(|objs|, i requires 0 <= i < |objs| => Release(objs[i]))
  }

  lemma {:induction false} ChainIsReleaseCalls(order: seq<Obj>, start: nat, n: nat)
    requires start <= n <= |order|
    ensures ChainUpTo(order, start, n) == ReleaseCalls(order[start..n])
  {
    if n > start {
      ChainIsReleaseCalls(order, start, n - 1);
      assert ReleaseCalls(order[start..n]) == ReleaseCalls(order[start..n - 1]) + [Release(order[n - 1])];
    }
  }

  /** Where each object stands in the release order. */
  function OrderIndex(o: Obj): (j: nat)
    ensures j < |ReleaseOrder| && ReleaseOrder[j] == o
  {
    match o
    case Kernel => 0
    case Program => 1
    case MemC => 2
    case MemB => 3
    case MemA => 4
    case CommandQueue => 5
    case Context => 6
  }

  /** Any stretch of a newest-first order is newest first. */
  lemma NewestFirstSuffix(order: seq<Obj>, start: nat)
    requires NewestFirst(order) && start <= |order|
    ensures NewestFirst(order[start..])
  {
    var objs := order[start..];
    forall i, j | 0 <= i < j < |objs|
      ensures CreatorIndex(objs[i]) > CreatorIndex(objs[j])
    {
      assert objs[i] == order[start + i] && objs[j] == order[start + j];
    }
  }

  /** When the objects created by the first k steps are those released from label start on, they are ReleaseOrder[start..]. */
  lemma CreatedAreSuffix(start: nat, k: nat)
    requires start <= |ReleaseOrder|
    requires forall j :: 0 <= j < |ReleaseOrder| ==> (CreatorIndex(ReleaseOrder[j]) < k <==> start <= j)
    ensures forall o :: CreatedBefore(k, o) <==> o in ReleaseOrder[start..]
  {
    var objs := ReleaseOrder[start..];
    forall o
      ensures CreatedBefore(k, o) <==> o in objs
    {
      var j := OrderIndex(o);
      if start <= j {
        assert objs[j - start] == o;
      }
      if o in objs {
        var i :| 0 <= i < |objs| && objs[i] == o;
        assert ReleaseOrder[start + i] == o;
      }
    }
  }

  /**
   The unwind releases exactly the objects the forward pass created, and
   releases them newest first: the release order from the entry label on.
   */
  lemma ReleasesCreatedNewestFirst(s: Script)
    ensures var objs := ReleaseOrder[Position(Entry(s))..];
      && Releases(s) == ReleaseCalls(objs)
      && NewestFirst(objs)
      && (forall o :: Created(s, o) <==> o in objs)
  {
    var k := Stop(s);
    var start := Position(EntryAt(k));
    UnwindReleasesCreated(s);
    ChainIsReleaseCalls(ReleaseOrder, start, |ReleaseOrder|);
    assert ReleaseOrder[start..|ReleaseOrder|] == ReleaseOrder[start..];
    ReleaseOrderReversesCreation();
    NewestFirstSuffix(ReleaseOrder, start);
    TargetIsBoundary(k);
    CreatedFrom(ReleaseOrder, start, k);
    CreatedAreSuffix(start, k);
  }

  /** Different objects have different release calls. */
  lemma ReleaseInjective(a: Obj, b: Obj)
    ensures Release(a) == Release(b) ==> a == b
  {
  }

  /** A run of objects without repeats, each released by its own call, holds each release call once. */
  lemma {:induction false} ReleaseCallsOnce(objs: seq<Obj>, o: Obj)
    requires NewestFirst(objs)
    ensures multiset(ReleaseCalls(objs))[Release(o)] == Bit(o in objs)
    decreases |objs|
  {
    if objs != [] {
      var rest := objs[1..];
      assert ReleaseCalls(objs) == [Release(objs[0])] + ReleaseCalls(rest);
      assert objs == [objs[0]] + rest;
      assert NewestFirst(rest) by {
        forall i, j | 0 <= i < j < |rest|
          ensures CreatorIndex(rest[i]) > CreatorIndex(rest[j])
        {
          assert rest[i] == objs[i + 1] && rest[j] == objs[j + 1];
        }
      }
      ReleaseCallsOnce(rest, o);
      ReleaseInjective(objs[0], o);
      forall i | 0 <= i < |rest|
        ensures rest[i] != objs[0]
      {
        assert CreatorIndex(objs[0]) > CreatorIndex(objs[i + 1]);
      }
    }
  }

  /** The unwind releases every created object exactly once and nothing else. */
  lemma EachCreatedObjectReleasedOnce(s: Script, o: Obj)
    ensures multiset(Releases(s))[Release(o)] == Bit(Created(s, o))
  {
    ReleasesCreatedNewestFirst(s);
    ReleaseCallsOnce(ReleaseOrder[Position(Entry(s))..], o);
  }

  /** Host-side frees, fclose and releases are never forward steps. */
  lemma NotAStep(op: Op)
    requires op.FreeA? || op.FreeB? || op.FClose? || op.FreeC? || IsRelease(op)
    ensures forall i :: 0 <= i < StepCount ==> Step(i) != op
  {
    forall i | 0 <= i < StepCount
      ensures Step(i) != op
    {
      StepKind(i);
    }
  }

  /** Frees of A and B, fclose and the releases are not made before the unwind, wherever the forward pass stops. */
  lemma AbsentBeforeUnwind(s: Script, k: nat, op: Op)
    requires k <= StepCount
    requires op.FreeA? || op.FreeB? || op.FClose? || IsRelease(op)
    ensures op !in BeforeUnwindAt(s, k)
  {
    NotAStep(op);
    NotInPrefix(if k == StepCount then k else k + 1, op);
    assert op !in ForwardCallsAt(k);
  }

  /** The unwind makes nothing but release calls. */
  lemma {:induction false} OnlyReleasesReleased(k: nat, order: seq<Obj>, n: nat, op: Op)
    requires n <= |order| && !IsRelease(op)
    ensures op !in ReleasedUpTo(k, order, n)
  {
    if n > 0 {
      OnlyReleasesReleased(k, order, n - 1, op);
      ReleaseKind(order[n - 1]);
    }
  }

  /** The device part releases each object once when it was created and never otherwise. */
  lemma PipelineReleasesOnce(s: Script, o: Obj)
    ensures multiset(PipelineCalls(s))[Release(o)] == Bit(Created(s, o))
  {
    ReleaseKind(o);
    AbsentBeforeUnwind(s, Stop(s), Release(o));
    EachCreatedObjectReleasedOnce(s, o);
  }

  /**
   Over the whole run, each OpenCL object is released once when it was
   created and never otherwise; nothing is released when the host-side
   allocations or the kernel file fail.
   */
  lemma EachObjectReleasedOnceInRun(s: Script, o: Obj)
    ensures multiset(Calls(s))[Release(o)] == Bit(HostReady(s) && Created(s, o))
  {
    PipelineReleasesOnce(s, o);
    OnceAround(s, PipelineCalls(s), Release(o), Created(s, o));
  }

  /** A creating call is among the forward calls of a pass stopped at step k exactly when its step is not after k. */
  lemma CreatorCalledAt(k: nat, o: Obj)
    requires k <= StepCount
    ensures Creator(o) in ForwardCallsAt(k) <==> CreatorIndex(o) <= k
  {
    CreatorIndexCreates(o);
    var m := if k == StepCount then k else k + 1;
    if CreatorIndex(o) < m {
      assert Prefix(m)[CreatorIndex(o)] == Creator(o);
    } else {
      NotInPrefix(m, Creator(o));
    }
  }

  /**
   An object counts as created exactly when the trace holds its creating
   call and that call succeeded.
   */
  lemma CreatedMeansCreatorSucceeded(s: Script, o: Obj)
    ensures Created(s, o) <==> Creator(o) in ForwardCalls(s) && !Fails(s, Creator(o))
  {
    CreatorIndexCreates(o);
    CreatorCalledAt(Stop(s), o);
  }

  // ---------------------------------------------------------------------
  // Host-side memory and the kernel file
  // ---------------------------------------------------------------------

  /** free(source_str) is forward step FreeSourceStep: among the first m steps exactly when m passes it. */
  lemma FreeSourceInPrefix(m: nat)
    requires m <= StepCount
    ensures FreeSource in Prefix(m) <==> FreeSourceStep < m
  {
    if FreeSourceStep < m {
      assert Prefix(m)[FreeSourceStep] == FreeSource;
    } else {
      forall i | 0 <= i < m
        ensures Step(i) != FreeSource
      {
        StepKind(i);
      }
      NotInPrefix(m, FreeSource);
    }
  }

  /** free(source_str) appears once among the first m forward calls when m passes its step, and not at all otherwise. */
  lemma {:induction false} FreeSourceOnceInPrefix(m: nat)
    requires m <= StepCount
    ensures multiset(Prefix(m))[FreeSource] == Bit(FreeSourceStep < m)
  {
    if m > 0 {
      FreeSourceOnceInPrefix(m - 1);
      PrefixStep(m - 1);
      StepKind(m - 1);
    }
  }

  /** free(source_str) runs before the unwind exactly when the forward pass stopped after creating the program. */
  lemma FreeSourceBeforeUnwind(s: Script, k: nat)
    requires k <= StepCount && k != FreeSourceStep
    ensures FreeSource in BeforeUnwindAt(s, k) <==> CreatorIndex(Program) < k
    ensures multiset(BeforeUnwindAt(s, k))[FreeSource] == Bit(CreatorIndex(Program) < k)
  {
    FreeSourceInPrefix(if k == StepCount then k else k + 1);
    FreeSourceOnceInPrefix(if k == StepCount then k else k + 1);
  }

  /** free(C) runs before the unwind exactly when the forward pass completed and C could be allocated. */
  lemma FreeCBeforeUnwind(s: Script, k: nat)
    requires k <= StepCount
    ensures FreeC in BeforeUnwindAt(s, k) <==> k == StepCount && !Fails(s, MallocC)
    ensures multiset(BeforeUnwindAt(s, k))[FreeC] == Bit(k == StepCount && !Fails(s, MallocC))
  {
    NotAStep(FreeC);
    NotInPrefix(if k == StepCount then k else k + 1, FreeC);
    assert FreeC !in ForwardCallsAt(k);
  }

  /** The device part frees source_str exactly when the program object was created. */
  lemma PipelineFreesSource(s: Script)
    ensures FreeSource in PipelineCalls(s) <==> Created(s, Program)
    ensures multiset(PipelineCalls(s))[FreeSource] == Bit(Created(s, Program))
  {
    var k := Stop(s);
    OnlyReleasesReleased(k, ReleaseOrder, |ReleaseOrder|, FreeSource);
    FreeSourceBeforeUnwind(s, k);
  }

  /** The device part frees C exactly when the forward pass completed and C could be allocated. */
  lemma PipelineFreesC(s: Script)
    ensures FreeC in PipelineCalls(s) <==> Stop(s) == StepCount && !Fails(s, MallocC)
    ensures multiset(PipelineCalls(s))[FreeC] == Bit(Stop(s) == StepCount && !Fails(s, MallocC))
  {
    var k := Stop(s);
    OnlyReleasesReleased(k, ReleaseOrder, |ReleaseOrder|, FreeC);
    FreeCBeforeUnwind(s, k);
  }

  /** The device part neither frees A or B nor closes the kernel file. */
  lemma PipelineLeavesHost(s: Script, op: Op)
    requires op.FreeA? || op.FreeB? || op.FClose?
    ensures op !in PipelineCalls(s)
  {
    var k := Stop(s);
    AbsentBeforeUnwind(s, k, op);
    OnlyReleasesReleased(k, ReleaseOrder, |ReleaseOrder|, op);
  }

  /** Around a kernel-file part k, the allocations of A and B add one free(B), one free(A) and no other call but the two mallocs. */
  lemma ShellCount(k: seq<Op>, x: Op)
    requires x != MallocA && x != MallocB && x != FOpen && x != MallocSource
    ensures multiset([MallocA] + [MallocB] + k + [FreeB] + [FreeA])[x] == multiset(k)[x] + Bit(x == FreeB) + Bit(x == FreeA)
  {
  }

  /** The kernel-file part adds one fclose to the device calls when the file and source_str were obtained, and otherwise makes no call but the fopen and the malloc. */
  lemma KernelFileCount(s: Script, device: seq<Op>, x: Op)
    requires x != MallocA && x != MallocB && x != FOpen && x != MallocSource
    ensures multiset(KernelFileCallsAround(s, device))[x]
      == if !Fails(s, FOpen) && !Fails(s, MallocSource) then multiset(device)[x] + Bit(x == FClose) else 0
  {
  }

  /**
   How often main() frees or closes x around the device calls: nothing
   when A could not be allocated, only A when B could not, and otherwise
   A, B, and, once the host part is ready, the kernel file plus whatever
   the device calls free.
   */
  lemma CountAround(s: Script, device: seq<Op>, x: Op)
    requires x != MallocA && x != MallocB && x != FOpen && x != MallocSource
    ensures multiset(CallsAround(s, device))[x] ==
      if Fails(s, MallocA) then 0
      else if Fails(s, MallocB) then Bit(x == FreeA)
      else Bit(x == FreeA) + Bit(x == FreeB) + (if HostReady(s) then Bit(x == FClose) + multiset(device)[x] else 0)
  {
    if !Fails(s, MallocA) && !Fails(s, MallocB) {
      ShellCount(KernelFileCallsAround(s, device), x);
      KernelFileCount(s, device, x);
    }
  }

  /** A call that main() itself never makes, and that the device calls make once exactly when present, happens once among all of main()'s calls exactly when the host part is ready too. */
  lemma OnceAround(s: Script, device: seq<Op>, x: Op, present: bool)
    requires x != MallocA && x != MallocB && x != FOpen && x != MallocSource && x != FreeA && x != FreeB && x != FClose
    requires multiset(device)[x] == Bit(present)
    ensures multiset(CallsAround(s, device))[x] == Bit(HostReady(s) && present)
    ensures x in CallsAround(s, device) <==> HostReady(s) && present
  {
    CountAround(s, device, x);
  }

  /**
   Around device calls that do not make it, main() frees A once exactly
   when A was allocated, frees B once exactly when A and B were, and
   closes the file once exactly when the host part is ready.
   */
  lemma HostOnceAround(s: Script, device: seq<Op>, x: Op, obtained: bool)
    requires || (x == FreeA && obtained == !Fails(s, MallocA))
             || (x == FreeB && obtained == (!Fails(s, MallocA) && !Fails(s, MallocB)))
             || (x == FClose && obtained == HostReady(s))
    requires x !in device
    ensures multiset(CallsAround(s, device))[x] == Bit(obtained)
    ensures x in CallsAround(s, device) <==> obtained
  {
    CountAround(s, device, x);
  }

  /**
   A is freed whenever it was allocated, B whenever it was allocated, and
   the kernel file is closed only once source_str could be allocated: a
   failing malloc of source_str leaves the file open.  Each happens at
   most once.
   */
  lemma HostBuffersFreed(s: Script)
    ensures multiset(Calls(s))[FreeA] == Bit(!Fails(s, MallocA))
    ensures multiset(Calls(s))[FreeB] == Bit(!Fails(s, MallocA) && !Fails(s, MallocB))
    ensures multiset(Calls(s))[FClose] == Bit(HostReady(s))
    ensures FreeA in Calls(s) <==> !Fails(s, MallocA)
    ensures FreeB in Calls(s) <==> !Fails(s, MallocA) && !Fails(s, MallocB)
    ensures FClose in Calls(s) <==> HostReady(s)
  {
    PipelineLeavesHost(s, FreeA);
    HostOnceAround(s, PipelineCalls(s), FreeA, !Fails(s, MallocA));
    PipelineLeavesHost(s, FreeB);
    HostOnceAround(s, PipelineCalls(s), FreeB, !Fails(s, MallocA) && !Fails(s, MallocB));
    PipelineLeavesHost(s, FClose);
    HostOnceAround(s, PipelineCalls(s), FClose, HostReady(s));
  }

  /**
   source_str is freed only once the program object was created, so a
   failure before clCreateProgramWithSource succeeds leaves it allocated;
   C is freed whenever it was allocated.
   */
  lemma SourceAndResultFreed(s: Script)
    ensures FreeSource in Calls(s) <==> HostReady(s) && Created(s, Program)
    ensures FreeC in Calls(s) <==> HostReady(s) && Stop(s) == StepCount && !Fails(s, MallocC)
    ensures multiset(Calls(s))[FreeSource] == Bit(HostReady(s) && Created(s, Program))
    ensures multiset(Calls(s))[FreeC] == Bit(HostReady(s) && Stop(s) == StepCount && !Fails(s, MallocC))
  {
    PipelineFreesSource(s);
    OnceAround(s, PipelineCalls(s), FreeSource, Created(s, Program));
    PipelineFreesC(s);
    OnceAround(s, PipelineCalls(s), FreeC, Stop(s) == StepCount && !Fails(s, MallocC));
  }

  // ---------------------------------------------------------------------
  // Failing releases
  // ---------------------------------------------------------------------

  /** Two fault scripts that agree on every call but the releases. */
  ghost predicate SameOutsideReleases(s: Script, t: Script)
  {
    forall op :: !IsRelease(op) ==> (Fails(s, op) <==> Fails(t, op))
  }

  lemma {:induction false} SameFirstFailure(s: Script, t: Script, i: nat)
    requires i <= StepCount && SameOutsideReleases(s, t)
    ensures FirstFailure(s, i) == FirstFailure(t, i)
    decreases StepCount - i
  {
    if i < StepCount {
      StepKind(i);
      assert Fails(s, Step(i)) <==> Fails(t, Step(i));
      SameFirstFailure(s, t, i + 1);
    }
  }

  /** The device part makes the same calls whichever releases fail. */
  lemma SamePipelineCalls(s: Script, t: Script)
    requires SameOutsideReleases(s, t)
    ensures PipelineCalls(s) == PipelineCalls(t)
  {
    SameFirstFailure(s, t, 0);
    assert Fails(s, MallocC) == Fails(t, MallocC);
    assert ReadBackCalls(s) == ReadBackCalls(t);
  }

  /**
   A failing release only moves control to the next label of the chain:
   whichever releases fail, main() makes the same calls, so every later
   release still runs.
   */
  lemma ReleaseFailuresDoNotChangeCalls(s: Script, t: Script)
    requires SameOutsideReleases(s, t)
    ensures Calls(s) == Calls(t)
  {
    SamePipelineCalls(s, t);
    assert Fails(s, MallocA) == Fails(t, MallocA) && Fails(s, MallocB) == Fails(t, MallocB);
    assert Fails(s, FOpen) == Fails(t, FOpen) && Fails(s, MallocSource) == Fails(t, MallocSource);
  }

  lemma {:induction false} NoReleaseErrors(s: Script, k: nat, order: seq<Obj>, n: nat)
    requires n <= |order|
    requires forall o :: !Fails(s, Release(o))
    ensures ReleaseErrorsUpTo(s, k, order, n) == 0
  {
    if n > 0 {
      NoReleaseErrors(s, k, order, n - 1);
      assert !Fails(s, Release(order[n - 1]));
    }
  }

  /** The errors counted before the unwind do not depend on the releases. */
  lemma SameErrorsBeforeUnwind(s: Script, t: Script, k: nat)
    requires SameOutsideReleases(s, t)
    ensures ErrorsBeforeUnwindAt(s, k) == ErrorsBeforeUnwindAt(t, k)
  {
    assert Fails(s, GetProgramBuildInfo) == Fails(t, GetProgramBuildInfo);
    assert Fails(s, MallocC) == Fails(t, MallocC) && Fails(s, EnqueueReadBuffer) == Fails(t, EnqueueReadBuffer);
    assert Fails(s, Flush) == Fails(t, Flush) && Fails(s, Finish) == Fails(t, Finish);
  }

  /**
   Failing releases add one error each to what the same run counts when
   every release succeeds, and nothing else.
   */
  lemma ReleaseFailuresOnlyAddErrors(s: Script, t: Script)
    requires SameOutsideReleases(s, t)
    requires forall o :: !Fails(t, Release(o))
    ensures Errors(s) == Errors(t) + (if HostReady(s) then ReleaseErrors(s) else 0)
  {
    SameFirstFailure(s, t, 0);
    SameErrorsBeforeUnwind(s, t, Stop(s));
    NoReleaseErrors(t, Stop(t), ReleaseOrder, |ReleaseOrder|);
    assert Fails(s, MallocA) == Fails(t, MallocA) && Fails(s, MallocB) == Fails(t, MallocB);
    assert Fails(s, FOpen) == Fails(t, FOpen) && Fails(s, MallocSource) == Fails(t, MallocSource);
  }

  // ---------------------------------------------------------------------
  // Where the unwind starts
  // ---------------------------------------------------------------------

  /** When the forward pass stops at step k, the unwind releases ReleaseOrder from the label step k leads to on. */
  lemma ReleasedWhenStoppedAt(k: nat)
    requires k <= StepCount && k != FreeSourceStep
    ensures ReleasedUpTo(k, ReleaseOrder, |ReleaseOrder|) == ReleaseCalls(ReleaseOrder[Position(EntryAt(k))..])
  {
    var start := Position(EntryAt(k));
    TargetIsBoundary(k);
    ReleaseOrderReversesCreation();
    CreatedFrom(ReleaseOrder, start, k);
    ChainReleasesCreated(ReleaseOrder, start, k, |ReleaseOrder|);
    ChainIsReleaseCalls(ReleaseOrder, start, |ReleaseOrder|);
    assert ReleaseOrder[start..|ReleaseOrder|] == ReleaseOrder[start..];
  }

  /** A failure at clGetPlatformIDs, clGetDeviceIDs or clCreateContext releases nothing. */
  lemma EarlyFailureReleasesNothing(s: Script)
    requires Stop(s) < 3
    ensures Releases(s) == []
  {
    var k := Stop(s);
    ReleasedWhenStoppedAt(k);
    assert Position(EntryAt(k)) == |ReleaseOrder|;
  }

  /** A failure at clCreateCommandQueue releases only the context. */
  lemma QueueFailureReleasesContext(s: Script)
    requires Stop(s) == 3
    ensures Releases(s) == [ReleaseContext]
  {
    ReleasedWhenStoppedAt(3);
    assert ReleaseOrder[6..] == [Context];
  }

  /** A failure at either clEnqueueWriteBuffer or at clCreateProgramWithSource releases the three buffers, the queue and the context. */
  lemma WriteOrProgramFailureReleasesBuffers(s: Script)
    requires 7 <= Stop(s) <= 9
    ensures Releases(s) == [ReleaseMemC, ReleaseMemB, ReleaseMemA, ReleaseCommandQueue, ReleaseContext]
  {
    ReleasedWhenBuffersCreated(Stop(s));
  }

  lemma ReleasedWhenBuffersCreated(k: nat)
    requires 7 <= k <= 9
    ensures ReleasedUpTo(k, ReleaseOrder, |ReleaseOrder|) == [ReleaseMemC, ReleaseMemB, ReleaseMemA, ReleaseCommandQueue, ReleaseContext]
  {
    ReleasedWhenStoppedAt(k);
    assert Position(EntryAt(k)) == 2;
    assert ReleaseOrder[2..] == [MemC, MemB, MemA, CommandQueue, Context];
  }

  /**
   A failing clBuildProgram releases the program and everything created
   before it, and counts an error only when fetching the build log fails
   too.
   */
  lemma BuildFailureReleasesProgram(s: Script)
    requires Stop(s) == BuildStep
    ensures Releases(s) == [ReleaseProgram, ReleaseMemC, ReleaseMemB, ReleaseMemA, ReleaseCommandQueue, ReleaseContext]
    ensures HostReady(s) ==> Errors(s) == Bit(Fails(s, GetProgramBuildInfo)) + ReleaseErrors(s)
  {
    ReleasedWhenProgramCreated();
  }

  lemma ReleasedWhenProgramCreated()
    ensures ReleasedUpTo(BuildStep, ReleaseOrder, |ReleaseOrder|)
         == [ReleaseProgram, ReleaseMemC, ReleaseMemB, ReleaseMemA, ReleaseCommandQueue, ReleaseContext]
  {
    ReleasedWhenStoppedAt(BuildStep);
    assert ReleaseOrder[1..] == [Program, MemC, MemB, MemA, CommandQueue, Context];
  }

  /**
   Once the kernel exists, a failing clSetKernelArg or
   clEnqueueNDRangeKernel, like a complete forward pass, releases every
   object.
   */
  lemma LateFailureReleasesEverything(s: Script)
    requires CreatorIndex(Kernel) < Stop(s)
    ensures Releases(s) == [ReleaseKernel, ReleaseProgram, ReleaseMemC, ReleaseMemB, ReleaseMemA,
                            ReleaseCommandQueue, ReleaseContext]
  {
    ReleasedWhenAllCreated(Stop(s));
  }

  lemma ReleasedWhenAllCreated(k: nat)
    requires CreatorIndex(Kernel) < k
    ensures ReleasedUpTo(k, ReleaseOrder, |ReleaseOrder|)
         == [ReleaseKernel, ReleaseProgram, ReleaseMemC, ReleaseMemB, ReleaseMemA, ReleaseCommandQueue, ReleaseContext]
  {
    ChainReleasesCreated(ReleaseOrder, 0, k, |ReleaseOrder|);
    ChainIsReleaseCalls(ReleaseOrder, 0, |ReleaseOrder|);
    assert ReleaseOrder[0..|ReleaseOrder|] == ReleaseOrder;
  }

  /** The read back and flush calls run before the unwind exactly when the forward pass completes. */
  lemma ReadBackBeforeUnwind(s: Script, k: nat, op: Op)
    requires k <= StepCount
    requires op.MallocC? || op.EnqueueReadBuffer? || op.Flush? || op.Finish?
    ensures op in BeforeUnwindAt(s, k) <==> k == StepCount && op in ReadBackCalls(s)
  {
    forall i | 0 <= i < StepCount
      ensures Step(i) != op
    {
    }
    NotInPrefix(if k == StepCount then k else k + 1, op);
    assert op !in ForwardCallsAt(k);
  }

  /** The device part makes the read-back calls exactly when the forward pass completes. */
  lemma ReadBackInPipeline(s: Script, op: Op)
    requires op.MallocC? || op.EnqueueReadBuffer? || op.Flush? || op.Finish?
    ensures op in PipelineCalls(s) <==> Stop(s) == StepCount && (op.EnqueueReadBuffer? ==> !Fails(s, MallocC))
  {
    var k := Stop(s);
    ReadBackBeforeUnwind(s, k, op);
    OnlyReleasesReleased(k, ReleaseOrder, |ReleaseOrder|, op);
  }

  /** main() itself makes no read-back call: one appears among all its calls exactly when the host part is ready and the device calls hold it. */
  lemma ReadBackAround(s: Script, device: seq<Op>, op: Op)
    requires op.MallocC? || op.EnqueueReadBuffer? || op.Flush? || op.Finish?
    ensures op in CallsAround(s, device) <==> HostReady(s) && op in device
  {
  }

  /** C is allocated only after a complete forward pass. */
  lemma ResultAllocatedAfterCompletePass(s: Script)
    ensures MallocC in Calls(s) <==> HostReady(s) && Stop(s) == StepCount
  {
    ReadBackInPipeline(s, MallocC);
    ReadBackAround(s, PipelineCalls(s), MallocC);
  }

  /** C is read back exactly when it could be allocated after a complete forward pass. */
  lemma ResultReadWhenAllocated(s: Script)
    ensures EnqueueReadBuffer in Calls(s) <==> HostReady(s) && Stop(s) == StepCount && !Fails(s, MallocC)
  {
    ReadBackInPipeline(s, EnqueueReadBuffer);
    ReadBackAround(s, PipelineCalls(s), EnqueueReadBuffer);
  }

  /**
   Flush and finish run exactly after a complete forward pass, even when
   C could not be allocated, its read failed or the flush failed.
   */
  lemma FlushAndFinishAfterCompletePass(s: Script)
    ensures Flush in Calls(s) <==> HostReady(s) && Stop(s) == StepCount
    ensures Finish in Calls(s) <==> HostReady(s) && Stop(s) == StepCount
  {
    ReadBackInPipeline(s, Flush);
    ReadBackAround(s, PipelineCalls(s), Flush);
    ReadBackInPipeline(s, Finish);
    ReadBackAround(s, PipelineCalls(s), Finish);
  }
}
