/**
 The check-and-jump macros of errorchecking/check_opencl.h.

 DECLARE_CHECK opens a scope with three locals: the error counter
 CHECK_errors, the last OpenCL status CHECK_ret and the last malloc result
 CHECK_malloc_tmp.  Every other macro updates them and then either falls
 through to the next statement or jumps to the label it was given.  The
 scope is modelled as a class whose fields are those three locals; a jump
 is returned as a Flow value naming the label.
 */
module CheckOpenCL {

  /** The value at which CHECK_errors stops counting. */
  const Ceiling: int := 64

  /** Where control goes after a check: on to the next statement, or to the macro's label. */
  datatype Flow<L> = FallThrough | Goto(target: L)

  /** What malloc hands back: the null pointer or the address of a block. */
  datatype Ptr = Null | Block(address: nat)

  /** inc_CHECK_errors applied to a counter value n. */
  function Bump(n: int): (r: int)
    ensures 0 <= n <= Ceiling ==> n <= r <= Ceiling
    ensures 0 <= n < Ceiling ==> r == n + 1
  {
    if n < Ceiling then n + 1 else n
  }

  /** The counter after k consecutive failures reported through inc_CHECK_errors. */
  function BumpTimes(n: int, k: nat): int
  {
    if k == 0 then n else Bump(BumpTimes(n, k - 1))
  }

  /** Any number of failures leaves the counter at the ceiling, never above it. */
  lemma {:induction false} BumpsSaturate(n: int, k: nat)
    requires 0 <= n <= Ceiling
    ensures BumpTimes(n, k) == if n + k < Ceiling then n + k else Ceiling
  {
    if k > 0 {
      BumpsSaturate(n, k - 1);
    }
  }

  /** The locals declared by DECLARE_CHECK. */
  class Scope {
    var errors: int     // CHECK_errors
    var ret: int        // CHECK_ret, a cl_int status, 0 meaning success
    var mallocTmp: Ptr  // CHECK_malloc_tmp

    /** How many failures the macros have reported in this scope. */
    ghost var failures: nat

    /** The counter is the number of reported failures, saturated at the ceiling. */
    ghost predicate Valid()
      reads this
    {
      errors == if failures < Ceiling then failures else Ceiling
    }

    /** DECLARE_CHECK: a fresh counter at 0; CHECK_ret and CHECK_malloc_tmp are left without a chosen value. */
    constructor Declare()
      ensures Valid() && errors == 0 && failures == 0
    {
      errors := 0;
      failures := 0;
    }

    /** inc_CHECK_errors: count one failure, but only while the counter is below the ceiling. */
    method IncErrors()
      requires Valid()
      modifies this`errors, this`failures
      ensures Valid() && 0 <= errors <= Ceiling
      ensures failures == old(failures) + 1
      ensures errors == Bump(old(errors))
    {
      if errors < Ceiling {
        errors := errors + 1;
      }
      failures := failures + 1;
    }

    /** CHECKRET_(callstr, exitlabel): on a non-zero CHECK_ret, report, count and jump to exitlabel. */
    method CheckRet<L(==)>(exitLabel: L) returns (flow: Flow<L>)
      requires Valid()
      modifies this`errors, this`failures
      ensures Valid()
      ensures ret == 0 ==> flow == FallThrough && errors == old(errors) && failures == old(failures)
      ensures ret != 0 ==> flow == Goto(exitLabel) && errors == Bump(old(errors)) && failures == old(failures) + 1
    {
      if ret != 0 {
        IncErrors();
        flow := Goto(exitLabel);
      } else {
        flow := FallThrough;
      }
    }

    /**
     CHECK_malloc(siz, lbl): keep malloc's result in CHECK_malloc_tmp; on the
     null pointer, report, count and jump to lbl.
     */
    method CheckMalloc<L(==)>(result: Ptr, lbl: L) returns (flow: Flow<L>)
      requires Valid()
      modifies this`errors, this`failures, this`mallocTmp
      ensures Valid() && mallocTmp == result
      ensures result == Null ==> flow == Goto(lbl) && errors == Bump(old(errors)) && failures == old(failures) + 1
      ensures result != Null ==> flow == FallThrough && errors == old(errors) && failures == old(failures)
    {
      mallocTmp := result;
      if mallocTmp == Null {
        IncErrors();
        flow := Goto(lbl);
      } else {
        flow := FallThrough;
      }
    }

    /**
     Any CHECK_cl* wrapper: the OpenCL call's status, whether the call
     returns it or writes it through its last argument, is stored in
     CHECK_ret and then checked as CHECKRET_ does.  The wrappers differ only
     in the call they make and the name they print.
     */
    method CheckCall<L(==)>(status: int, lbl: L) returns (flow: Flow<L>)
      requires Valid()
      modifies this`ret, this`errors, this`failures
      ensures Valid() && ret == status
      ensures status == 0 ==> flow == FallThrough && errors == old(errors) && failures == old(failures)
      ensures status != 0 ==> flow == Goto(lbl) && errors == Bump(old(errors)) && failures == old(failures) + 1
    {
      ret := status;
      flow := CheckRet(lbl);
    }
  }
}
