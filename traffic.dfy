/**
 * Bus traffic under the fault oracle. An operation "follows a plan" when it
 * issues the planned accesses in order, stops right after the first one that
 * fails and returns that access's error, and succeeds when none fails. Plans
 * compose: an operation that runs a second step only after the first
 * succeeded follows the concatenation of the two plans.
 */
module Traffic {
  import opened Wrappers
  import opened Registers
  import opened Interface
  import opened Bus
  import opened DriverSpec

  /** The trace after a plan was issued, and the error of the access that failed, if one did. */
  datatype Issued = Issued(trace: seq<Access>, failure: Option<I2cError>)

  /** Issue the accesses of `plan` on top of `trace`, stopping after the first that fails. */
  function Issue(f: Faults, trace: seq<Access>, plan: seq<Access>): (r: Issued)
    ensures trace <= r.trace && |r.trace| <= |trace| + |plan|
    ensures r.failure.None? ==> r.trace == trace + plan
    ensures r.failure.Some? ==> |trace| < |r.trace| && |r.trace| - 1 in f && r.failure.value == f[|r.trace| - 1]
    decreases |plan|
  {
    if plan == [] then Issued(trace, None)
    else if |trace| in f then Issued(trace + [plan[0]], Some(f[|trace|]))
    else
      var r := Issue(f, trace + [plan[0]], plan[1..]);
      assert trace + [plan[0]] + plan[1..] == trace + plan;
      r
  }

  /** How many of the `count` accesses starting at trace position `from` succeed before the first fault. */
  function FirstFault(f: Faults, from: nat, count: nat): (k: nat)
    ensures k <= count
    ensures k < count ==> from + k in f
    decreases count
  {
    if count == 0 then 0
    else if from in f then 0
    else 1 + FirstFault(f, from + 1, count - 1)
  }

  /** `FirstFault` finds a fault-free stretch: no access before the first fault fails. */
  lemma {:induction false} FirstFaultClear(f: Faults, from: nat, count: nat)
    ensures Clear(f, from, FirstFault(f, from, count))
    decreases count
  {
    if count > 0 && from !in f {
      FirstFaultClear(f, from + 1, count - 1);
    }
  }

  /**
   * Issuing a plan, stated by the index of its first failing access: all of
   * it without error, or the accesses up to and including the first failing
   * one, with that access's error.
   */
  lemma {:induction false} IssueByFirstFault(f: Faults, trace: seq<Access>, plan: seq<Access>)
    ensures var k := FirstFault(f, |trace|, |plan|);
      Issue(f, trace, plan)
        == if k == |plan| then Issued(trace + plan, None)
           else Issued(trace + plan[..k + 1], Some(f[|trace| + k]))
    decreases |plan|
  {
    if plan != [] && |trace| !in f {
      var t := trace + [plan[0]];
      IssueByFirstFault(f, t, plan[1..]);
      var k := FirstFault(f, |t|, |plan| - 1);
      assert FirstFault(f, |trace|, |plan|) == 1 + k;
      assert Issue(f, trace, plan) == Issue(f, t, plan[1..]);
      if k < |plan| - 1 {
        assert t + plan[1..][..k + 1] == trace + plan[..k + 2];
      } else {
        assert t + plan[1..] == trace + plan;
      }
    }
  }

  /** Issuing a concatenation: the second plan runs only if the first issued without error. */
  lemma {:induction false} IssueAppend(f: Faults, trace: seq<Access>, plan1: seq<Access>, plan2: seq<Access>)
    ensures var r1 := Issue(f, trace, plan1);
      Issue(f, trace, plan1 + plan2) == if r1.failure.Some? then r1 else Issue(f, r1.trace, plan2)
    decreases |plan1|
  {
    if plan1 == [] {
      assert plan1 + plan2 == plan2;
    } else {
      var plan := plan1 + plan2;
      assert plan[0] == plan1[0];
      assert plan[1..] == plan1[1..] + plan2;
      if |trace| !in f {
        IssueAppend(f, trace + [plan1[0]], plan1[1..], plan2);
      }
    }
  }

  /** The run's trace and result are what issuing `plan` from `s` gives. */
  ghost predicate FollowsPlan<T>(s: DriverState, f: Faults, plan: seq<Access>, run: Run<T>)
  {
    var r := Issue(f, s.bus.trace, plan);
    && run.state.bus.trace == r.trace
    && (if r.failure.None? then run.result.Ok? else run.result == Err(I2c(r.failure.value)))
  }

  /** What following a plan means, stated by the index of the first failing access. */
  lemma FollowsPlanByFirstFault<T>(s: DriverState, f: Faults, plan: seq<Access>, run: Run<T>)
    requires FollowsPlan(s, f, plan, run)
    ensures var n := |s.bus.trace|;
      var k := FirstFault(f, n, |plan|);
      && (k == |plan| ==> run.result.Ok? && run.state.bus.trace == s.bus.trace + plan)
      && (k < |plan| ==> run.result == Err(I2c(f[n + k])) && run.state.bus.trace == s.bus.trace + plan[..k + 1])
  {
    IssueByFirstFault(f, s.bus.trace, plan);
  }

  /** A failed first step, passed on unchanged by `?`. */
  function Abort<U, T>(first: Run<U>): (r: Run<T>)
    requires first.result.Err?
    ensures r.state == first.state && r.result.Err? && r.result.error == first.result.error
  {
    Run(first.state, Err(first.result.error))
  }

  /**
   * Sequential composition: when the second step runs only after the first
   * succeeded and the first error is passed on, the whole follows the
   * concatenated plan.
   */
  lemma Compose<U, T>(s: DriverState, f: Faults, plan1: seq<Access>, first: Run<U>,
                   plan2: seq<Access>, second: Run<T>, whole: Run<T>)
    requires FollowsPlan(s, f, plan1, first)
    requires first.result.Err? ==> whole == Abort(first)
    requires first.result.Ok? ==> FollowsPlan(first.state, f, plan2, second) && whole == second
    ensures FollowsPlan(s, f, plan1 + plan2, whole)
  {
    IssueAppend(f, s.bus.trace, plan1, plan2);
  }

  lemma ReadFollowsPlan(s: DriverState, f: Faults, r: Register)
    ensures FollowsPlan(s, f, [Read(r)], ReadReg(s, f, r))
  {
    assert [Read(r)][1..] == [];
  }

  lemma WriteFollowsPlan(s: DriverState, f: Faults, v: RegValue)
    ensures FollowsPlan(s, f, [Write(v)], WriteReg(s, f, v))
  {
    assert [Write(v)][1..] == [];
  }

  /** The edited value a read-modify-write writes back. */
  function Edited(d: DeviceRegs, e: Edit): RegValue
  {
    Apply(e, Load(d, Target(e)))
  }

  /** A read-modify-write reads its register and writes back the edited value, stopping at a failed read. */
  lemma ModifyFollowsPlan(s: DriverState, f: Faults, e: Edit)
    ensures FollowsPlan(s, f, [Read(Target(e)), Write(Edited(s.bus.regs, e))], ModifyReg(s, f, e))
  {
    var plan := [Read(Target(e)), Write(Edited(s.bus.regs, e))];
    assert plan[1..] == [Write(Edited(s.bus.regs, e))];
    assert plan[1..][1..] == [];
  }
}
