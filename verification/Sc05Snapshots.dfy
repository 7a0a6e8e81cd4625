/** Snapshots and foreign changes: over any number of executions of one operation, with any failures
    and any outside edits, a recorded state never changes, both states are recorded together, and
    nothing is changed in a portal that was not seen, just before and in the same execution, in the
    state the program believes it to be in. */
module Sc05Snapshots {
  import opened Options
  import opened Sc05Portals
  import opened Sc05Saga

  predicate Paired(step: Step) {
    step.before.Some? <==> step.desired.Some?
  }

  /** A later version of a step row: what was recorded is still recorded. */
  predicate Keeps(s: Step, s': Step) {
    && s'.portal == s.portal
    && (s.before.Some? ==> s'.before == s.before && s'.desired == s.desired)
  }

  predicate AllKept(steps: seq<Step>, steps': seq<Step>) {
    |steps| == |steps'| && forall i :: 0 <= i < |steps| ==> Keeps(steps[i], steps'[i])
  }

  /** Call number `k` is allowed by the call just before it. */
  predicate CallGuarded(steps: seq<Step>, trace: seq<CallRecord>, start: nat, k: nat)
    requires k < |trace|
  {
    forall i :: 0 <= i < |steps| && steps[i].portal == trace[k].portal ==>
      match trace[k].request
      case Inspect => true
      case Apply(_) =>
        start < k && steps[i].before.Some? &&
        trace[k - 1] == CallRecord(trace[k].portal, Inspect, steps[i].before)
      case Restore(expected, target) =>
        start < k && steps[i].before == Some(target) && steps[i].desired == Some(expected) &&
        trace[k - 1] == CallRecord(trace[k].portal, Inspect, steps[i].desired)
  }

  /** Every call since position `start` of the log is guarded. */
  predicate Guarded(steps: seq<Step>, trace: seq<CallRecord>, start: nat) {
    forall k :: start <= k < |trace| ==> CallGuarded(steps, trace, start, k)
  }

  predicate Consistent(job: Job, x: Exec, start: nat) {
    && Shaped(job, x.steps)
    && (forall i :: 0 <= i < 3 ==> Paired(x.steps[i]))
    && start <= |x.trace|
    && Guarded(x.steps, x.trace, start)
  }

  predicate SeenAs(x: Exec, start: nat, portal: Portal, state: PortalState) {
    start < |x.trace| && x.trace[|x.trace| - 1] == CallRecord(portal, Inspect, Some(state))
  }

  lemma GuardedStepsChange(steps: seq<Step>, steps': seq<Step>, trace: seq<CallRecord>, start: nat)
    requires Guarded(steps, trace, start) && AllKept(steps, steps')
    ensures Guarded(steps', trace, start)
  {
    forall k | start <= k < |trace|
      ensures CallGuarded(steps', trace, start, k)
    {
      assert CallGuarded(steps, trace, start, k);
    }
  }

  lemma GuardedExtend(steps: seq<Step>, trace: seq<CallRecord>, start: nat, record: CallRecord)
    requires Guarded(steps, trace, start)
    requires CallGuarded(steps, trace + [record], start, |trace|)
    ensures Guarded(steps, trace + [record], start)
  {
    var trace' := trace + [record];
    forall k | start <= k < |trace'|
      ensures CallGuarded(steps, trace', start, k)
    {
      if k < |trace| {
        assert CallGuarded(steps, trace, start, k);
      }
    }
  }

  lemma InvokeConsistent(job: Job, plan: Plan, x: Exec, phase: Phase, portal: Portal, request: Request, start: nat)
    requires Consistent(job, x, start)
    requires CallGuarded(x.steps, x.trace + [CallRecord(portal, request, None)], start, |x.trace|)
    ensures var (x', signal) := Invoke(job, plan, x, phase, portal, request);
            Consistent(job, x', start) && x'.steps == x.steps &&
            (request.Inspect? && signal.Done? ==> SeenAs(x', start, portal, signal.value))
  {
    var (x', signal) := Invoke(job, plan, x, phase, portal, request);
    if x'.trace != x.trace {
      var record := x'.trace[|x.trace|];
      assert x'.trace == x.trace + [record];
      GuardedExtend(x.steps, x.trace, start, record);
    }
  }

  lemma UpdateConsistent(job: Job, x: Exec, i: nat, step: Step, start: nat)
    requires Consistent(job, x, start) && i < 3
    requires Keeps(x.steps[i], step) && Paired(step)
    ensures Consistent(job, x.(steps := x.steps[i := step]), start)
    ensures AllKept(x.steps, x.steps[i := step])
  {
    GuardedStepsChange(x.steps, x.steps[i := step], x.trace, start);
  }

  lemma ApplyRecordedConsistent(job: Job, plan: Plan, x: Exec, i: nat, prior: StepStatus, observed: PortalState,
                                desired: PortalState, start: nat)
    requires Consistent(job, x, start) && i < 3
    requires x.steps[i].before.Some? && (observed == desired || x.steps[i].before == Some(observed))
    requires SeenAs(x, start, x.steps[i].portal, observed)
    ensures var x' := ApplyRecorded(job, plan, x, i, prior, observed, desired).0;
            Consistent(job, x', start) && AllKept(x.steps, x'.steps)
  {
    var step := x.steps[i];
    if observed == desired {
      UpdateConsistent(job, x, i,
                       step.(status := if prior == Applied || prior == CompensationFailed then Applied else Unchanged),
                       start);
    } else {
      InvokeConsistent(job, plan, x, ApplyPhase, step.portal, Apply(job.action), start);
      var x1 := Invoke(job, plan, x, ApplyPhase, step.portal, Apply(job.action)).0;
      UpdateConsistent(job, x1, i, step.(status := Applied), start);
    }
  }

  lemma ApplyObservedConsistent(job: Job, plan: Plan, x: Exec, i: nat, prior: StepStatus, observed: PortalState,
                                start: nat)
    requires Consistent(job, x, start) && i < 3
    requires SeenAs(x, start, x.steps[i].portal, observed)
    ensures var x' := ApplyObserved(job, plan, x, i, prior, observed).0;
            Consistent(job, x', start) && AllKept(x.steps, x'.steps)
  {
    var step := x.steps[i];
    var first := step.before.None?;
    if first && InitialStateError(job, step.portal, observed).Some? {
      return;
    }
    var desired := if !first then step.desired else DesiredState(job, step.portal, observed);
    if desired.None? {
      return;
    }
    var before := if first then observed else step.before.value;
    var step1 := step.(before := Some(before), desired := desired);
    UpdateConsistent(job, x, i, step1, start);
    var x1 := x.(steps := x.steps[i := step1]);
    if !first && observed != before && observed != desired.value {
      return;
    }
    ApplyRecordedConsistent(job, plan, Checkpoint(plan, x1, ApplyPhase).0, i, prior, observed, desired.value, start);
  }

  lemma ApplyStepConsistent(job: Job, plan: Plan, x: Exec, i: nat, start: nat)
    requires Consistent(job, x, start) && i < 3
    ensures var x' := ApplyStep(job, plan, x, i).0;
            Consistent(job, x', start) && AllKept(x.steps, x'.steps)
  {
    UpdateConsistent(job, x, i, x.steps[i].(status := Running), start);
    var x0 := SetStatus(x, i, Running);
    InvokeConsistent(job, plan, x0, ApplyPhase, x.steps[i].portal, Inspect, start);
    var (x1, observed) := Invoke(job, plan, x0, ApplyPhase, x.steps[i].portal, Inspect);
    if observed.Done? {
      ApplyObservedConsistent(job, plan, x1, i, x.steps[i].status, observed.value, start);
    }
  }

  lemma {:induction false} RunForwardConsistent(job: Job, plan: Plan, x: Exec, i: nat, start: nat)
    requires Consistent(job, x, start) && i <= 3
    ensures var x' := RunForward(job, plan, x, i).0;
            Consistent(job, x', start) && AllKept(x.steps, x'.steps)
    decreases 3 - i
  {
    if i == 3 {
      return;
    }
    var (x0, current) := Checkpoint(plan, x, ApplyPhase);
    if current.Died? {
      return;
    }
    ApplyStepConsistent(job, plan, x0, i, start);
    var (x1, signal) := ApplyStep(job, plan, x0, i);
    if signal.Done? {
      RunForwardConsistent(job, plan, x1, i + 1, start);
    } else if signal.Raised? {
      var (x2, alive) := Checkpoint(plan, x1, ApplyPhase);
      UpdateConsistent(job, x2, i, x2.steps[i].(status := StepFailed), start);
    }
  }

  lemma CompensateStepConsistent(job: Job, plan: Plan, x: Exec, i: nat, start: nat)
    requires Consistent(job, x, start) && i < 3
    requires x.steps[i].before.Some?
    ensures var x' := CompensateStep(job, plan, x, i).0;
            Consistent(job, x', start) && AllKept(x.steps, x'.steps)
  {
    var step := x.steps[i];
    InvokeConsistent(job, plan, x, CompensationPhase, step.portal, Inspect, start);
    var (x1, current) := Invoke(job, plan, x, CompensationPhase, step.portal, Inspect);
    UpdateConsistent(job, x1, i, step.(status := CompensationFailed), start);
    UpdateConsistent(job, x1, i, step.(status := Compensated), start);
    if current.Done? && current.value != step.before.value && current.value == step.desired.value {
      var request := Restore(current.value, step.before.value);
      InvokeConsistent(job, plan, x1, CompensationPhase, step.portal, request, start);
      var (x2, restored) := Invoke(job, plan, x1, CompensationPhase, step.portal, request);
      UpdateConsistent(job, x2, i, step.(status := CompensationFailed), start);
      UpdateConsistent(job, x2, i, step.(status := Compensated), start);
    }
  }

  lemma {:induction false} CompensateConsistent(job: Job, plan: Plan, x: Exec, n: nat, start: nat)
    requires Consistent(job, x, start) && n <= 3
    ensures var x' := Compensate(job, plan, x, n).0;
            Consistent(job, x', start) && AllKept(x.steps, x'.steps)
    decreases n
  {
    if n == 0 {
      return;
    }
    if x.steps[n - 1].before.None? {
      CompensateConsistent(job, plan, x, n - 1, start);
    } else {
      CompensateStepConsistent(job, plan, x, n - 1, start);
      var (x1, undone) := CompensateStep(job, plan, x, n - 1);
      if undone.Done? {
        CompensateConsistent(job, plan, x1, n - 1, start);
      }
    }
  }

  /** One execution, whatever happens during it. */
  lemma ExecutionKeepsSnapshots(job: Job, plan: Plan, session: bool, x: Exec)
    requires Shaped(job, x.steps)
    requires forall i :: 0 <= i < 3 ==> Paired(x.steps[i])
    ensures var x' := Execute(job, plan, session, x).0;
            && AllKept(x.steps, x'.steps)
            && Consistent(job, x', |x.trace|)
  {
    if session {
      RunForwardConsistent(job, plan, x, 0, |x.trace|);
      var (x1, forward) := RunForward(job, plan, x, 0);
      if forward.FailedAt? {
        CompensateConsistent(job, plan, x1, forward.index + 1, |x.trace|);
      }
    }
  }
}
