/** What the step rows remember. A compensation that could not be completed is never forgotten: a later execution that
    cannot even open its session still reports the client as partial. One that was completed leaves nothing behind. */
module Sc05Residue {
  import opened Options
  import opened Sc05Portals
  import opened Sc05Saga
  import opened Sc05Snapshots
  import opened Sc05Operations
  import opened Sc05Compensation
  import Runs

  /** Some compensation below position `n` is on record as failed. */
  ghost predicate FailureOnRecord(steps: seq<Step>, from: nat, to: nat) {
    exists i :: from <= i < to <= |steps| && steps[i].status == CompensationFailed
  }

  lemma CompensateStepRemembers(job: Job, plan: Plan, x: Exec, i: nat)
    requires i < |x.steps| && x.steps[i].before.Some? && x.steps[i].desired.Some?
    ensures var (x', undone) := CompensateStep(job, plan, x, i);
            && |x'.steps| == |x.steps| && (forall j :: 0 <= j < |x.steps| && j != i ==> x'.steps[j] == x.steps[j])
            && x'.steps[i] == x.steps[i].(status := x'.steps[i].status)
            && (undone == Done(false) ==> x'.steps[i].status == CompensationFailed)
            && (undone == Done(true) ==>
                x'.steps[i].status == Compensated ||
                    (x.steps[i].status == StepFailed && x'.steps[i].status == StepFailed))
  {
  }

  /** A restoration is either found, by one inspection, and then a failed step stays failed; or it is made, by a command
      that the portal confirms. */
  lemma RestorationMeans(job: Job, plan: Plan, x: Exec, i: nat)
    requires i < |x.steps| && x.steps[i].before.Some? && x.steps[i].desired.Some?
    requires CompensateStep(job, plan, x, i).1 == Done(true)
    ensures var x' := CompensateStep(job, plan, x, i).0;
            var step := x.steps[i];
            var found := CallRecord(step.portal, Inspect, step.before);
            var seen := CallRecord(step.portal, Inspect, step.desired);
            var made := CallRecord(step.portal, Restore(step.desired.value, step.before.value), step.before);
            || (x'.trace == x.trace + [found] &&
                x'.steps[i].status == if step.status == StepFailed then StepFailed else Compensated)
            || (x'.trace == x.trace + [seen, made] && x'.steps[i].status == Compensated)
  {
    var step := x.steps[i];
    var x1 := Invoke(job, plan, x, CompensationPhase, step.portal, Inspect).0;
    var request := Restore(step.desired.value, step.before.value);
    var x2 := Invoke(job, plan, x1, CompensationPhase, step.portal, request).0;
    assert x.trace + [CallRecord(step.portal, Inspect, step.desired)] + [CallRecord(step.portal, request, step.before)]
        == x.trace + [CallRecord(step.portal, Inspect, step.desired), CallRecord(step.portal, request, step.before)];
  }

  /** Positions from `n` on are not looked at; below it, every failure is on record, and without one every recorded
      position is compensated, or failed and found as it had been. */
  ghost predicate Remembered(x: Exec, x': Exec, n: nat, undone: Signal<bool>) {
    && |x'.steps| == |x.steps|
    && (forall j :: n <= j < |x.steps| ==> x'.steps[j] == x.steps[j])
    && (undone == Done(false) ==> FailureOnRecord(x'.steps, 0, n))
    && (undone == Done(true) ==> forall j :: 0 <= j < n && j < |x.steps| ==>
          if x.steps[j].before.None? || x.steps[j].desired.None? then x'.steps[j] == x.steps[j]
          else (x'.steps[j].status == Compensated ||
                (x.steps[j].status == StepFailed && x'.steps[j].status == StepFailed)))
  }

  lemma {:induction false} CompensateRemembers(job: Job, plan: Plan, x: Exec, n: nat)
    requires n <= |x.steps|
    ensures Remembered(x, Compensate(job, plan, x, n).0, n, Compensate(job, plan, x, n).1)
    decreases n
  {
    if n == 0 {
      return;
    }
    var (x', undone) := Compensate(job, plan, x, n);
    if x.steps[n - 1].before.None? || x.steps[n - 1].desired.None? {
      CompensateRemembers(job, plan, x, n - 1);
      Widened(x'.steps, n - 1, n);
    } else {
      CompensateStepRemembers(job, plan, x, n - 1);
      var (x1, first) := CompensateStep(job, plan, x, n - 1);
      if !first.Died? {
        CompensateRemembers(job, plan, x1, n - 1);
        var (x2, rest) := Compensate(job, plan, x1, n - 1);
        RememberedNext(x, x1, x2, n, first, rest);
      }
    }
  }

  lemma RememberedNext(x: Exec, x1: Exec, x2: Exec, n: nat, first: Signal<bool>, rest: Signal<bool>)
    requires 0 < n <= |x.steps| && x.steps[n - 1].before.Some? && x.steps[n - 1].desired.Some?
    requires |x1.steps| == |x.steps| && (forall j :: 0 <= j < |x.steps| && j != n - 1 ==> x1.steps[j] == x.steps[j])
    requires first.Done? && (first == Done(false) ==> x1.steps[n - 1].status == CompensationFailed)
    requires first == Done(true) ==>
               x1.steps[n - 1].status == Compensated ||
                   (x.steps[n - 1].status == StepFailed && x1.steps[n - 1].status == StepFailed)
    requires !rest.Raised? && Remembered(x1, x2, n - 1, rest)
    ensures Remembered(x, x2, n, if rest.Died? then Died else Done(first.value && rest.value))
  {
    assert x2.steps[n - 1] == x1.steps[n - 1];
    if first == Done(false) {
      assert FailureOnRecord(x2.steps, 0, n);
    } else if rest == Done(false) {
      Widened(x2.steps, n - 1, n);
    }
  }

  lemma Widened(steps: seq<Step>, n: nat, m: nat)
    requires n <= m <= |steps|
    ensures FailureOnRecord(steps, 0, n) ==> FailureOnRecord(steps, 0, m)
  {
  }

  lemma FailureIsResidual(steps: seq<Step>, n: nat)
    requires FailureOnRecord(steps, 0, n)
    ensures HasResidualState(steps)
  {
    var i :| 0 <= i < n <= |steps| && steps[i].status == CompensationFailed;
    assert steps[i] in steps;
  }

  /** An execution that reports residual state leaves step rows that say so. */
  lemma ResidueIsOnRecord(job: Job, plan: Plan, session: bool, x: Exec)
    requires |x.steps| == 3
    ensures var (x', verdict) := Execute(job, plan, session, x);
            verdict.Failure? && verdict.residual ==> HasResidualState(x'.steps)
  {
    if session {
      var (x1, forward) := RunForward(job, plan, x, 0);
      if forward.FailedAt? {
        var n := forward.index + 1;
        CompensateRemembers(job, plan, x1, n);
        var (x2, undone) := Compensate(job, plan, x1, n);
        if undone == Done(false) {
          FailureIsResidual(x2.steps, n);
        }
      }
    }
  }

  /** A partially failed execution is not forgotten: whatever session-less executions follow its resumption, the run
      stays partially failed and the client partial. */
  lemma PartialFailureIsRemembered(history: seq<Operation>, s: Saga, plan: Plan, session: bool,
                                   later: seq<Operation>, again: Plan)
    requires WellShaped(s.operation)
    requires ExecuteOperation(history, s, plan, session).operation.status == Runs.PartiallyFailed
    ensures ExecuteOperation(history, s, plan, session).client.status == Runs.Partial
    ensures var s' := ExecuteOperation(later, Resume(ExecuteOperation(history, s, plan, session)), again, false);
            s'.operation.status == Runs.PartiallyFailed && s'.client.status == Runs.Partial
  {
    ResidueIsOnRecord(JobOf(history, s.operation, s.client), plan, session,
                      Exec(s.world, s.operation.steps, 0, s.trace));
  }

  /** Without a session, only a step row that is running, applied or could not be compensated tells of a change. */
  lemma SessionlessOutcome(history: seq<Operation>, s: Saga, plan: Plan)
    ensures var s' := ExecuteOperation(history, s, plan, false);
            && s'.world == s.world && s'.trace == s.trace && s'.operation.steps == s.operation.steps
            && (s'.operation.status == Runs.PartiallyFailed <==> s'.client.status == Runs.Partial)
            && (s'.operation.status == Runs.PartiallyFailed <==>
                exists i :: 0 <= i < |s.operation.steps| &&
                  s.operation.steps[i].status in {Running, Applied, CompensationFailed})
            && (s'.operation.status == Runs.PartiallyFailed || s'.operation.status == Runs.Failed)
  {
    var steps := s.operation.steps;
    if HasResidualState(steps) {
      var step :| step in steps && (step.status == Running || step.status == Applied ||
                                    step.status == CompensationFailed);
      var i :| 0 <= i < |steps| && steps[i] == step;
      assert steps[i].status in {Running, Applied, CompensationFailed};
    }
  }

  /** And so on: over any number of such resumptions. */
  function ResumedWithoutSession(history: seq<Operation>, s: Saga, plans: seq<Plan>): Saga {
    if plans == [] then s
    else
      var before := ResumedWithoutSession(history, s, plans[..|plans| - 1]);
      ExecuteOperation(history, Resume(before), plans[|plans| - 1], false)
  }

  lemma {:induction false} PartialFailureIsNeverForgotten(history: seq<Operation>, s: Saga, plan: Plan, session: bool,
                                                          plans: seq<Plan>)
    requires WellShaped(s.operation)
    requires ExecuteOperation(history, s, plan, session).operation.status == Runs.PartiallyFailed
    ensures var failed := ExecuteOperation(history, s, plan, session);
            var s' := ResumedWithoutSession(history, failed, plans);
            && s'.operation.status == Runs.PartiallyFailed && s'.client.status == Runs.Partial
            && s'.operation.steps == failed.operation.steps && s'.world == failed.world
    decreases |plans|
  {
    ResidueIsOnRecord(JobOf(history, s.operation, s.client), plan, session,
                      Exec(s.world, s.operation.steps, 0, s.trace));
    if plans != [] {
      PartialFailureIsNeverForgotten(history, s, plan, session, plans[..|plans| - 1]);
    }
  }

  // ----- What a first forward pass leaves on record -----

  /** Positions below `i` are done and recorded, the others untouched; each changing call since `start` belongs to a
      step that is now marked as applied, and without one none is. */
  ghost predicate OnRecord(x: Exec, i: nat, start: nat) {
    && |x.steps| == 3 && i <= 3 && start <= |x.trace|
    && (forall j :: 0 <= j < i ==> x.steps[j].before.Some? && x.steps[j].desired.Some?)
    && (forall j :: 0 <= j < i ==> x.steps[j].status == Applied || x.steps[j].status == Unchanged)
    && (forall j :: i <= j < 3 ==> x.steps[j].status == Pending && x.steps[j].before.None?)
    && (forall k :: start <= k < |x.trace| && Mutates(x.trace[k].request) ==>
        exists j :: 0 <= j < i && x.steps[j].status == Applied)
    && (forall j :: 0 <= j < i && x.steps[j].status == Applied ==>
        exists k :: start <= k < |x.trace| && Mutates(x.trace[k].request))
  }

  /** One step: at most an inspection and one changing call. */
  ghost predicate StepLogged(x: Exec, x1: Exec, i: nat, signal: Signal<()>)
    requires i < |x.steps|
  {
    && |x1.steps| == |x.steps| && (forall j :: 0 <= j < |x.steps| && j != i ==> x1.steps[j] == x.steps[j])
    && x.trace <= x1.trace && |x1.trace| <= |x.trace| + 2
    && (|x1.trace| > |x.trace| ==> !Mutates(x1.trace[|x.trace|].request))
    && (signal.Done? ==>
          && x1.steps[i].before.Some? && x1.steps[i].desired.Some?
          && x1.steps[i].status == (if |x1.trace| == |x.trace| + 2 then Applied else Unchanged)
          && (|x1.trace| == |x.trace| + 2 ==> Mutates(x1.trace[|x.trace| + 1].request)))
    && (!signal.Done? ==> x1.steps[i].status == Running)
  }

  lemma StepIsLogged(job: Job, plan: Plan, x: Exec, i: nat)
    requires i < |x.steps| && x.steps[i].status == Pending && x.steps[i].before.None?
    ensures StepLogged(x, ApplyStep(job, plan, x, i).0, i, ApplyStep(job, plan, x, i).1)
  {
    var (x1, seen) := Invoke(job, plan, SetStatus(x, i, Running), ApplyPhase, x.steps[i].portal, Inspect);
    if seen.Done? {
      assert |x1.trace| == |x.trace| + 1;
    }
  }

  lemma OnRecordNext(x: Exec, x0: Exec, x1: Exec, i: nat, start: nat)
    requires OnRecord(x, i, start) && i < 3 && x0.steps == x.steps && x0.trace == x.trace
    requires StepLogged(x0, x1, i, Done(()))
    ensures OnRecord(x1, i + 1, start)
  {
    forall k | start <= k < |x1.trace| && Mutates(x1.trace[k].request)
      ensures exists j :: 0 <= j < i + 1 && x1.steps[j].status == Applied
    {
      if k < |x.trace| {
        assert x1.trace[k] == x.trace[k];
        var j :| 0 <= j < i && x.steps[j].status == Applied;
        assert x1.steps[j] == x.steps[j];
      } else {
        assert x1.steps[i].status == Applied;
      }
    }
    forall j | 0 <= j < i + 1 && x1.steps[j].status == Applied
      ensures exists k :: start <= k < |x1.trace| && Mutates(x1.trace[k].request)
    {
      if j < i {
        var k :| start <= k < |x.trace| && Mutates(x.trace[k].request);
        assert x1.trace[k] == x.trace[k];
      } else {
        assert Mutates(x1.trace[|x.trace| + 1].request);
      }
    }
  }

  /** Position `n` is where the pass ended: the positions before it are done, those after it untouched. */
  ghost predicate EndedAt(x: Exec, n: nat) {
    && |x.steps| == 3 && n <= 3
    && (forall j :: 0 <= j < n ==> x.steps[j].before.Some? && x.steps[j].desired.Some?)
    && (forall j :: 0 <= j < n ==> x.steps[j].status == Applied || x.steps[j].status == Unchanged)
    && (forall j :: n < j < 3 ==> x.steps[j].status == Pending && x.steps[j].before.None?)
  }

  /** A changing call that was followed by another call. */
  ghost predicate ChangedBehind(trace: seq<CallRecord>, start: nat) {
    exists k :: start <= k < |trace| - 1 && Mutates(trace[k].request)
  }

  ghost predicate Changed(trace: seq<CallRecord>, start: nat) {
    exists k :: start <= k < |trace| && Mutates(trace[k].request)
  }

  ghost predicate SomeApplied(steps: seq<Step>) {
    exists j :: 0 <= j < |steps| && steps[j].status == Applied
  }

  ghost predicate PassEnded(x: Exec, forward: Forward, start: nat) {
    && (forward.FailedAt? ==>
        forward.index < 3 && EndedAt(x, forward.index) && x.steps[forward.index].status == StepFailed)
    && (forward.Lost? ==> exists n: nat :: LostAt(x, n))
    && (forward.Lost? && ChangedBehind(x.trace, start) ==> SomeApplied(x.steps))
    && (SomeApplied(x.steps) ==> Changed(x.trace, start))
  }

  ghost predicate LostAt(x: Exec, n: nat) {
    EndedAt(x, n) && (n < 3 ==> x.steps[n].status == Pending || x.steps[n].status == Running)
  }

  lemma BeforeStep(x: Exec, x0: Exec, i: nat, start: nat)
    requires OnRecord(x, i, start) && x0.steps == x.steps && x0.trace == x.trace
    ensures PassEnded(x0, Lost, start) && PassEnded(x0, AllApplied, start)
  {
    assert LostAt(x0, i);
  }

  lemma AfterLostStep(x: Exec, x0: Exec, x1: Exec, i: nat, start: nat)
    requires OnRecord(x, i, start) && i < 3 && x0.steps == x.steps && x0.trace == x.trace
    requires StepLogged(x0, x1, i, Died)
    ensures PassEnded(x1, Lost, start)
  {
    assert LostAt(x1, i);
    if ChangedBehind(x1.trace, start) {
      var k :| start <= k < |x1.trace| - 1 && Mutates(x1.trace[k].request);
      assert k < |x.trace| && x1.trace[k] == x.trace[k];
      var j :| 0 <= j < i && x.steps[j].status == Applied;
      assert x1.steps[j] == x.steps[j];
    }
    OldChange(x, x1, i, start);
  }

  lemma OldChange(x: Exec, x1: Exec, i: nat, start: nat)
    requires OnRecord(x, i, start) && i < 3 && |x1.steps| == 3 && x.trace <= x1.trace
    requires (forall j :: 0 <= j < 3 && j != i ==> x1.steps[j] == x.steps[j]) && x1.steps[i].status != Applied
    ensures SomeApplied(x1.steps) ==> Changed(x1.trace, start)
  {
    if SomeApplied(x1.steps) {
      var j :| 0 <= j < 3 && x1.steps[j].status == Applied;
      assert x.steps[j].status == Applied && j < i;
      var k :| start <= k < |x.trace| && Mutates(x.trace[k].request);
      assert x1.trace[k] == x.trace[k];
    }
  }

  lemma AfterFailedStep(x: Exec, x0: Exec, x1: Exec, x2: Exec, i: nat, start: nat)
    requires OnRecord(x, i, start) && i < 3 && x0.steps == x.steps && x0.trace == x.trace
    requires StepLogged(x0, x1, i, Raised(CallFailed)) && x2.steps == x1.steps && x2.trace == x1.trace
    ensures PassEnded(SetStatus(x2, i, StepFailed), FailedAt(i, CallFailed), start) && PassEnded(x2, Lost, start)
  {
    AfterLostStep(x, x0, x1, i, start);
    OldChange(x, SetStatus(x2, i, StepFailed), i, start);
    var n: nat :| LostAt(x1, n);
    assert LostAt(x2, n);
  }

  lemma {:induction false} ForwardIsOnRecord(job: Job, plan: Plan, x: Exec, i: nat, start: nat)
    requires OnRecord(x, i, start)
    ensures PassEnded(RunForward(job, plan, x, i).0, RunForward(job, plan, x, i).1, start)
    decreases 3 - i
  {
    var (x0, current) := Checkpoint(plan, x, ApplyPhase);
    if i == 3 {
      BeforeStep(x, x, i, start);
    } else if current.Died? {
      BeforeStep(x, x0, i, start);
    } else {
      StepIsLogged(job, plan, x0, i);
      var (x1, signal) := ApplyStep(job, plan, x0, i);
      if signal.Done? {
        OnRecordNext(x, x0, x1, i, start);
        ForwardIsOnRecord(job, plan, x1, i + 1, start);
      } else if signal.Died? {
        AfterLostStep(x, x0, x1, i, start);
      } else {
        var x2 := Checkpoint(plan, x1, ApplyPhase).0;
        AfterFailedStep(x, x0, x1, x2, i, start);
      }
    }
  }

  // ----- After a lost worker, and after a complete compensation -----

  lemma FreshIsOnRecord(s: Saga)
    requires s.operation == NewOperation(s.operation.action, s.operation.scenario)
    ensures OnRecord(Exec(s.world, s.operation.steps, 0, s.trace), 0, |s.trace|)
  {
  }

  lemma ClosedResidue(steps: seq<Step>)
    requires forall j :: 0 <= j < |steps| ==> steps[j].status != CompensationFailed
    ensures HasResidualState(CloseInterrupted(steps)) <==> SomeApplied(steps)
  {
    if SomeApplied(steps) {
      var j :| 0 <= j < |steps| && steps[j].status == Applied;
      assert CloseInterrupted(steps)[j] in CloseInterrupted(steps);
    }
  }

  /** What a resumption without a session makes of an isolated run. */
  lemma IsolatedThenNoSession(later: seq<Operation>, s: Saga, again: Plan)
    requires forall j :: 0 <= j < |s.operation.steps| ==> s.operation.steps[j].status != CompensationFailed
    ensures var s' := ExecuteOperation(later, Resume(Quarantine(s)), again, false);
            if SomeApplied(s.operation.steps)
            then s'.operation.status == Runs.PartiallyFailed && s'.client.status == Runs.Partial
            else s'.operation.status == Runs.Failed && s'.client.status == PriorStatus(s.operation.action)
  {
    ClosedResidue(s.operation.steps);
  }

  lemma LostSaga(history: seq<Operation>, s: Saga, plan: Plan, job: Job, x: Exec)
    requires job == JobOf(history, s.operation, s.client) && x == Exec(s.world, s.operation.steps, 0, s.trace)
    requires RunForward(job, plan, x, 0).1.Lost?
    ensures var lost := ExecuteOperation(history, s, plan, true);
            && lost.operation.action == s.operation.action && lost.operation.status == Runs.Running
            && lost.operation.steps == RunForward(job, plan, x, 0).0.steps
            && lost.trace == RunForward(job, plan, x, 0).0.trace
  {
  }

  lemma UndoneSaga(history: seq<Operation>, s: Saga, plan: Plan, job: Job, x: Exec, x1: Exec, forward: Forward)
    requires job == JobOf(history, s.operation, s.client) && x == Exec(s.world, s.operation.steps, 0, s.trace)
    requires (x1, forward) == RunForward(job, plan, x, 0) && forward.FailedAt?
    requires Compensate(job, plan, x1, forward.index + 1).1 == Done(true)
    ensures var ended := ExecuteOperation(history, s, plan, true);
            && ended.operation.action == s.operation.action
            && (ended.operation.status == Runs.Failed || ended.operation.status == Runs.Running)
            && ended.operation.steps == Compensate(job, plan, x1, forward.index + 1).0.steps
  {
  }

  lemma LostThenNoSession(later: seq<Operation>, lost: Saga, again: Plan, x1: Exec, start: nat)
    requires PassEnded(x1, Lost, start) && lost.operation.steps == x1.steps && lost.trace == x1.trace
    ensures var s' := ExecuteOperation(later, Resume(Quarantine(lost)), again, false);
            && (ChangedBehind(lost.trace, start) ==>
                s'.operation.status == Runs.PartiallyFailed && s'.client.status == Runs.Partial)
            && (!Changed(lost.trace, start) ==>
                  s'.operation.status == Runs.Failed && s'.client.status == PriorStatus(lost.operation.action))
  {
    var n: nat :| LostAt(x1, n);
    IsolatedThenNoSession(later, lost, again);
  }

  /** A first execution whose worker was lost on the way forward, then isolated and resumed without a session. If it had
      changed a portal before its last call, the client stays partial;
          if it had changed nothing, the run ends failed and
      the client as it was. */
  lemma LostWorkerIsRemembered(history: seq<Operation>, s: Saga, plan: Plan, later: seq<Operation>, again: Plan)
    requires s.operation == NewOperation(s.operation.action, s.operation.scenario)
    requires RunForward(JobOf(history, s.operation, s.client), plan, Exec(s.world, s.operation.steps, 0, s.trace),
                        0).1.Lost?
    ensures var lost := ExecuteOperation(history, s, plan, true);
            var s' := ExecuteOperation(later, Resume(Quarantine(lost)), again, false);
            && lost.operation.status == Runs.Running
            && Quarantine(lost).operation.status == Runs.PartiallyFailed
            && Quarantine(lost).client.status == Runs.Partial
            && (ChangedBehind(lost.trace, |s.trace|) ==>
                  s'.operation.status == Runs.PartiallyFailed && s'.client.status == Runs.Partial)
            && (!Changed(lost.trace, |s.trace|) ==>
                  s'.operation.status == Runs.Failed && s'.client.status == PriorStatus(s.operation.action))
  {
    var job := JobOf(history, s.operation, s.client);
    var x := Exec(s.world, s.operation.steps, 0, s.trace);
    FreshIsOnRecord(s);
    ForwardIsOnRecord(job, plan, x, 0, |s.trace|);
    LostSaga(history, s, plan, job, x);
    LostThenNoSession(later, ExecuteOperation(history, s, plan, true), again, RunForward(job, plan, x, 0).0, |s.trace|);
  }

  /** A first execution that failed and undid everything leaves nothing on record, also when its worker is lost right
      afterwards: resumed without a session, the run ends failed and the client as it was. */
  lemma CompleteUndoIsForgotten(history: seq<Operation>, s: Saga, plan: Plan, later: seq<Operation>, again: Plan)
    requires s.operation == NewOperation(s.operation.action, s.operation.scenario)
    requires var (x1, forward) :=
             RunForward(JobOf(history, s.operation, s.client), plan, Exec(s.world, s.operation.steps, 0, s.trace), 0);
             forward.FailedAt? &&
                 Compensate(JobOf(history, s.operation, s.client), plan, x1, forward.index + 1).1 == Done(true)
    ensures var ended := ExecuteOperation(history, s, plan, true);
            var s' := ExecuteOperation(later, Resume(Quarantine(ended)), again, false);
            && (ended.operation.status == Runs.Failed || ended.operation.status == Runs.Running)
            && s'.operation.status == Runs.Failed && s'.client.status == PriorStatus(s.operation.action)
  {
    var job := JobOf(history, s.operation, s.client);
    var x := Exec(s.world, s.operation.steps, 0, s.trace);
    FreshIsOnRecord(s);
    ForwardIsOnRecord(job, plan, x, 0, |s.trace|);
    var (x1, forward) := RunForward(job, plan, x, 0);
    CompensateRemembers(job, plan, x1, forward.index + 1);
    var x2 := Compensate(job, plan, x1, forward.index + 1).0;
    NothingLeft(x1, x2, forward.index);
    UndoneSaga(history, s, plan, job, x, x1, forward);
    IsolatedThenNoSession(later, ExecuteOperation(history, s, plan, true), again);
  }

  lemma NothingLeft(x1: Exec, x2: Exec, failed: nat)
    requires failed < 3 && EndedAt(x1, failed) && x1.steps[failed].status == StepFailed
    requires Remembered(x1, x2, failed + 1, Done(true))
    ensures !SomeApplied(x2.steps) && forall j :: 0 <= j < |x2.steps| ==> x2.steps[j].status != CompensationFailed
  {
  }

  // ----- Marks of earlier executions -----

  /** The row says that the portal may have been changed. */
  predicate Marked(step: Step) {
    step.status == Applied || step.status == CompensationFailed
  }

  lemma DoneStepKeepsMark(job: Job, plan: Plan, x: Exec, i: nat)
    requires i < |x.steps| && Marked(x.steps[i])
    ensures var (x1, signal) := ApplyStep(job, plan, x, i);
            && |x1.steps| == |x.steps| && (forall j :: 0 <= j < |x.steps| && j != i ==> x1.steps[j] == x.steps[j])
            && (if signal.Done? then Marked(x1.steps[i]) else x1.steps[i].status == Running)
  {
  }

  lemma OtherSteps(job: Job, plan: Plan, x: Exec, i: nat)
    requires i < |x.steps|
    ensures var x1 := ApplyStep(job, plan, x, i).0;
            |x1.steps| == |x.steps| && forall j :: 0 <= j < |x.steps| && j != i ==> x1.steps[j] == x.steps[j]
  {
  }

  /** A lost forward pass keeps every mark, but for the step that was being worked on. */
  lemma {:induction false} LostPassKeepsMarks(job: Job, plan: Plan, x: Exec, i: nat, j: nat)
    requires i <= |x.steps| && j < |x.steps| && Marked(x.steps[j]) && RunForward(job, plan, x, i).1.Lost?
    ensures var x' := RunForward(job, plan, x, i).0;
            |x'.steps| == |x.steps| && (Marked(x'.steps[j]) || x'.steps[j].status == Running)
    decreases |x.steps| - i
  {
    var (x0, current) := Checkpoint(plan, x, ApplyPhase);
    if !current.Died? {
      OtherSteps(job, plan, x0, i);
      if i == j {
        DoneStepKeepsMark(job, plan, x0, i);
      }
      var (x1, signal) := ApplyStep(job, plan, x0, i);
      if signal.Done? {
        LostPassKeepsMarks(job, plan, x1, i + 1, j);
      }
    }
  }

  /** An execution, first or resumed, that finds a portal as an earlier one left it keeps the mark: when its worker is
      lost on the way forward, a resumption without a session still leaves the client partial, unless the marked step
      was the one being worked on. */
  lemma MarksSurviveLostWorkers(history: seq<Operation>, s: Saga, plan: Plan, j: nat, later: seq<Operation>,
                                again: Plan)
    requires WellShaped(s.operation) && j < 3 && Marked(s.operation.steps[j])
    requires RunForward(JobOf(history, s.operation, s.client), plan, Exec(s.world, s.operation.steps, 0, s.trace),
                        0).1.Lost?
    requires var lost := ExecuteOperation(history, s, plan, true);
             |lost.operation.steps| == 3 && lost.operation.steps[j].status != Running
    ensures var s' := ExecuteOperation(later, Resume(Quarantine(ExecuteOperation(history, s, plan, true))), again,
                                       false);
            s'.operation.status == Runs.PartiallyFailed && s'.client.status == Runs.Partial
  {
    var job := JobOf(history, s.operation, s.client);
    var x := Exec(s.world, s.operation.steps, 0, s.trace);
    LostPassKeepsMarks(job, plan, x, 0, j);
    LostSaga(history, s, plan, job, x);
    MarkedThenNoSession(later, ExecuteOperation(history, s, plan, true), again, j);
  }

  lemma MarkedThenNoSession(later: seq<Operation>, lost: Saga, again: Plan, j: nat)
    requires j < |lost.operation.steps| && Marked(lost.operation.steps[j])
    ensures var s' := ExecuteOperation(later, Resume(Quarantine(lost)), again, false);
            s'.operation.status == Runs.PartiallyFailed && s'.client.status == Runs.Partial
  {
    var closed := CloseInterrupted(lost.operation.steps);
    assert closed[j] == lost.operation.steps[j] && closed[j] in closed;
  }
}
