/** Compensation is sound: when an execution reports that everything was restored, it was. */
module Sc05Compensation {
  import opened Options
  import opened Sc05Portals
  import opened Sc05Saga
  import opened Sc05Snapshots
  import opened Sc05Operations
  import Runs

  /** Portal `p` is exactly as it was, hidden columns included. */
  predicate Same(w: World, w': World, p: Portal) {
    View(w', p) == View(w, p) && (p == Tasks ==> w'.rows == w.rows)
  }

  predicate OthersSame(w: World, w': World, p: Portal) {
    forall q :: q != p ==> Same(w, w', q)
  }

  predicate OtherStepsSame(steps: seq<Step>, steps': seq<Step>, i: nat) {
    |steps| == |steps'| && forall j :: 0 <= j < |steps| && j != i ==> steps'[j] == steps[j]
  }

  lemma InvokeEffect(job: Job, plan: Plan, x: Exec, phase: Phase, portal: Portal, request: Request)
    requires NoEdits(plan)
    ensures var (x', signal) := Invoke(job, plan, x, phase, portal, request);
            && x'.steps == x.steps
            && OthersSame(x.world, x'.world, portal)
            && (request.Inspect? ==> x'.world == x.world)
            && (signal.Done? ==> signal.value == View(x'.world, portal))
  {
    assert plan(phase, x.tick).edit(x.world) == x.world;
    ServeTruthful(x.world, portal, request, job.scenario, phase);
    forall q | q != portal
      ensures Same(x.world, Serve(x.world, portal, request, job.scenario, phase).world, q)
    {
      ServeFrame(x.world, portal, request, job.scenario, phase, q);
    }
  }

  lemma CheckpointEffect(plan: Plan, x: Exec, phase: Phase)
    requires NoEdits(plan)
    ensures var x' := Checkpoint(plan, x, phase).0;
            x'.world == x.world && x'.steps == x.steps && x'.trace == x.trace
  {
    assert plan(phase, x.tick).edit(x.world) == x.world;
  }

  /** What applying step `i` may do: it touches its own portal only, and only after recording it. */
  ghost predicate StepEffect(x: Exec, x': Exec, i: nat)
    requires i < |x.steps|
  {
    && OtherStepsSame(x.steps, x'.steps, i)
    && x'.steps[i].portal == x.steps[i].portal
    && OthersSame(x.world, x'.world, x.steps[i].portal)
    && (x'.steps[i].before.None? ==> Same(x.world, x'.world, x.steps[i].portal))
    && (x.steps[i].before.None? && x'.steps[i].before.Some? ==>
          x'.steps[i].before.value == View(x.world, x.steps[i].portal))
    && (x.steps[i].before.Some? ==> x'.steps[i].before == x.steps[i].before)
  }

  lemma ApplyRecordedEffect(job: Job, plan: Plan, x: Exec, i: nat, prior: StepStatus, observed: PortalState,
                            desired: PortalState)
    requires NoEdits(plan) && i < |x.steps|
    ensures var x' := ApplyRecorded(job, plan, x, i, prior, observed, desired).0;
            && OtherStepsSame(x.steps, x'.steps, i)
            && x'.steps[i] == x.steps[i].(status := x'.steps[i].status)
            && OthersSame(x.world, x'.world, x.steps[i].portal)
  {
    InvokeEffect(job, plan, x, ApplyPhase, x.steps[i].portal, Apply(job.action));
  }

  lemma ApplyObservedEffect(job: Job, plan: Plan, x: Exec, i: nat, prior: StepStatus, observed: PortalState)
    requires NoEdits(plan) && i < |x.steps| && observed == View(x.world, x.steps[i].portal)
    ensures StepEffect(x, ApplyObserved(job, plan, x, i, prior, observed).0, i)
  {
    var step := x.steps[i];
    var first := step.before.None?;
    if first && InitialStateError(job, step.portal, observed).Some? {
      return;
    }
    var desired := if !first && step.desired.Some? then step.desired else DesiredState(job, step.portal, observed);
    if desired.None? {
      return;
    }
    var before := if first then observed else step.before.value;
    var x1 := x.(steps := x.steps[i := step.(before := Some(before), desired := desired)]);
    CheckpointEffect(plan, x1, ApplyPhase);
    ApplyRecordedEffect(job, plan, Checkpoint(plan, x1, ApplyPhase).0, i, prior, observed, desired.value);
  }

  lemma ApplyStepEffect(job: Job, plan: Plan, x: Exec, i: nat)
    requires NoEdits(plan) && i < |x.steps|
    ensures StepEffect(x, ApplyStep(job, plan, x, i).0, i)
  {
    var x0 := SetStatus(x, i, Running);
    InvokeEffect(job, plan, x0, ApplyPhase, x.steps[i].portal, Inspect);
    var (x1, seen) := Invoke(job, plan, x0, ApplyPhase, x.steps[i].portal, Inspect);
    if seen.Done? {
      ApplyObservedEffect(job, plan, x1, i, x.steps[i].status, seen.value);
    }
  }

  /** The states recorded at the start of a first run, and the portals not yet recorded. */
  ghost predicate TracksStart(x: Exec, w: World) {
    forall i :: 0 <= i < |x.steps| ==>
      if x.steps[i].before.None? then Same(w, x.world, x.steps[i].portal)
      else x.steps[i].before.value == View(w, x.steps[i].portal)
  }

  /** Positions the forward pass has not reached keep their step and their portal. */
  ghost predicate Beyond(x: Exec, x': Exec, n: nat) {
    && |x.steps| == |x'.steps|
    && (forall j :: n <= j < |x.steps| ==> x'.steps[j] == x.steps[j] && Same(x.world, x'.world, x.steps[j].portal))
  }

  /** The same for a whole forward pass that starts at position `i`. */
  ghost predicate ForwardEffect(x: Exec, x': Exec, forward: Forward, w: World) {
    && (forward.FailedAt? ==> Beyond(x, x', forward.index + 1))
    && (TracksStart(x, w) ==> TracksStart(x', w))
  }

  lemma StepTracksStart(job: Job, x: Exec, x': Exec, i: nat, w: World)
    requires Shaped(job, x.steps) && i < 3 && StepEffect(x, x', i)
    requires TracksStart(x, w)
    ensures TracksStart(x', w)
  {
    forall j | 0 <= j < |x'.steps|
      ensures if x'.steps[j].before.None? then Same(w, x'.world, x'.steps[j].portal)
              else x'.steps[j].before.value == View(w, x'.steps[j].portal)
    {
      if j != i {
        assert x'.steps[j] == x.steps[j] && x.steps[j].portal != x.steps[i].portal;
        assert Same(x.world, x'.world, x.steps[j].portal);
      }
      assert x.steps[j].before.None? ==> Same(w, x.world, x.steps[j].portal);
    }
  }

  lemma StepBeyond(job: Job, x: Exec, x': Exec, i: nat)
    requires Shaped(job, x.steps) && i < 3 && StepEffect(x, x', i)
    ensures Beyond(x, x', i + 1)
  {
  }

  lemma BeyondTransitive(x: Exec, x1: Exec, x2: Exec, n: nat, m: nat)
    requires Beyond(x, x1, n) && Beyond(x1, x2, m) && n <= m
    ensures Beyond(x, x2, m)
  {
  }

  lemma {:induction false} RunForwardEffect(job: Job, plan: Plan, x: Exec, i: nat, w: World)
    requires NoEdits(plan) && Shaped(job, x.steps) && i <= 3
    ensures var (x', forward) := RunForward(job, plan, x, i);
            Shaped(job, x'.steps) && ForwardEffect(x, x', forward, w)
    decreases 3 - i
  {
    if i == 3 {
      return;
    }
    CheckpointEffect(plan, x, ApplyPhase);
    var (x0, current) := Checkpoint(plan, x, ApplyPhase);
    if current.Died? {
      return;
    }
    ApplyStepEffect(job, plan, x0, i);
    ForwardStep(job, plan, x, x0, ApplyStep(job, plan, x0, i).0, ApplyStep(job, plan, x0, i).1, i, w);
  }

  /** The induction step, after step `i` has been applied with result `x1`, `signal`. */
  lemma {:induction false} ForwardStep(job: Job, plan: Plan, x: Exec, x0: Exec, x1: Exec, signal: Signal<()>, i: nat,
                                       w: World)
    requires NoEdits(plan) && Shaped(job, x.steps) && i < 3
    requires (x0, Done(())) == Checkpoint(plan, x, ApplyPhase) && x0.world == x.world && x0.steps == x.steps
    requires (x1, signal) == ApplyStep(job, plan, x0, i) && StepEffect(x0, x1, i)
    ensures var (x', forward) := RunForward(job, plan, x, i);
            Shaped(job, x'.steps) && ForwardEffect(x, x', forward, w)
    decreases 3 - i, 0
  {
    StepBeyond(job, x0, x1, i);
    if TracksStart(x, w) {
      StepTracksStart(job, x0, x1, i, w);
    }
    if signal.Done? {
      RunForwardEffect(job, plan, x1, i + 1, w);
      var (x', forward) := RunForward(job, plan, x1, i + 1);
      if forward.FailedAt? {
        BeyondTransitive(x0, x1, x', i + 1, forward.index + 1);
      }
    } else {
      CheckpointEffect(plan, x1, ApplyPhase);
    }
  }

  lemma CompensateStepEffect(job: Job, plan: Plan, x: Exec, i: nat)
    requires NoEdits(plan) && i < |x.steps|
    requires x.steps[i].before.Some? && x.steps[i].desired.Some?
    ensures var (x', undone) := CompensateStep(job, plan, x, i);
            && OtherStepsSame(x.steps, x'.steps, i)
            && x'.steps[i] == x.steps[i].(status := x'.steps[i].status)
            && OthersSame(x.world, x'.world, x.steps[i].portal)
            && (undone == Done(true) ==> View(x'.world, x.steps[i].portal) == x.steps[i].before.value)
  {
    var step := x.steps[i];
    InvokeEffect(job, plan, x, CompensationPhase, step.portal, Inspect);
    var (x1, seen) := Invoke(job, plan, x, CompensationPhase, step.portal, Inspect);
    if seen.Done? {
      InvokeEffect(job, plan, x1, CompensationPhase, step.portal, Restore(seen.value, step.before.value));
    }
  }

  /** What compensating the positions below `n` may do; every recorded state survives. */
  ghost predicate UndoEffect(x: Exec, x': Exec, n: nat) {
    && |x.steps| == |x'.steps|
    && (forall i :: 0 <= i < |x.steps| ==> x'.steps[i] == x.steps[i].(status := x'.steps[i].status))
    && (forall i :: 0 <= i < |x.steps| && (n <= i || x.steps[i].before.None?) ==>
        Same(x.world, x'.world, x.steps[i].portal))
    && (forall i :: n <= i < |x.steps| ==> x'.steps[i] == x.steps[i])
  }

  ghost predicate Undone(x: Exec, x': Exec, n: nat)
    requires n <= |x.steps|
  {
    forall i :: 0 <= i < n && x.steps[i].before.Some? ==> View(x'.world, x.steps[i].portal) == x.steps[i].before.value
  }

  lemma UndoStep(job: Job, x: Exec, x1: Exec, x2: Exec, n: nat)
    requires Shaped(job, x.steps) && 0 < n <= 3 && x.steps[n - 1].before.Some?
    requires OtherStepsSame(x.steps, x1.steps, n - 1)
    requires x1.steps[n - 1] == x.steps[n - 1].(status := x1.steps[n - 1].status)
    requires OthersSame(x.world, x1.world, x.steps[n - 1].portal)
    requires UndoEffect(x1, x2, n - 1)
    ensures UndoEffect(x, x2, n)
    ensures Undone(x1, x2, n - 1) && View(x1.world, x.steps[n - 1].portal) == x.steps[n - 1].before.value ==>
            Undone(x, x2, n)
  {
    assert Same(x1.world, x2.world, x1.steps[n - 1].portal);
    forall i | 0 <= i < |x.steps| && i != n - 1
      ensures x1.steps[i] == x.steps[i] && Same(x.world, x1.world, x.steps[i].portal)
    {
      assert x.steps[i].portal != x.steps[n - 1].portal;
    }
    assert x2.steps[n - 1] == x1.steps[n - 1].(status := x2.steps[n - 1].status);
  }

  lemma {:induction false} CompensateEffect(job: Job, plan: Plan, x: Exec, n: nat)
    requires NoEdits(plan) && Shaped(job, x.steps) && n <= 3
    requires forall i :: 0 <= i < 3 ==> Paired(x.steps[i])
    ensures var (x', undone) := Compensate(job, plan, x, n);
            UndoEffect(x, x', n) && (undone == Done(true) ==> Undone(x, x', n))
    decreases n
  {
    if n == 0 {
      return;
    }
    if x.steps[n - 1].before.None? {
      CompensateEffect(job, plan, x, n - 1);
    } else {
      CompensateStepEffect(job, plan, x, n - 1);
      var (x1, undone) := CompensateStep(job, plan, x, n - 1);
      CompensateRest(job, plan, x, n, x1, undone);
    }
  }

  lemma StillPaired(job: Job, x: Exec, x1: Exec, k: nat)
    requires Shaped(job, x.steps) && k < 3 && forall i :: 0 <= i < 3 ==> Paired(x.steps[i])
    requires OtherStepsSame(x.steps, x1.steps, k) && x1.steps[k] == x.steps[k].(status := x1.steps[k].status)
    ensures Shaped(job, x1.steps) && forall i :: 0 <= i < 3 ==> Paired(x1.steps[i])
  {
  }

  /** The induction step, after position `n - 1` was treated with result `x1`, `undone`. */
  lemma {:induction false} CompensateRest(job: Job, plan: Plan, x: Exec, n: nat, x1: Exec, undone: Signal<bool>)
    requires NoEdits(plan) && Shaped(job, x.steps) && 0 < n <= 3
    requires forall i :: 0 <= i < 3 ==> Paired(x.steps[i])
    requires x.steps[n - 1].before.Some? && x.steps[n - 1].desired.Some?
    requires (x1, undone) == CompensateStep(job, plan, x, n - 1)
    requires OtherStepsSame(x.steps, x1.steps, n - 1)
    requires x1.steps[n - 1] == x.steps[n - 1].(status := x1.steps[n - 1].status)
    requires OthersSame(x.world, x1.world, x.steps[n - 1].portal)
    requires undone == Done(true) ==> View(x1.world, x.steps[n - 1].portal) == x.steps[n - 1].before.value
    ensures var (x', undone) := Compensate(job, plan, x, n);
            UndoEffect(x, x', n) && (undone == Done(true) ==> Undone(x, x', n))
    decreases n, 0
  {
    UndoStep(job, x, x1, x1, n);
    if undone.Done? {
      StillPaired(job, x, x1, n - 1);
      CompensateEffect(job, plan, x1, n - 1);
      UndoStep(job, x, x1, Compensate(job, plan, x1, n - 1).0, n);
    }
  }

  /** Every recorded portal is back in the state recorded for it. */
  ghost predicate BackToRecorded(steps: seq<Step>, w: World, from: nat, to: nat)
    requires from <= to <= |steps|
  {
    forall i :: from <= i < to && steps[i].before.Some? ==> View(w, steps[i].portal) == steps[i].before.value
  }

  lemma UndoTracksStart(x: Exec, x': Exec, n: nat, w: World)
    requires TracksStart(x, w) && UndoEffect(x, x', n)
    ensures TracksStart(x', w)
  {
    forall i | 0 <= i < |x'.steps|
      ensures if x'.steps[i].before.None? then Same(w, x'.world, x'.steps[i].portal)
              else x'.steps[i].before.value == View(w, x'.steps[i].portal)
    {
      assert x'.steps[i] == x.steps[i].(status := x'.steps[i].status);
      assert x.steps[i].before.None? ==> Same(w, x.world, x.steps[i].portal);
    }
  }

  /** A forward pass that failed, followed by a compensation of the positions up to the failed one. */
  lemma FailedEffect(x: Exec, x1: Exec, x2: Exec, n: nat)
    requires n <= |x.steps| && Beyond(x, x1, n) && UndoEffect(x1, x2, n)
    ensures Beyond(x, x2, n)
    ensures Undone(x1, x2, n) ==> BackToRecorded(x2.steps, x2.world, 0, n)
  {
    forall i | 0 <= i < n && Undone(x1, x2, n) && x2.steps[i].before.Some?
      ensures View(x2.world, x2.steps[i].portal) == x2.steps[i].before.value
    {
      assert x2.steps[i] == x1.steps[i].(status := x2.steps[i].status);
    }
  }

  /** What one execution may do. */
  ghost predicate ExecutionEffect(job: Job, x: Exec, x': Exec, verdict: Verdict, w: World) {
    && Shaped(job, x'.steps)
    && (verdict.Failure? ==> verdict.reached <= 3 && Beyond(x, x', verdict.reached))
    && (verdict.Failure? && !verdict.residual ==> BackToRecorded(x'.steps, x'.world, 0, verdict.reached))
    && (TracksStart(x, w) ==> TracksStart(x', w))
  }

  lemma ExecuteEffect(job: Job, plan: Plan, session: bool, x: Exec, w: World)
    requires NoEdits(plan) && Shaped(job, x.steps)
    requires forall i :: 0 <= i < 3 ==> Paired(x.steps[i])
    ensures var (x', verdict) := Execute(job, plan, session, x);
            ExecutionEffect(job, x, x', verdict, w)
  {
    if session {
      RunForwardEffect(job, plan, x, 0, w);
      RunForwardConsistent(job, plan, x, 0, |x.trace|);
      var (x1, forward) := RunForward(job, plan, x, 0);
      if forward.AllApplied? {
        CheckpointEffect(plan, x1, ApplyPhase);
      } else if forward.FailedAt? {
        AfterFailureEffect(job, plan, x, x1, forward.index, forward.code, w);
      }
    }
  }

  lemma AfterFailureEffect(job: Job, plan: Plan, x: Exec, x1: Exec, failed: nat, code: ErrorCode, w: World)
    requires NoEdits(plan) && Shaped(job, x.steps) && Shaped(job, x1.steps) && failed < 3
    requires forall i :: 0 <= i < 3 ==> Paired(x1.steps[i])
    requires Beyond(x, x1, failed + 1) && (TracksStart(x, w) ==> TracksStart(x1, w))
    ensures var (x', verdict) := AfterFailure(job, plan, x1, failed, code);
            ExecutionEffect(job, x, x', verdict, w)
  {
    CompensateEffect(job, plan, x1, failed + 1);
    var x2 := Compensate(job, plan, x1, failed + 1).0;
    CheckpointEffect(plan, x2, CompensationPhase);
    FailedEffect(x, x1, x2, failed + 1);
    if TracksStart(x, w) {
      UndoTracksStart(x1, x2, failed + 1, w);
    }
  }

  /** A portal on which a changing call was ever made has a recorded state: a portal without one was never
      changed by the operation. */
  predicate ChangesRecorded(steps: seq<Step>, trace: seq<CallRecord>) {
    forall k, i :: 0 <= k < |trace| && 0 <= i < |steps| && steps[i].portal == trace[k].portal &&
        Mutates(trace[k].request)
      ==> steps[i].before.Some?
  }

  lemma ExecutionChangesRecorded(job: Job, plan: Plan, session: bool, x: Exec)
    requires Shaped(job, x.steps) && ChangesRecorded(x.steps, x.trace)
    requires forall i :: 0 <= i < 3 ==> Paired(x.steps[i])
    ensures var x' := Execute(job, plan, session, x).0;
            ChangesRecorded(x'.steps, x'.trace)
  {
    ExecutionKeepsSnapshots(job, plan, session, x);
    var x' := Execute(job, plan, session, x).0;
    forall k, i | 0 <= k < |x'.trace| && 0 <= i < |x'.steps| && x'.steps[i].portal == x'.trace[k].portal
                  && Mutates(x'.trace[k].request)
      ensures x'.steps[i].before.Some?
    {
      assert Keeps(x.steps[i], x'.steps[i]);
      if k < |x.trace| {
        assert x'.trace[k] == x.trace[k];
      } else {
        assert CallGuarded(x'.steps, x'.trace, |x.trace|, k);
      }
    }
  }

  /** And this holds through the whole life of an operation. */
  lemma {:induction false} LifeChangesRecorded(history: seq<Operation>, s: Saga, events: seq<Event>)
    requires WellShaped(s.operation) && ChangesRecorded(s.operation.steps, s.trace)
    ensures var s' := Live(history, s, events);
            WellShaped(s'.operation) && ChangesRecorded(s'.operation.steps, s'.trace)
    decreases |events|
  {
    if events != [] {
      AdvanceKeepsSnapshots(history, s, events[0]);
      if events[0].Deliver? && s.operation.status == Runs.Queued {
        ExecutionChangesRecorded(JobOf(history, s.operation, s.client), events[0].plan, events[0].session,
                                 Exec(s.world, s.operation.steps, 0, s.trace));
      }
      LifeChangesRecorded(history, Advance(history, s, events[0]), events[1..]);
    }
  }

  /** First form, for any execution, resumed or not: when the compensation reports success, every portal up
      to the failed position shows its recorded state, and a portal without one was never changed by
      this operation. */
  lemma ReportedRestorationIsReal(history: seq<Operation>, s: Saga, plan: Plan, session: bool)
    requires WellShaped(s.operation) && NoEdits(plan)
    requires ChangesRecorded(s.operation.steps, s.trace)
    ensures var x := Exec(s.world, s.operation.steps, 0, s.trace);
            var (x', verdict) := Execute(JobOf(history, s.operation, s.client), plan, session, x);
            verdict.Failure? && !verdict.residual ==>
              && verdict.reached <= 3 == |x'.steps|
              && BackToRecorded(x'.steps, x'.world, 0, verdict.reached)
              && ChangesRecorded(x'.steps, x'.trace)
  {
    var job := JobOf(history, s.operation, s.client);
    var x := Exec(s.world, s.operation.steps, 0, s.trace);
    ExecuteEffect(job, plan, session, x, s.world);
    ExecutionChangesRecorded(job, plan, session, x);
  }

  /** Second form, for a first execution: a failure that gives the client its prior status back leaves all
      three portals as they were at the start, whatever failed and wherever. */
  lemma FirstExecutionIsAllOrNothing(history: seq<Operation>, s: Saga, plan: Plan, session: bool)
    requires s.operation == NewOperation(s.operation.action, s.operation.scenario)
    requires s.client.status == PriorStatus(s.operation.action) && NoEdits(plan)
    ensures var s' := ExecuteOperation(history, s, plan, session);
            s'.operation.status == Runs.Failed && s'.client.status == s.client.status ==>
              forall p :: View(s'.world, p) == View(s.world, p)
  {
    var job := JobOf(history, s.operation, s.client);
    var x := Exec(s.world, s.operation.steps, 0, s.trace);
    ExecuteEffect(job, plan, session, x, s.world);
    var (x', verdict) := Execute(job, plan, session, x);
    if verdict.Failure? && !verdict.residual {
      forall p
        ensures View(x'.world, p) == View(s.world, p)
      {
        var i :| 0 <= i < 3 && x'.steps[i].portal == p by {
          PortalHasStep(job, x'.steps, p);
        }
        if i < verdict.reached {
          assert x'.steps[i].before.Some? ==> View(x'.world, p) == x'.steps[i].before.value;
        } else {
          assert x'.steps[i] == x.steps[i];
        }
        assert x'.steps[i].before.None? ==> Same(s.world, x'.world, p);
      }
    }
  }

  lemma PortalHasStep(job: Job, steps: seq<Step>, p: Portal)
    requires Shaped(job, steps)
    ensures exists i :: 0 <= i < 3 && steps[i].portal == p
  {
    assert steps[0].portal == p || steps[1].portal == p || steps[2].portal == p;
  }

  /** A resumed execution compensates no position after the failed one. So a reported restoration is complete
      exactly when those positions already showed their recorded states before the execution. */
  lemma ResumedRestorationIsComplete(history: seq<Operation>, s: Saga, plan: Plan, session: bool)
    requires WellShaped(s.operation) && NoEdits(plan)
    ensures var x := Exec(s.world, s.operation.steps, 0, s.trace);
            var (x', verdict) := Execute(JobOf(history, s.operation, s.client), plan, session, x);
            verdict.Failure? && !verdict.residual ==>
              && verdict.reached <= 3 == |x'.steps|
              && (BackToRecorded(x'.steps, x'.world, 0, 3) <==>
                  BackToRecorded(s.operation.steps, s.world, verdict.reached, 3))
  {
    var job := JobOf(history, s.operation, s.client);
    var x := Exec(s.world, s.operation.steps, 0, s.trace);
    ExecuteEffect(job, plan, session, x, s.world);
    var (x', verdict) := Execute(job, plan, session, x);
    if verdict.Failure? && !verdict.residual {
      assert forall i :: verdict.reached <= i < 3 ==>
          x'.steps[i] == x.steps[i] && Same(x.world, x'.world, x.steps[i].portal);
      assert BackToRecorded(x'.steps, x'.world, 0, verdict.reached);
    }
  }
}
