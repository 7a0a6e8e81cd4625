/** Executions of a block, first and resumed. */
module Sc05BlockRuns {
  import opened Options
  import opened Sc05Portals
  import opened Sc05Saga
  import opened Sc05Snapshots
  import opened Sc05Operations
  import opened Sc05Compensation
  import opened Sc05Block
  import Runs

  /** A recorded portal keeps its invariant and aims at its blocked state. */
  predicate StepSound(step: Step, w: World) {
    && Paired(step)
    && (step.before.Some? ==>
        Sound(w, step.portal, step.before.value) && step.desired == Some(Target(step.before.value)))
  }

  predicate AllSound(job: Job, x: Exec) {
    job.action == Block && Shaped(job, x.steps) && forall i :: 0 <= i < 3 ==> StepSound(x.steps[i], x.world)
  }

  lemma SoundFrame(w: World, w': World, p: Portal, b: PortalState)
    requires Same(w, w', p) && Sound(w, p, b)
    ensures Sound(w', p, b)
  {
  }

  lemma InvokeSound(job: Job, plan: Plan, x: Exec, phase: Phase, i: nat, request: Request)
    requires NoEdits(plan) && AllSound(job, x) && i < 3
    requires match request
             case Inspect => true
             case Apply(action) => action == Block && x.steps[i].before.Some?
             case Restore(_, target) => x.steps[i].before == Some(target)
    ensures AllSound(job, Invoke(job, plan, x, phase, x.steps[i].portal, request).0)
  {
    InvokeEffect(job, plan, x, phase, x.steps[i].portal, request);
    var x' := Invoke(job, plan, x, phase, x.steps[i].portal, request).0;
    assert plan(phase, x.tick).edit(x.world) == x.world;
    forall j | 0 <= j < 3
      ensures StepSound(x.steps[j], x'.world)
    {
      assert StepSound(x.steps[j], x.world);
      if x.steps[j].before.Some? {
        if j != i {
          SoundFrame(x.world, x'.world, x.steps[j].portal, x.steps[j].before.value);
        } else if !request.Inspect? {
          ServeKeepsSound(x.world, x.steps[i].portal, x.steps[i].before.value, request, job.scenario, phase);
        }
      }
    }
  }

  lemma StatusSound(job: Job, x: Exec, i: nat, status: StepStatus)
    requires AllSound(job, x) && i < 3
    ensures AllSound(job, SetStatus(x, i, status))
  {
    forall j | 0 <= j < 3
      ensures StepSound(SetStatus(x, i, status).steps[j], x.world)
    {
      assert StepSound(x.steps[j], x.world);
    }
  }

  /** Recording what an accepted first inspection saw. */
  lemma RecordSound(job: Job, x: Exec, i: nat, seen: PortalState)
    requires AllSound(job, x) && i < 3 && x.steps[i].before.None?
    requires Read(x.world, x.steps[i].portal) == Some(seen)
    requires InitialStateError(job, x.steps[i].portal, seen).None?
    ensures DesiredState(job, x.steps[i].portal, seen) == Some(Target(seen))
    ensures Blockable(x.steps[i].portal, seen)
    ensures AllSound(job, x.(steps := x.steps[i := x.steps[i].(before := Some(seen), desired := Some(Target(seen)))]))
  {
    var p := x.steps[i].portal;
    if p == Tasks {
      assert Views(x.world.rows) == seen.tasks;
      forall t | t in seen.tasks
        ensures !IsBlank(t.assignee) && !IsBlank(t.reference)
      {
        var k :| 0 <= k < |seen.tasks| && seen.tasks[k] == t;
        assert x.world.rows[k] in x.world.rows;
      }
      assert Unmarked(seen.tasks);
    }
    assert IsFree(x.world, p, seen);
    var step' := x.steps[i].(before := Some(seen), desired := Some(Target(seen)));
    assert StepSound(step', x.world);
    var steps' := x.steps[i := step'];
    forall j | 0 <= j < 3
      ensures StepSound(steps'[j], x.world)
    {
      assert StepSound(x.steps[j], x.world);
    }
  }

  lemma InspectReads(job: Job, plan: Plan, x: Exec, phase: Phase, p: Portal)
    requires NoEdits(plan)
    ensures var (x', seen) := Invoke(job, plan, x, phase, p, Inspect);
            x'.world == x.world && (seen.Done? ==> Read(x.world, p) == Some(seen.value))
  {
    assert plan(phase, x.tick).edit(x.world) == x.world;
  }

  lemma ApplyStepSound(job: Job, plan: Plan, x: Exec, i: nat)
    requires NoEdits(plan) && AllSound(job, x) && i < 3
    ensures AllSound(job, ApplyStep(job, plan, x, i).0)
  {
    StatusSound(job, x, i, Running);
    var x0 := SetStatus(x, i, Running);
    var p := x.steps[i].portal;
    InvokeSound(job, plan, x0, ApplyPhase, i, Inspect);
    InspectReads(job, plan, x0, ApplyPhase, p);
    var (x1, seen) := Invoke(job, plan, x0, ApplyPhase, p, Inspect);
    if seen.Done? {
      ApplyObservedSound(job, plan, x1, i, x.steps[i].status, seen.value);
    }
  }

  lemma ApplyRecordedSound(job: Job, plan: Plan, x: Exec, i: nat, prior: StepStatus, seen: PortalState,
                           desired: PortalState)
    requires NoEdits(plan) && AllSound(job, x) && i < 3 && x.steps[i].before.Some?
    ensures AllSound(job, ApplyRecorded(job, plan, x, i, prior, seen, desired).0)
  {
    StatusSound(job, x, i, Applied);
    StatusSound(job, x, i, Unchanged);
    InvokeSound(job, plan, x, ApplyPhase, i, Apply(Block));
    StatusSound(job, Invoke(job, plan, x, ApplyPhase, x.steps[i].portal, Apply(Block)).0, i, Applied);
  }

  lemma ApplyObservedSound(job: Job, plan: Plan, x: Exec, i: nat, prior: StepStatus, seen: PortalState)
    requires NoEdits(plan) && AllSound(job, x) && i < 3
    requires Read(x.world, x.steps[i].portal) == Some(seen)
    ensures AllSound(job, ApplyObserved(job, plan, x, i, prior, seen).0)
  {
    var step := x.steps[i];
    assert StepSound(step, x.world);
    var first := step.before.None?;
    if first && InitialStateError(job, step.portal, seen).Some? {
      return;
    }
    if first {
      RecordSound(job, x, i, seen);
    }
    var before := if first then seen else step.before.value;
    var x1 := x.(steps := x.steps[i := step.(before := Some(before), desired := Some(Target(before)))]);
    assert first || x1 == x;
    if !first && seen != before && seen != Target(before) {
      return;
    }
    CheckpointEffect(plan, x1, ApplyPhase);
    var (x2, alive) := Checkpoint(plan, x1, ApplyPhase);
    assert AllSound(job, x2);
    if !alive.Died? {
      ApplyRecordedSound(job, plan, x2, i, prior, seen, Target(before));
    }
  }

  lemma {:induction false} RunForwardSound(job: Job, plan: Plan, x: Exec, i: nat)
    requires NoEdits(plan) && AllSound(job, x) && i <= 3
    ensures AllSound(job, RunForward(job, plan, x, i).0)
    decreases 3 - i
  {
    if i == 3 {
      return;
    }
    CheckpointEffect(plan, x, ApplyPhase);
    var (x0, current) := Checkpoint(plan, x, ApplyPhase);
    assert AllSound(job, x0);
    if current.Died? {
      return;
    }
    ApplyStepSound(job, plan, x0, i);
    var (x1, signal) := ApplyStep(job, plan, x0, i);
    if signal.Done? {
      RunForwardSound(job, plan, x1, i + 1);
    } else if signal.Raised? {
      CheckpointEffect(plan, x1, ApplyPhase);
      var x2 := Checkpoint(plan, x1, ApplyPhase).0;
      assert AllSound(job, x2);
      StatusSound(job, x2, i, StepFailed);
    }
  }

  lemma CompensateStepSound(job: Job, plan: Plan, x: Exec, i: nat)
    requires NoEdits(plan) && AllSound(job, x) && i < 3 && x.steps[i].before.Some?
    ensures StepSound(x.steps[i], x.world) && AllSound(job, CompensateStep(job, plan, x, i).0)
  {
    var step := x.steps[i];
    assert StepSound(step, x.world);
    InvokeSound(job, plan, x, CompensationPhase, i, Inspect);
    var (x1, seen) := Invoke(job, plan, x, CompensationPhase, step.portal, Inspect);
    StatusSound(job, x1, i, CompensationFailed);
    StatusSound(job, x1, i, Compensated);
    if seen.Done? {
      var request := Restore(seen.value, step.before.value);
      InvokeSound(job, plan, x1, CompensationPhase, i, request);
      var x2 := Invoke(job, plan, x1, CompensationPhase, step.portal, request).0;
      StatusSound(job, x2, i, CompensationFailed);
      StatusSound(job, x2, i, Compensated);
    }
  }

  lemma {:induction false} CompensateSound(job: Job, plan: Plan, x: Exec, n: nat)
    requires NoEdits(plan) && AllSound(job, x) && n <= 3
    ensures AllSound(job, Compensate(job, plan, x, n).0)
    decreases n
  {
    if n == 0 {
      return;
    }
    assert StepSound(x.steps[n - 1], x.world);
    if x.steps[n - 1].before.None? {
      CompensateSound(job, plan, x, n - 1);
    } else {
      CompensateStepSound(job, plan, x, n - 1);
      var (x1, undone) := CompensateStep(job, plan, x, n - 1);
      if undone.Done? {
        CompensateSound(job, plan, x1, n - 1);
      }
    }
  }

  lemma ExecuteSound(job: Job, plan: Plan, session: bool, x: Exec)
    requires NoEdits(plan) && AllSound(job, x)
    ensures AllSound(job, Execute(job, plan, session, x).0)
  {
    if session {
      RunForwardSound(job, plan, x, 0);
      var (x1, forward) := RunForward(job, plan, x, 0);
      if forward.AllApplied? {
        CheckpointEffect(plan, x1, ApplyPhase);
      } else if forward.FailedAt? {
        CompensateSound(job, plan, x1, forward.index + 1);
        CheckpointEffect(plan, Compensate(job, plan, x1, forward.index + 1).0, CompensationPhase);
      }
    }
  }

  // ----- Executions in which nothing fails after a change -----

  /** Calls are at most refused, and only while applying. */
  ghost predicate OnlyRefusals(plan: Plan) {
    && (forall n :: plan(ApplyPhase, n).fault == Fine || plan(ApplyPhase, n).fault == Refused)
    && (forall n :: plan(CompensationPhase, n).fault == Fine)
  }

  lemma InspectSound(job: Job, plan: Plan, x: Exec, phase: Phase, i: nat)
    requires NoEdits(plan) && AllSound(job, x) && i < 3 && x.steps[i].before.Some?
    requires plan(phase, x.tick).fault == Fine
    ensures Invoke(job, plan, x, phase, x.steps[i].portal, Inspect).1 == Done(View(x.world, x.steps[i].portal))
    ensures View(x.world, x.steps[i].portal) == x.steps[i].before.value ||
            Some(View(x.world, x.steps[i].portal)) == x.steps[i].desired
  {
    assert plan(phase, x.tick).edit(x.world) == x.world;
    assert StepSound(x.steps[i], x.world);
    SoundShows(x.world, x.steps[i].portal, x.steps[i].before.value);
  }

  lemma CompensateStepWorks(job: Job, plan: Plan, x: Exec, i: nat)
    requires NoEdits(plan) && OnlyRefusals(plan) && AllSound(job, x) && i < 3 && x.steps[i].before.Some?
    requires job.scenario != FailTasksApplyAndFilesCompensation
    ensures StepSound(x.steps[i], x.world) && CompensateStep(job, plan, x, i).1 == Done(true)
  {
    var step := x.steps[i];
    assert StepSound(step, x.world);
    InspectSound(job, plan, x, CompensationPhase, i);
    InvokeSound(job, plan, x, CompensationPhase, i, Inspect);
    InspectReads(job, plan, x, CompensationPhase, step.portal);
    var (x1, seen) := Invoke(job, plan, x, CompensationPhase, step.portal, Inspect);
    assert plan(CompensationPhase, x1.tick).edit(x1.world) == x1.world;
    ServeRestores(x1.world, step.portal, step.before.value, job.scenario, CompensationPhase);
  }

  lemma {:induction false} CompensateWorks(job: Job, plan: Plan, x: Exec, n: nat)
    requires NoEdits(plan) && OnlyRefusals(plan) && AllSound(job, x) && n <= 3
    requires job.scenario != FailTasksApplyAndFilesCompensation
    ensures Compensate(job, plan, x, n).1 == Done(true)
    decreases n
  {
    if n == 0 {
      return;
    }
    assert StepSound(x.steps[n - 1], x.world);
    if x.steps[n - 1].before.None? {
      CompensateWorks(job, plan, x, n - 1);
    } else {
      CompensateStepWorks(job, plan, x, n - 1);
      CompensateStepSound(job, plan, x, n - 1);
      CompensateWorks(job, plan, CompensateStep(job, plan, x, n - 1).0, n - 1);
    }
  }

  // ----- What a forward pass reaches -----

  /** Positions below `n` show their desired states. */
  predicate ReachedDesired(x: Exec, n: nat)
    requires n <= |x.steps|
  {
    forall i :: 0 <= i < n ==> Some(View(x.world, x.steps[i].portal)) == x.steps[i].desired && x.steps[i].before.Some?
  }

  lemma ApplyStepReaches(job: Job, plan: Plan, x: Exec, i: nat)
    requires NoEdits(plan) && i < |x.steps|
    ensures var (x', signal) := ApplyStep(job, plan, x, i);
            signal.Done? ==> Some(View(x'.world, x.steps[i].portal)) == x'.steps[i].desired && x'.steps[i].before.Some?
  {
    var step := x.steps[i];
    var x0 := SetStatus(x, i, Running);
    InvokeEffect(job, plan, x0, ApplyPhase, step.portal, Inspect);
    var (x1, seen) := Invoke(job, plan, x0, ApplyPhase, step.portal, Inspect);
    if !seen.Done? {
      return;
    }
    var first := step.before.None?;
    if first && InitialStateError(job, step.portal, seen.value).Some? {
      return;
    }
    var desired := if !first && step.desired.Some? then step.desired else DesiredState(job, step.portal, seen.value);
    if desired.None? {
      return;
    }
    var before := if first then seen.value else step.before.value;
    var x2 := x1.(steps := x1.steps[i := x1.steps[i].(before := Some(before), desired := desired)]);
    CheckpointEffect(plan, x2, ApplyPhase);
    var (x3, alive) := Checkpoint(plan, x2, ApplyPhase);
    InvokeEffect(job, plan, x3, ApplyPhase, step.portal, Apply(job.action));
  }

  lemma StepKeepsReached(job: Job, x: Exec, x': Exec, i: nat)
    requires Shaped(job, x.steps) && i < 3 && StepEffect(x, x', i) && ReachedDesired(x, i)
    requires Some(View(x'.world, x.steps[i].portal)) == x'.steps[i].desired && x'.steps[i].before.Some?
    ensures ReachedDesired(x', i + 1)
  {
    forall j | 0 <= j < i
      ensures Some(View(x'.world, x'.steps[j].portal)) == x'.steps[j].desired && x'.steps[j].before.Some?
    {
      assert x'.steps[j] == x.steps[j] && x.steps[j].portal != x.steps[i].portal;
      assert Same(x.world, x'.world, x.steps[j].portal);
    }
  }

  /** A forward pass that applied every step left every portal in its desired state. */
  lemma {:induction false} RunForwardReaches(job: Job, plan: Plan, x: Exec, i: nat)
    requires NoEdits(plan) && Shaped(job, x.steps) && i <= 3 && ReachedDesired(x, i)
    ensures var (x', forward) := RunForward(job, plan, x, i);
            forward.AllApplied? ==> |x'.steps| == 3 && ReachedDesired(x', 3)
    decreases 3 - i
  {
    if i == 3 {
      return;
    }
    CheckpointEffect(plan, x, ApplyPhase);
    var (x0, current) := Checkpoint(plan, x, ApplyPhase);
    if current.Died? {
      return;
    }
    ApplyStepReaches(job, plan, x0, i);
    ApplyStepEffect(job, plan, x0, i);
    var (x1, signal) := ApplyStep(job, plan, x0, i);
    if signal.Done? {
      StepKeepsReached(job, x0, x1, i);
      RunForwardReaches(job, plan, x1, i + 1);
    }
  }

  /** With refusals only, the worker is never lost; and no marker is reported unless the portal shows one. */
  lemma {:induction false} RunForwardSurvives(job: Job, plan: Plan, x: Exec, i: nat, w: World)
    requires NoEdits(plan) && OnlyRefusals(plan) && Shaped(job, x.steps) && i <= 3
    requires TracksStart(x, w) && !HasMarker(Views(w.rows))
    ensures var (x', forward) := RunForward(job, plan, x, i);
            !forward.Lost? && (forward.FailedAt? ==> forward.code != MarkerWithoutSnapshot)
    decreases 3 - i
  {
    if i == 3 {
      return;
    }
    CheckpointEffect(plan, x, ApplyPhase);
    var x0 := Checkpoint(plan, x, ApplyPhase).0;
    ApplyStepSurvives(job, plan, x0, i, w);
    ApplyStepEffect(job, plan, x0, i);
    var (x1, signal) := ApplyStep(job, plan, x0, i);
    StepTracksStart(job, x0, x1, i, w);
    if signal.Done? {
      RunForwardSurvives(job, plan, x1, i + 1, w);
    }
  }

  lemma ApplyStepSurvives(job: Job, plan: Plan, x: Exec, i: nat, w: World)
    requires NoEdits(plan) && OnlyRefusals(plan) && i < |x.steps|
    requires TracksStart(x, w) && !HasMarker(Views(w.rows))
    ensures var signal := ApplyStep(job, plan, x, i).1;
            !signal.Died? && signal != Raised(MarkerWithoutSnapshot)
  {
    var step := x.steps[i];
    var x0 := SetStatus(x, i, Running);
    InvokeEffect(job, plan, x0, ApplyPhase, step.portal, Inspect);
    var (x1, seen) := Invoke(job, plan, x0, ApplyPhase, step.portal, Inspect);
    if step.before.None? && step.portal == Tasks && seen.Done? {
      assert Same(w, x.world, Tasks);
      assert seen.value.tasks == Views(w.rows);
    }
  }

  /** A first block whose calls are only refused, and only while applying, and before anything changes, ends
      with every portal blocked, or failed with every portal as it was; never partially. */
  lemma FirstBlockIsNeverPartial(history: seq<Operation>, s: Saga, plan: Plan, session: bool)
    requires s.operation == NewOperation(Block, s.operation.scenario) && s.client.status == Runs.Active
    requires s.operation.scenario != FailTasksApplyAndFilesCompensation
    requires !HasMarker(Views(s.world.rows))
    requires NoEdits(plan) && OnlyRefusals(plan)
    ensures var s' := ExecuteOperation(history, s, plan, session);
            || (s'.operation.status == Runs.Succeeded && s'.client.status == Runs.Blocked &&
                forall p :: View(s'.world, p) == Target(View(s.world, p)))
            || (s'.operation.status == Runs.Failed && s'.client.status == Runs.Active &&
                forall p :: View(s'.world, p) == View(s.world, p))
  {
    var job := JobOf(history, s.operation, s.client);
    var x := Exec(s.world, s.operation.steps, 0, s.trace);
    FirstExecutionIsAllOrNothing(history, s, plan, session);
    if session {
      FirstBlockVerdict(job, plan, x);
    }
  }

  lemma FirstBlockVerdict(job: Job, plan: Plan, x: Exec)
    requires AllSound(job, x) && TracksStart(x, x.world) && ReachedDesired(x, 0)
    requires job.scenario != FailTasksApplyAndFilesCompensation
    requires !HasMarker(Views(x.world.rows))
    requires NoEdits(plan) && OnlyRefusals(plan)
    ensures var (x', verdict) := Execute(job, plan, true, x);
            || (verdict == Success && forall p :: View(x'.world, p) == Target(View(x.world, p)))
            || (verdict.Failure? && !verdict.residual && verdict.code != MarkerWithoutSnapshot)
  {
    RunForwardSurvives(job, plan, x, 0, x.world);
    RunForwardSound(job, plan, x, 0);
    var (x1, forward) := RunForward(job, plan, x, 0);
    if forward.AllApplied? {
      RunForwardReaches(job, plan, x, 0);
      RunForwardEffect(job, plan, x, 0, x.world);
      CheckpointEffect(plan, x1, ApplyPhase);
      AllBlocked(job, x1, x.world);
    } else {
      CompensateWorks(job, plan, x1, forward.index + 1);
    }
  }

  lemma AllBlocked(job: Job, x: Exec, w: World)
    requires AllSound(job, x) && ReachedDesired(x, 3) && TracksStart(x, w)
    ensures forall p :: View(x.world, p) == Target(View(w, p))
  {
    forall p
      ensures View(x.world, p) == Target(View(w, p))
    {
      PortalHasStep(job, x.steps, p);
      var i :| 0 <= i < 3 && x.steps[i].portal == p;
      assert StepSound(x.steps[i], x.world);
    }
  }

  // ----- A resumed block that meets no failure -----

  /** Portals not yet recorded can be recorded. */
  predicate Ready(x: Exec) {
    forall i :: 0 <= i < |x.steps| && x.steps[i].before.None? ==>
      Blockable(x.steps[i].portal, View(x.world, x.steps[i].portal))
  }

  lemma ApplyStepCompletes(job: Job, plan: Plan, x: Exec, i: nat)
    requires NoEdits(plan) && NoFaults(plan) && AllSound(job, x) && Ready(x) && i < 3 && job.scenario == HappyPath
    ensures ApplyStep(job, plan, x, i).1.Done?
  {
    var step := x.steps[i];
    var p := step.portal;
    assert StepSound(step, x.world);
    var first := step.before.None?;
    var b := if first then View(x.world, p) else step.before.value;
    assert Blockable(p, b);
    assert first ==> IsFree(x.world, p, b);
    assert Sound(x.world, p, b);
    SoundShows(x.world, p, b);
    var x0 := SetStatus(x, i, Running);
    assert plan(ApplyPhase, x0.tick).edit(x0.world) == x0.world;
    var (x1, seen) := Invoke(job, plan, x0, ApplyPhase, p, Inspect);
    assert seen == Done(View(x.world, p));
    if first {
      StatusSound(job, x, i, Running);
      assert InitialStateError(job, p, b).None?;
      RecordSound(job, x1, i, b);
    }
    var x2 := x1.(steps := x1.steps[i := x1.steps[i].(before := Some(b), desired := Some(Target(b)))]);
    CheckpointEffect(plan, x2, ApplyPhase);
    var x3 := Checkpoint(plan, x2, ApplyPhase).0;
    assert plan(ApplyPhase, x3.tick).edit(x3.world) == x3.world;
    ServeBlocks(x.world, p, b, HappyPath, ApplyPhase);
  }

  lemma {:induction false} RunForwardCompletes(job: Job, plan: Plan, x: Exec, i: nat)
    requires NoEdits(plan) && NoFaults(plan) && AllSound(job, x) && Ready(x) && i <= 3 && job.scenario == HappyPath
    ensures RunForward(job, plan, x, i).1.AllApplied?
    decreases 3 - i
  {
    if i == 3 {
      return;
    }
    CheckpointEffect(plan, x, ApplyPhase);
    var x0 := Checkpoint(plan, x, ApplyPhase).0;
    assert AllSound(job, x0) && Ready(x0);
    ApplyStepCompletes(job, plan, x0, i);
    ApplyStepSound(job, plan, x0, i);
    ApplyStepEffect(job, plan, x0, i);
    var x1 := ApplyStep(job, plan, x0, i).0;
    forall j | 0 <= j < 3 && x1.steps[j].before.None?
      ensures Blockable(x1.steps[j].portal, View(x1.world, x1.steps[j].portal))
    {
      assert j != i ==> x1.steps[j] == x0.steps[j] && x0.steps[j].portal != x0.steps[i].portal;
      assert Same(x0.world, x1.world, x1.steps[j].portal);
      assert x0.steps[j].before.None?;
    }
    RunForwardCompletes(job, plan, x1, i + 1);
  }

  // ----- The whole life of a block without outside edits -----

  ghost predicate WithoutEdits(events: seq<Event>) {
    forall event :: event in events ==>
      !event.EditPortals? && (event.Deliver? ==> NoEdits(event.plan))
  }

  ghost predicate BlockLife(s: Saga, w: World) {
    && WellShaped(s.operation) && s.operation.action == Block
    && (forall i :: 0 <= i < 3 ==> StepSound(s.operation.steps[i], s.world))
    && TracksStart(Exec(s.world, s.operation.steps, 0, s.trace), w)
    && (s.operation.status == Runs.Succeeded ==>
          && ReachedDesired(Exec(s.world, s.operation.steps, 0, s.trace), 3)
          && s.client == Client(Runs.Blocked, Some(View(w, Tasks))))
  }

  lemma SuccessReaches(job: Job, plan: Plan, session: bool, x: Exec, w: World)
    requires NoEdits(plan) && AllSound(job, x) && TracksStart(x, w)
    ensures var (x', verdict) := Execute(job, plan, session, x);
            verdict == Success ==>
              && ReachedDesired(x', 3)
              && StepFor(x'.steps, Tasks).Some? && StepFor(x'.steps, Tasks).value.before == Some(View(w, Tasks))
  {
    if session {
      RunForwardReaches(job, plan, x, 0);
      RunForwardSound(job, plan, x, 0);
      RunForwardEffect(job, plan, x, 0, w);
      var (x1, forward) := RunForward(job, plan, x, 0);
      if forward.AllApplied? {
        CheckpointEffect(plan, x1, ApplyPhase);
        TasksRecorded(job, x1, w);
      }
    }
  }

  lemma AdvanceBlock(history: seq<Operation>, s: Saga, event: Event, w: World)
    requires BlockLife(s, w) && WithoutEdits([event])
    ensures BlockLife(Advance(history, s, event), w)
  {
    assert event in [event];
    var s' := Advance(history, s, event);
    match event
    case Deliver(plan, session) =>
      if s.operation.status == Runs.Queued {
        var job := JobOf(history, s.operation, s.client);
        var x := Exec(s.world, s.operation.steps, 0, s.trace);
        assert AllSound(job, x);
        ExecuteSound(job, plan, session, x);
        ExecuteEffect(job, plan, session, x, w);
        SuccessReaches(job, plan, session, x, w);
        AdvanceKeepsSnapshots(history, s, event);
      }
    case FindLostWorker =>
      if s.operation.status == Runs.Running {
        forall i | 0 <= i < 3
          ensures StepSound(s'.operation.steps[i], s'.world)
        {
          assert StepSound(s.operation.steps[i], s.world);
        }
        assert forall i :: 0 <= i < 3 ==>
            s'.operation.steps[i] == s.operation.steps[i].(status := s'.operation.steps[i].status);
        assert TracksStart(Exec(s.world, s.operation.steps, 0, s.trace), w);
      }
    case AskResume =>
    case EditPortals(_) => assert false;
  }

  lemma {:induction false} LiveBlock(history: seq<Operation>, s: Saga, events: seq<Event>, w: World)
    requires BlockLife(s, w) && WithoutEdits(events)
    ensures BlockLife(Live(history, s, events), w)
    decreases |events|
  {
    if events != [] {
      AdvanceBlock(history, s, events[0], w);
      LiveBlock(history, Advance(history, s, events[0]), events[1..], w);
    }
  }

  /** From any partially failed block, however it got there, one resumption whose calls all work ends with the
      block done: every portal blocked, the client blocked, and the tasks as they were before the very first
      execution kept for the later unblock. */
  lemma ResumedBlockCompletes(history: seq<Operation>, s0: Saga, events: seq<Event>, plan: Plan)
    requires s0.operation == NewOperation(Block, s0.operation.scenario)
    requires Blockable(Tasks, View(s0.world, Tasks)) && WithoutEdits(events)
    requires Live(history, s0, events).operation.status == Runs.PartiallyFailed
    requires NoEdits(plan) && NoFaults(plan)
    ensures var s := Advance(history, Advance(history, Live(history, s0, events), AskResume), Deliver(plan, true));
            && s.operation.status == Runs.Succeeded
            && s.client == Client(Runs.Blocked, Some(View(s0.world, Tasks)))
            && forall p :: View(s.world, p) == Target(View(s0.world, p))
  {
    var w := s0.world;
    LiveBlock(history, s0, events, w);
    var r := Resume(Live(history, s0, events));
    var job := JobOf(history, r.operation, r.client);
    var x := Exec(r.world, r.operation.steps, 0, r.trace);
    assert AllSound(job, x);
    forall i | 0 <= i < 3 && x.steps[i].before.None?
      ensures Blockable(x.steps[i].portal, View(x.world, x.steps[i].portal))
    {
      assert Same(w, x.world, x.steps[i].portal);
    }
    ExecutionCompletes(job, plan, x, w);
  }

  lemma ExecutionCompletes(job: Job, plan: Plan, x: Exec, w: World)
    requires NoEdits(plan) && NoFaults(plan) && AllSound(job, x) && Ready(x) && job.scenario == HappyPath
    requires TracksStart(x, w)
    ensures var (x', verdict) := Execute(job, plan, true, x);
            && verdict == Success && (forall p :: View(x'.world, p) == Target(View(w, p)))
            && StepFor(x'.steps, Tasks).Some?
            && StepFor(x'.steps, Tasks).value.before == Some(View(w, Tasks))
  {
    RunForwardCompletes(job, plan, x, 0);
    RunForwardSound(job, plan, x, 0);
    RunForwardReaches(job, plan, x, 0);
    RunForwardEffect(job, plan, x, 0, w);
    var x1 := RunForward(job, plan, x, 0).0;
    CheckpointEffect(plan, x1, ApplyPhase);
    AllBlocked(job, x1, w);
    TasksRecorded(job, x1, w);
  }

  lemma TasksRecorded(job: Job, x: Exec, w: World)
    requires AllSound(job, x) && ReachedDesired(x, 3) && TracksStart(x, w)
    ensures StepFor(x.steps, Tasks).Some? && StepFor(x.steps, Tasks).value.before == Some(View(w, Tasks))
  {
    assert x.steps[0].portal == Files && x.steps[1].portal == Accounting && x.steps[2].portal == Tasks;
    assert StepFor(x.steps[2..], Tasks) == Some(x.steps[2]);
    assert StepFor(x.steps[1..], Tasks) == StepFor(x.steps[2..], Tasks) by {
      assert x.steps[1..][1..] == x.steps[2..];
    }
    assert StepFor(x.steps, Tasks) == StepFor(x.steps[1..], Tasks);
  }
}
