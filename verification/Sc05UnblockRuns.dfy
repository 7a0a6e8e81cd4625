/** Executions of an unblock that only meet refusals. A restore marks the tasks again, so that an unblock that is
    refused before it changes anything never ends partially done either. */
module Sc05UnblockRuns {
  import opened Options
  import opened Sc05Portals
  import opened Sc05Saga
  import opened Sc05Snapshots
  import opened Sc05Operations
  import opened Sc05Compensation
  import opened Sc05Block
  import opened Sc05BlockRuns
  import opened Sc05Unblock
  import Runs

  // ----- The tasks portal can be marked again -----

  /** The rows of a blocked client: nothing is blank, each open row is marked and remembers an assignee, and no closed
      row is marked. */
  predicate AllTaken(rows: seq<TaskRow>) {
    forall row <- rows ::
      && !IsBlank(row.assignee) && !IsBlank(row.reference)
      && (if row.isOpen then row.assignee == BLOCKED_TASK_OWNER && !IsBlank(row.previousAssignee)
          else row.assignee != BLOCKED_TASK_OWNER)
  }

  lemma AllTakenRow(rows: seq<TaskRow>, i: nat)
    requires AllTaken(rows) && i < |rows|
    ensures var row := rows[i];
            && !IsBlank(row.assignee) && !IsBlank(row.reference)
            && (if row.isOpen then row.assignee == BLOCKED_TASK_OWNER && !IsBlank(row.previousAssignee)
                else row.assignee != BLOCKED_TASK_OWNER)
            && ViewOf(BlockRow(UnblockRow(row))) == ViewOf(row)
            && !IsBlank(UnblockRow(row).assignee)
  {
    assert rows[i] in rows;
  }

  /** After the tasks were given back, a restore to what the portal showed before submits a block and confirms it. */
  lemma RestoreMarksAgain(w: World, phase: Phase)
    requires w.clientActive && AllTaken(w.rows) && exists row <- w.rows :: row.isOpen
    ensures Act(w, Tasks, Unblock).Some?
    ensures var w' := Act(w, Tasks, Unblock).value;
            Serve(w', Tasks, Restore(View(w', Tasks), View(w, Tasks)), HappyPath, phase).reply == Some(View(w, Tasks))
  {
    forall row | row in w.rows
      ensures !(row.assignee == BLOCKED_TASK_OWNER && IsBlank(row.previousAssignee))
    {
      var i :| 0 <= i < |w.rows| && w.rows[i] == row;
      AllTakenRow(w.rows, i);
    }
    var w' := Act(w, Tasks, Unblock).value;
    var again := BlockRows(w'.rows);
    forall i | 0 <= i < |w.rows|
      ensures ViewOf(again[i]) == ViewOf(w.rows[i])
      ensures !IsBlank(w'.rows[i].assignee) && !IsBlank(w'.rows[i].reference)
      ensures !IsBlank(again[i].assignee) && !IsBlank(again[i].reference)
    {
      AllTakenRow(w.rows, i);
    }
    assert Views(again) == Views(w.rows);
    MarkedIsBlock(w);
  }

  lemma MarkedIsBlock(w: World)
    requires w.clientActive && AllTaken(w.rows) && exists row <- w.rows :: row.isOpen
    ensures RestoreAction(Tasks, View(w, Tasks)) == Some(Block)
  {
    var tasks := Views(w.rows);
    var row :| row in w.rows && row.isOpen;
    var k :| 0 <= k < |w.rows| && w.rows[k] == row;
    assert tasks[k] in tasks;
    forall t | t in tasks && t.isOpen
      ensures t.assignee == BLOCKED_TASK_OWNER
    {
      var i :| 0 <= i < |tasks| && tasks[i] == t;
      AllTakenRow(w.rows, i);
    }
  }

  // ----- What an unblock keeps -----

  /** `b` is the task list of the snapshot. */
  predicate GoodSnapshot(b: PortalState) {
    Blockable(Tasks, b) && UniqueReferences(b.tasks)
  }

  /** A recorded portal shows its recorded or its desired state; the tasks portal moves between the two. */
  predicate StepFine(step: Step, w: World, b: PortalState) {
    && Paired(step)
    && (step.before.Some? ==>
          if step.portal == Tasks then step.before == Some(Target(b)) && step.desired == Some(b) && Sound(w, Tasks, b)
          else step.before.value.Account? && step.desired.value.Account? &&
               (View(w, step.portal) == step.before.value || Some(View(w, step.portal)) == step.desired))
    && (step.before.None? && step.portal == Tasks ==> IsTaken(w, Tasks, b))
  }

  predicate AllFine(job: Job, x: Exec, b: PortalState) {
    && job.action == Unblock && job.snapshot == Some(b) && GoodSnapshot(b)
    && Shaped(job, x.steps) && forall i :: 0 <= i < 3 ==> StepFine(x.steps[i], x.world, b)
  }

  lemma FineFrame(step: Step, w: World, w': World, b: PortalState)
    requires StepFine(step, w, b) && Same(w, w', step.portal)
    ensures StepFine(step, w', b)
  {
  }

  lemma OthersFine(job: Job, x: Exec, x': Exec, i: nat, b: PortalState)
    requires AllFine(job, x, b) && i < 3 && OtherStepsSame(x.steps, x'.steps, i) &&
             x'.steps[i].portal == x.steps[i].portal
    requires OthersSame(x.world, x'.world, x.steps[i].portal) && StepFine(x'.steps[i], x'.world, b)
    ensures AllFine(job, x', b)
  {
    forall j | 0 <= j < 3
      ensures StepFine(x'.steps[j], x'.world, b)
    {
      if j != i {
        assert x'.steps[j] == x.steps[j] && x.steps[j].portal != x.steps[i].portal;
        assert Same(x.world, x'.world, x.steps[j].portal);
        FineFrame(x.steps[j], x.world, x'.world, b);
      }
    }
  }

  /** What the program desires for the tasks of a blocked client is the snapshot. */
  lemma DesiresSnapshot(job: Job, w: World, b: PortalState)
    requires job.action == Unblock && job.snapshot == Some(b) && GoodSnapshot(b) && IsTaken(w, Tasks, b)
    ensures View(w, Tasks) == Target(b) && DesiredState(job, Tasks, Target(b)) == Some(b)
  {
    TakenShows(w, Tasks, b);
    RestoreAssigneesIs(b.tasks);
    var back := RestoreAssignees(b.tasks).value;
    forall row | row in w.rows
      ensures Returnable(row, back)
    {
      BlockedRowsReturnable(w.rows, b.tasks, back, row);
    }
    RowsOfSnapshot(w.rows, b.tasks, back);
    UnblockDesires(w.rows, b.tasks, back);
    UnblockProduces(w, back);
    UnblockFrees(w, b);
    FreeShows(Act(w, Tasks, Unblock).value, Tasks, b);
  }

  lemma RowsOfSnapshot(rows: seq<TaskRow>, tasks: seq<TaskView>, back: map<string, string>)
    requires RowsTaken(rows, tasks) && UniqueReferences(tasks) && IsBackOf(tasks, back)
    ensures UniqueRows(rows) && forall r <- back :: exists row <- rows :: row.reference == r
  {
    forall i | 0 <= i < |rows|
      ensures rows[i].reference == tasks[i].reference
    {
      assert RowTaken(rows[i], tasks[i]);
    }
    forall r | r in back
      ensures exists row <- rows :: row.reference == r
    {
      var t :| t in tasks && t.isOpen && t.reference == r;
      var k :| 0 <= k < |tasks| && tasks[k] == t;
      assert rows[k] in rows;
    }
  }

  /** Giving back, from the recorded state. */
  lemma ApplyFine(w: World, step: Step, b: PortalState, scenario: Scenario)
    requires StepFine(step, w, b) && step.before.Some? && GoodSnapshot(b)
    requires Some(View(w, step.portal)) != step.desired
    ensures StepFine(step, Serve(w, step.portal, Apply(Unblock), scenario, ApplyPhase).world, b)
  {
    if step.portal == Tasks {
      UnblockFrees(w, b);
    }
  }

  /** Restoring, from the desired state. */
  lemma RestoreWorks(w: World, step: Step, b: PortalState, scenario: Scenario)
    requires StepFine(step, w, b) && step.before.Some? && GoodSnapshot(b)
    requires Some(View(w, step.portal)) == step.desired && step.desired != step.before
    ensures var served :=
            Serve(w, step.portal, Restore(View(w, step.portal), step.before.value), scenario, CompensationPhase);
            && StepFine(step, served.world, b)
            && (!HasFault(step.portal, scenario, CompensationPhase) ==> served.reply == step.before)
  {
    if step.portal == Tasks {
      SoundShows(w, Tasks, b);
      BlockTakes(w, Tasks, b);
      TakenShows(Act(w, Tasks, Block).value, Tasks, b);
      TargetIsMarked(b);
    }
  }

  lemma TargetIsMarked(b: PortalState)
    requires GoodSnapshot(b) && Target(b) != b
    ensures RestoreAction(Tasks, Target(b)) == Some(Block)
  {
    var tasks := Target(b).tasks;
    assert tasks != b.tasks;
    var k :| 0 <= k < |tasks| && tasks[k] != b.tasks[k];
    assert tasks[k].isOpen && tasks[k] in tasks;
    forall t | t in tasks && t.isOpen
      ensures t.assignee == BLOCKED_TASK_OWNER
    {
      var i :| 0 <= i < |tasks| && tasks[i] == t;
    }
  }

  // ----- The forward pass -----

  lemma FineReads(w: World, step: Step, b: PortalState)
    requires StepFine(step, w, b) && GoodSnapshot(b)
    ensures Read(w, step.portal) == Some(View(w, step.portal))
  {
    if step.portal == Tasks {
      if step.before.Some? {
        SoundShows(w, Tasks, b);
      } else {
        TakenShows(w, Tasks, b);
      }
    }
  }

  lemma RecordedFine(job: Job, x: Exec, i: nat, b: PortalState, desired: PortalState)
    requires AllFine(job, x, b) && i < 3 && x.steps[i].before.None?
    requires DesiredState(job, x.steps[i].portal, View(x.world, x.steps[i].portal)) == Some(desired)
    ensures StepFine(x.steps[i].(before := Some(View(x.world, x.steps[i].portal)), desired := Some(desired)),
                     x.world, b)
  {
    assert StepFine(x.steps[i], x.world, b);
    if x.steps[i].portal == Tasks {
      DesiresSnapshot(job, x.world, b);
    }
  }

  lemma StatusFine(job: Job, x: Exec, i: nat, status: StepStatus, b: PortalState)
    requires AllFine(job, x, b) && i < 3
    ensures AllFine(job, SetStatus(x, i, status), b)
  {
    assert StepFine(x.steps[i], x.world, b);
    OthersFine(job, x, SetStatus(x, i, status), i, b);
  }

  lemma AppliedFine(job: Job, plan: Plan, x: Exec, i: nat, prior: StepStatus, seen: PortalState, desired: PortalState,
                    b: PortalState)
    requires NoEdits(plan) && AllFine(job, x, b) && i < 3 && x.steps[i].before.Some? &&
             x.steps[i].desired == Some(desired)
    requires seen == View(x.world, x.steps[i].portal)
    ensures AllFine(job, ApplyRecorded(job, plan, x, i, prior, seen, desired).0, b)
  {
    StatusFine(job, x, i, Applied, b);
    StatusFine(job, x, i, Unchanged, b);
    if seen != desired {
      var p := x.steps[i].portal;
      assert StepFine(x.steps[i], x.world, b);
      assert plan(ApplyPhase, x.tick).edit(x.world) == x.world;
      ApplyFine(x.world, x.steps[i], b, job.scenario);
      InvokeEffect(job, plan, x, ApplyPhase, p, Apply(Unblock));
      var x1 := Invoke(job, plan, x, ApplyPhase, p, Apply(Unblock)).0;
      OthersFine(job, x, x1, i, b);
      StatusFine(job, x1, i, Applied, b);
    }
  }

  lemma ApplyStepFine(job: Job, plan: Plan, x: Exec, i: nat, b: PortalState)
    requires NoEdits(plan) && AllFine(job, x, b) && i < 3
    ensures AllFine(job, ApplyStep(job, plan, x, i).0, b)
    ensures ApplyStep(job, plan, x, i).1 != Raised(MarkerWithoutSnapshot)
  {
    StatusFine(job, x, i, Running, b);
    var x0 := SetStatus(x, i, Running);
    var p := x.steps[i].portal;
    InvokeEffect(job, plan, x0, ApplyPhase, p, Inspect);
    var (x1, seen) := Invoke(job, plan, x0, ApplyPhase, p, Inspect);
    assert AllFine(job, x1, b);
    if seen.Done? {
      ObservedFine(job, plan, x1, i, x.steps[i].status, seen.value, b);
    }
  }

  lemma ObservedFine(job: Job, plan: Plan, x: Exec, i: nat, prior: StepStatus, seen: PortalState, b: PortalState)
    requires NoEdits(plan) && AllFine(job, x, b) && i < 3 && seen == View(x.world, x.steps[i].portal)
    ensures AllFine(job, ApplyObserved(job, plan, x, i, prior, seen).0, b)
    ensures ApplyObserved(job, plan, x, i, prior, seen).1 != Raised(MarkerWithoutSnapshot)
  {
    var step := x.steps[i];
    assert StepFine(step, x.world, b);
    var first := step.before.None?;
    var desired := if !first then step.desired else DesiredState(job, step.portal, seen);
    if desired.None? {
      return;
    }
    if first {
      RecordedFine(job, x, i, b, desired.value);
    }
    var x1 := Recording(x, i, seen, desired.value);
    OthersFine(job, x, x1, i, b);
    CheckedFine(job, plan, x1, i, prior, seen, desired.value, b);
    ObservedIs(job, plan, x, i, prior, seen, desired.value);
  }

  /** The execution once the states of step `i` are on record. */
  function Recording(x: Exec, i: nat, seen: PortalState, desired: PortalState): Exec
    requires i < |x.steps|
  {
    var step := x.steps[i];
    x.(steps := x.steps[i := step.(before := Some(if step.before.None? then seen else step.before.value),
                                   desired := Some(desired))])
  }

  lemma ObservedIs(job: Job, plan: Plan, x: Exec, i: nat, prior: StepStatus, seen: PortalState, desired: PortalState)
    requires i < |x.steps| && job.action == Unblock && (x.steps[i].before.None? <==> x.steps[i].desired.None?)
    requires Some(desired) == if x.steps[i].desired.Some? then x.steps[i].desired
                              else DesiredState(job, x.steps[i].portal, seen)
    ensures var x1 := Recording(x, i, seen, desired);
            var (x2, alive) := Checkpoint(plan, x1, ApplyPhase);
            ApplyObserved(job, plan, x, i, prior, seen) ==
              if x.steps[i].before.Some? && seen != x.steps[i].before.value && seen != desired
              then (x1, Raised(StateConflict))
              else if alive.Died? then (x2, Died) else ApplyRecorded(job, plan, x2, i, prior, seen, desired)
  {
  }

  lemma CheckedFine(job: Job, plan: Plan, x: Exec, i: nat, prior: StepStatus, seen: PortalState, desired: PortalState,
                    b: PortalState)
    requires NoEdits(plan) && AllFine(job, x, b) && i < 3 && x.steps[i].before.Some? &&
             x.steps[i].desired == Some(desired)
    requires seen == View(x.world, x.steps[i].portal)
    ensures var x2 := Checkpoint(plan, x, ApplyPhase).0;
            && AllFine(job, x2, b) && AllFine(job, ApplyRecorded(job, plan, x2, i, prior, seen, desired).0, b)
            && ApplyRecorded(job, plan, x2, i, prior, seen, desired).1 != Raised(MarkerWithoutSnapshot)
  {
    CheckpointEffect(plan, x, ApplyPhase);
    var x2 := Checkpoint(plan, x, ApplyPhase).0;
    assert AllFine(job, x2, b);
    AppliedFine(job, plan, x2, i, prior, seen, desired, b);
  }

  lemma {:induction false} RunForwardFine(job: Job, plan: Plan, x: Exec, i: nat, b: PortalState)
    requires NoEdits(plan) && OnlyRefusals(plan) && AllFine(job, x, b) && i <= 3
    ensures var (x', forward) := RunForward(job, plan, x, i);
            AllFine(job, x', b) && !forward.Lost? && (forward.FailedAt? ==> forward.code != MarkerWithoutSnapshot)
    decreases 3 - i
  {
    if i == 3 {
      return;
    }
    CheckpointEffect(plan, x, ApplyPhase);
    var x0 := Checkpoint(plan, x, ApplyPhase).0;
    assert AllFine(job, x0, b);
    ApplyStepFine(job, plan, x0, i, b);
    StepIsNotLost(job, plan, x0, i);
    var (x1, signal) := ApplyStep(job, plan, x0, i);
    if signal.Done? {
      RunForwardFine(job, plan, x1, i + 1, b);
    } else {
      CheckpointEffect(plan, x1, ApplyPhase);
      var x2 := Checkpoint(plan, x1, ApplyPhase).0;
      assert AllFine(job, x2, b);
      StatusFine(job, x2, i, StepFailed, b);
    }
  }

  lemma StepIsNotLost(job: Job, plan: Plan, x: Exec, i: nat)
    requires OnlyRefusals(plan) && i < |x.steps|
    ensures !ApplyStep(job, plan, x, i).1.Died?
  {
  }

  // ----- Compensation -----

  lemma UndoStepWorks(job: Job, plan: Plan, x: Exec, i: nat, b: PortalState)
    requires NoEdits(plan) && OnlyRefusals(plan) && AllFine(job, x, b) && i < 3 && x.steps[i].before.Some?
    requires job.scenario != FailTasksApplyAndFilesCompensation
    ensures x.steps[i].desired.Some?
    ensures CompensateStep(job, plan, x, i).1 == Done(true) && AllFine(job, CompensateStep(job, plan, x, i).0, b)
  {
    var step := x.steps[i];
    var p := step.portal;
    assert StepFine(step, x.world, b);
    FineReads(x.world, step, b);
    if p == Tasks {
      SoundShows(x.world, p, b);
    }
    assert plan(CompensationPhase, x.tick).edit(x.world) == x.world;
    var x1 := Invoke(job, plan, x, CompensationPhase, p, Inspect).0;
    assert x1.world == x.world && x1.steps == x.steps && AllFine(job, x1, b);
    StatusFine(job, x1, i, Compensated, b);
    if View(x.world, p) != step.before.value {
      assert plan(CompensationPhase, x1.tick).edit(x1.world) == x1.world;
      RestoreWorks(x1.world, step, b, job.scenario);
      var request := Restore(View(x.world, p), step.before.value);
      InvokeEffect(job, plan, x1, CompensationPhase, p, request);
      var x2 := Invoke(job, plan, x1, CompensationPhase, p, request).0;
      OthersFine(job, x1, x2, i, b);
      StatusFine(job, x2, i, Compensated, b);
    }
  }

  lemma {:induction false} UndoWorks(job: Job, plan: Plan, x: Exec, n: nat, b: PortalState)
    requires NoEdits(plan) && OnlyRefusals(plan) && AllFine(job, x, b) && n <= 3
    requires job.scenario != FailTasksApplyAndFilesCompensation
    ensures Compensate(job, plan, x, n).1 == Done(true)
    decreases n
  {
    if n == 0 {
      return;
    }
    assert StepFine(x.steps[n - 1], x.world, b);
    if x.steps[n - 1].before.None? {
      UndoWorks(job, plan, x, n - 1, b);
    } else {
      UndoStepWorks(job, plan, x, n - 1, b);
      UndoWorks(job, plan, CompensateStep(job, plan, x, n - 1).0, n - 1, b);
    }
  }

  // ----- A first unblock -----

  lemma FirstUnblockVerdict(job: Job, plan: Plan, x: Exec, b: PortalState)
    requires NoEdits(plan) && OnlyRefusals(plan) && AllFine(job, x, b) && ReachedDesired(x, 0)
    requires job.scenario != FailTasksApplyAndFilesCompensation
    ensures var (x', verdict) := Execute(job, plan, true, x);
            || (verdict == Success && View(x'.world, Tasks) == b)
            || (verdict.Failure? && !verdict.residual && verdict.code != MarkerWithoutSnapshot)
  {
    RunForwardFine(job, plan, x, 0, b);
    var (x1, forward) := RunForward(job, plan, x, 0);
    if forward.AllApplied? {
      RunForwardReaches(job, plan, x, 0);
      CheckpointEffect(plan, x1, ApplyPhase);
      assert x1.steps[0].portal == Tasks && StepFine(x1.steps[0], x1.world, b);
    } else {
      UndoWorks(job, plan, x1, forward.index + 1, b);
    }
  }

  /** A first unblock of a client whose tasks are as the block left them, and whose calls are only refused, only while
      applying, and before anything changes, ends with the client active and the assignees given back, or failed with
      the client blocked and every portal as it was; never partially. */
  lemma FirstUnblockIsNeverPartial(history: seq<Operation>, s: Saga, b: PortalState, plan: Plan, session: bool)
    requires s.operation == NewOperation(Unblock, s.operation.scenario)
    requires s.client == Client(Runs.Blocked, Some(b)) && GoodSnapshot(b) && IsTaken(s.world, Tasks, b)
    requires s.operation.scenario != FailTasksApplyAndFilesCompensation
    requires NoEdits(plan) && OnlyRefusals(plan)
    ensures var s' := ExecuteOperation(history, s, plan, session);
            || (s'.operation.status == Runs.Succeeded && s'.client == Client(Runs.Active, None) &&
                View(s'.world, Tasks) == b)
            || (s'.operation.status == Runs.Failed && s'.client == s.client &&
                forall p :: View(s'.world, p) == View(s.world, p))
  {
    var job := JobOf(history, s.operation, s.client);
    var x := Exec(s.world, s.operation.steps, 0, s.trace);
    FirstExecutionIsAllOrNothing(history, s, plan, session);
    if session {
      FirstUnblockVerdict(job, plan, x, b);
    } else {
      assert !HasResidualState(x.steps);
    }
  }
}
