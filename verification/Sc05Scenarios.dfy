/** How a first block ends in each of the demonstration scenarios, when nothing else goes wrong. */
module Sc05Scenarios {
  import opened Options
  import opened Sc05Portals
  import opened Sc05Saga
  import opened Sc05Snapshots
  import opened Sc05Operations
  import opened Sc05Compensation
  import opened Sc05Block
  import opened Sc05BlockRuns
  import Runs

  /** The block has something to do on this portal. */
  predicate ToDo(w: World, p: Portal) {
    View(w, p) != Target(View(w, p))
  }

  predicate Stops(job: Job, x: Exec, i: nat)
    requires i < |x.steps|
  {
    HasFault(x.steps[i].portal, job.scenario, ApplyPhase) && ToDo(x.world, x.steps[i].portal)
  }

  /** Nothing recorded yet from position `i` on, and every portal there can be blocked. */
  predicate Fresh(x: Exec, i: nat) {
    forall j :: i <= j < |x.steps| ==>
        x.steps[j].before.None? && Blockable(x.steps[j].portal, View(x.world, x.steps[j].portal))
  }

  /** One step: done, unless the scenario refuses the command; then nothing has changed, and the state is recorded. */
  lemma StepEnds(job: Job, plan: Plan, x: Exec, i: nat)
    requires NoEdits(plan) && NoFaults(plan) && AllSound(job, x) && i < 3 && Fresh(x, i)
    ensures var (x1, signal) := ApplyStep(job, plan, x, i);
            if Stops(job, x, i) then signal == Raised(CallFailed) && x1.world == x.world && x1.steps[i].before.Some?
            else signal.Done?
  {
    var p := x.steps[i].portal;
    var b := View(x.world, p);
    assert IsFree(x.world, p, b) && Sound(x.world, p, b);
    FreeShows(x.world, p, b);
    var x0 := SetStatus(x, i, Running);
    assert plan(ApplyPhase, x0.tick).edit(x0.world) == x0.world;
    var x1 := Invoke(job, plan, x0, ApplyPhase, p, Inspect).0;
    StatusSound(job, x, i, Running);
    RecordSound(job, x1, i, b);
    var x2 := x1.(steps := x1.steps[i := x1.steps[i].(before := Some(b), desired := Some(Target(b)))]);
    CheckpointEffect(plan, x2, ApplyPhase);
    var x3 := Checkpoint(plan, x2, ApplyPhase).0;
    assert plan(ApplyPhase, x3.tick).edit(x3.world) == x3.world;
    if !HasFault(p, job.scenario, ApplyPhase) {
      ServeBlocks(x.world, p, b, job.scenario, ApplyPhase);
    }
  }

  lemma FreshNext(job: Job, x: Exec, x1: Exec, i: nat)
    requires AllSound(job, x) && i < 3 && Fresh(x, i) && StepEffect(x, x1, i)
    ensures Fresh(x1, i + 1) && forall j :: i < j < 3 ==> Stops(job, x1, j) == Stops(job, x, j)
  {
    forall j | i < j < 3
      ensures x1.steps[j] == x.steps[j] && View(x1.world, x1.steps[j].portal) == View(x.world, x.steps[j].portal)
    {
      assert x.steps[j].portal != x.steps[i].portal;
      assert Same(x.world, x1.world, x.steps[j].portal);
    }
  }

  /** Position `n` is the first from `i` on at which the scenario refuses, or 3. */
  ghost predicate FirstStop(job: Job, x: Exec, i: nat, n: nat)
    requires |x.steps| == 3
  {
    i <= n <= 3 && (n < 3 ==> Stops(job, x, n)) && forall j :: i <= j < n ==> !Stops(job, x, j)
  }

  lemma {:induction false} PassEnds(job: Job, plan: Plan, x: Exec, i: nat, n: nat)
    requires NoEdits(plan) && NoFaults(plan) && AllSound(job, x) && i <= 3 && Fresh(x, i) && FirstStop(job, x, i, n)
    requires ReachedDesired(x, i)
    ensures var (x', forward) := RunForward(job, plan, x, i);
            && forward == (if n == 3 then AllApplied else FailedAt(n, CallFailed))
            && AllSound(job, x') && ReachedDesired(x', n) && (n < 3 ==> x'.steps[n].before.Some?)
    decreases 3 - i
  {
    RunForwardSound(job, plan, x, i);
    if i == 3 {
      return;
    }
    CheckpointEffect(plan, x, ApplyPhase);
    var x0 := Checkpoint(plan, x, ApplyPhase).0;
    assert AllSound(job, x0) && Fresh(x0, i) && Stops(job, x0, i) == Stops(job, x, i);
    StepEnds(job, plan, x0, i);
    ApplyStepEffect(job, plan, x0, i);
    ApplyStepSound(job, plan, x0, i);
    var x1 := ApplyStep(job, plan, x0, i).0;
    if Stops(job, x0, i) {
      CheckpointEffect(plan, x1, ApplyPhase);
    } else {
      ApplyStepReaches(job, plan, x0, i);
      StepKeepsReached(job, x0, x1, i);
      NextStops(job, x, x0, x1, i, n);
      PassEnds(job, plan, x1, i + 1, n);
    }
  }

  lemma NextStops(job: Job, x: Exec, x0: Exec, x1: Exec, i: nat, n: nat)
    requires AllSound(job, x0) && |x.steps| == 3 && x0.world == x.world && x0.steps == x.steps
    requires i < 3 && Fresh(x0, i) && StepEffect(x0, x1, i) && FirstStop(job, x, i, n) && !Stops(job, x0, i)
    ensures |x1.steps| == 3 && Fresh(x1, i + 1) && FirstStop(job, x1, i + 1, n)
  {
    FreshNext(job, x0, x1, i);
    forall j | i < j < 3
      ensures Stops(job, x1, j) == Stops(job, x, j)
    {
      assert Stops(job, x0, j) == Stops(job, x, j);
    }
  }

  // ----- Compensation in a scenario -----

  lemma UndoOne(job: Job, plan: Plan, x: Exec, i: nat)
    requires NoEdits(plan) && NoFaults(plan) && AllSound(job, x) && i < 3 && x.steps[i].before.Some?
    ensures x.steps[i].desired.Some?
    ensures var (x', undone) := CompensateStep(job, plan, x, i);
            if HasFault(x.steps[i].portal, job.scenario, CompensationPhase) &&
                View(x.world, x.steps[i].portal) != x.steps[i].before.value
            then undone == Done(false) && x'.world == x.world
            else undone == Done(true)
  {
    var step := x.steps[i];
    assert StepSound(step, x.world);
    SoundShows(x.world, step.portal, step.before.value);
    assert plan(CompensationPhase, x.tick).edit(x.world) == x.world;
    var x1 := Invoke(job, plan, x, CompensationPhase, step.portal, Inspect).0;
    assert plan(CompensationPhase, x1.tick).edit(x1.world) == x1.world;
    if !HasFault(step.portal, job.scenario, CompensationPhase) {
      ServeRestores(x.world, step.portal, step.before.value, job.scenario, CompensationPhase);
    }
  }

  /** The scenario that refuses the tasks and then the restoration of the files. */
  lemma FilesStayBlocked(job: Job, plan: Plan, x: Exec)
    requires NoEdits(plan) && NoFaults(plan) && AllSound(job, x) && job.scenario == FailTasksApplyAndFilesCompensation
    requires forall i :: 0 <= i < 3 ==> x.steps[i].before.Some?
    ensures var (x', undone) := Compensate(job, plan, x, 3);
            && undone == Done(x.steps[0].before == Some(View(x.world, Files)))
            && View(x'.world, Files) == View(x.world, Files)
            && Some(View(x'.world, Accounting)) == x.steps[1].before && Some(View(x'.world, Tasks)) == x.steps[2].before
  {
    assert x.steps[0].portal == Files && x.steps[1].portal == Accounting && x.steps[2].portal == Tasks;
    assert StepSound(x.steps[0], x.world) && StepSound(x.steps[1], x.world) && StepSound(x.steps[2], x.world);
    UndoOne(job, plan, x, 2);
    CompensateStepEffect(job, plan, x, 2);
    CompensateStepSound(job, plan, x, 2);
    var x1 := CompensateStep(job, plan, x, 2).0;
    assert StepSound(x1.steps[1], x1.world);
    UndoOne(job, plan, x1, 1);
    CompensateStepEffect(job, plan, x1, 1);
    CompensateStepSound(job, plan, x1, 1);
    var x2 := CompensateStep(job, plan, x1, 1).0;
    assert StepSound(x2.steps[0], x2.world);
    UndoOne(job, plan, x2, 0);
    CompensateStepEffect(job, plan, x2, 0);
    var (x3, last) := CompensateStep(job, plan, x2, 0);
    OthersAcross(x.world, x1.world, x2.world, x3.world);
    FilesUntouched(x2, x3, last);
    assert Compensate(job, plan, x3, 0) == (x3, Done(true));
    assert Compensate(job, plan, x2, 1) == (x3, last);
    assert Compensate(job, plan, x1, 2) == (x3, last);
  }

  lemma FilesUntouched(x2: Exec, x3: Exec, last: Signal<bool>)
    requires |x2.steps| == 3 && x2.steps[0].before.Some? && x2.steps[0].portal == Files && last.Done?
    requires last == Done(true) ==> View(x3.world, Files) == x2.steps[0].before.value
    requires last == Done(true) <==> View(x2.world, Files) == x2.steps[0].before.value
    requires last == Done(false) ==> x3.world == x2.world
    ensures View(x3.world, Files) == View(x2.world, Files)
  {
    if last.value {
      assert last == Done(true);
    } else {
      assert last == Done(false);
    }
  }

  lemma OthersAcross(w: World, w1: World, w2: World, w3: World)
    requires OthersSame(w, w1, Tasks) && OthersSame(w1, w2, Accounting) && OthersSame(w2, w3, Files)
    ensures View(w3, Tasks) == View(w1, Tasks) && View(w3, Accounting) == View(w2, Accounting)
    ensures View(w2, Files) == View(w, Files)
  {
    assert Same(w1, w2, Tasks) && Same(w2, w3, Tasks) && Same(w2, w3, Accounting) && Same(w, w1, Files) &&
        Same(w1, w2, Files);
  }

  // ----- The scenarios -----

  /** What a first block leaves: blocked everywhere, or failed and everything as before. */
  ghost predicate EndsBlocked(s: Saga, s': Saga) {
    && s'.operation.status == Runs.Succeeded && s'.client == Client(Runs.Blocked, Some(View(s.world, Tasks)))
    && forall p :: View(s'.world, p) == Target(View(s.world, p))
  }

  ghost predicate EndsAsBefore(s: Saga, s': Saga) {
    && s'.operation.status == Runs.Failed && s'.client.status == Runs.Active
    && forall p :: View(s'.world, p) == View(s.world, p)
  }

  ghost predicate EndsWithFilesBlocked(s: Saga, s': Saga) {
    && s'.operation.status == Runs.PartiallyFailed && s'.client.status == Runs.Partial
    && View(s'.world, Files) == Account(true)
    && View(s'.world, Accounting) == View(s.world, Accounting) && View(s'.world, Tasks) == View(s.world, Tasks)
  }

  /** Which portal a scenario refuses first, if it has anything to do there. */
  function StopOf(scenario: Scenario, w: World): nat {
    match scenario
    case HappyPath => 3
    case TimeoutAccountingApply => if ToDo(w, Accounting) then 1 else 3
    case FailTasksApply => if ToDo(w, Tasks) then 2 else 3
    case FailTasksApplyAndFilesCompensation => if ToDo(w, Tasks) then 2 else 3
  }

  lemma StopIsFirst(job: Job, x: Exec)
    requires job.action == Block && Shaped(job, x.steps)
    ensures FirstStop(job, x, 0, StopOf(job.scenario, x.world))
  {
    assert x.steps[0].portal == Files && x.steps[1].portal == Accounting && x.steps[2].portal == Tasks;
  }

  lemma NoStopBlocks(job: Job, plan: Plan, x: Exec)
    requires NoEdits(plan) && NoFaults(plan) && AllSound(job, x) && Fresh(x, 0) && TracksStart(x, x.world)
    requires StopOf(job.scenario, x.world) == 3
    ensures var (x', verdict) := Execute(job, plan, true, x);
            verdict == Success && forall p :: View(x'.world, p) == Target(View(x.world, p))
  {
    StopIsFirst(job, x);
    PassEnds(job, plan, x, 0, 3);
    RunForwardEffect(job, plan, x, 0, x.world);
    var x1 := RunForward(job, plan, x, 0).0;
    CheckpointEffect(plan, x1, ApplyPhase);
    AllBlocked(job, x1, x.world);
  }

  lemma StopFails(job: Job, plan: Plan, x: Exec)
    requires NoEdits(plan) && NoFaults(plan) && AllSound(job, x) && Fresh(x, 0)
    requires StopOf(job.scenario, x.world) < 3 && job.scenario != FailTasksApplyAndFilesCompensation
    ensures var verdict := Execute(job, plan, true, x).1;
            verdict.Failure? && !verdict.residual && verdict.code == CallFailed
  {
    var n := StopOf(job.scenario, x.world);
    StopIsFirst(job, x);
    PassEnds(job, plan, x, 0, n);
    UndoneAfterStop(job, plan, RunForward(job, plan, x, 0).0, n);
  }

  lemma UndoneAfterStop(job: Job, plan: Plan, x: Exec, n: nat)
    requires NoEdits(plan) && NoFaults(plan) && AllSound(job, x) && n < 3
    requires job.scenario != FailTasksApplyAndFilesCompensation
    ensures var verdict := AfterFailure(job, plan, x, n, CallFailed).1;
            verdict.Failure? && !verdict.residual && verdict.code == CallFailed
  {
    CompensateWorks(job, plan, x, n + 1);
  }

  predicate FreshBlock(s: Saga) {
    && s.operation == NewOperation(Block, s.operation.scenario) && s.client.status == Runs.Active
    && Blockable(Tasks, View(s.world, Tasks))
  }

  lemma BlockCompletes(history: seq<Operation>, s: Saga, plan: Plan)
    requires FreshBlock(s) && NoEdits(plan) && NoFaults(plan) && StopOf(s.operation.scenario, s.world) == 3
    ensures EndsBlocked(s, ExecuteOperation(history, s, plan, true))
  {
    var job := JobOf(history, s.operation, s.client);
    var x := Exec(s.world, s.operation.steps, 0, s.trace);
    NoStopBlocks(job, plan, x);
    SuccessReaches(job, plan, true, x, s.world);
  }

  lemma BlockIsUndone(history: seq<Operation>, s: Saga, plan: Plan)
    requires FreshBlock(s) && NoEdits(plan) && NoFaults(plan) && StopOf(s.operation.scenario, s.world) < 3
    requires s.operation.scenario != FailTasksApplyAndFilesCompensation
    ensures EndsAsBefore(s, ExecuteOperation(history, s, plan, true))
  {
    StopFails(JobOf(history, s.operation, s.client), plan, Exec(s.world, s.operation.steps, 0, s.trace));
    FirstExecutionIsAllOrNothing(history, s, plan, true);
  }

  /** Every step of the pass has been recorded, and the files portal has been blocked. */
  lemma FilesWereBlocked(job: Job, plan: Plan, x: Exec)
    requires NoEdits(plan) && NoFaults(plan) && AllSound(job, x) && Fresh(x, 0) && TracksStart(x, x.world)
    requires job.scenario == FailTasksApplyAndFilesCompensation && ToDo(x.world, Tasks)
    ensures var (x1, forward) := RunForward(job, plan, x, 0);
            && forward == FailedAt(2, CallFailed) && AllSound(job, x1) && View(x1.world, Files) == Account(true)
            && (forall i :: 0 <= i < 3 ==> x1.steps[i].before == Some(View(x.world, x1.steps[i].portal)))
  {
    StopIsFirst(job, x);
    PassEnds(job, plan, x, 0, 2);
    RunForwardEffect(job, plan, x, 0, x.world);
    var x1 := RunForward(job, plan, x, 0).0;
    assert x1.steps[0].portal == Files && StepSound(x1.steps[0], x1.world);
    assert x1.steps[0].before.Some? && x1.steps[1].before.Some? && x1.steps[2].before.Some?;
  }

  lemma FilesVerdict(job: Job, plan: Plan, x: Exec)
    requires NoEdits(plan) && NoFaults(plan) && AllSound(job, x) && Fresh(x, 0) && TracksStart(x, x.world)
    requires job.scenario == FailTasksApplyAndFilesCompensation && ToDo(x.world, Tasks)
    ensures var (x', verdict) := Execute(job, plan, true, x);
            && verdict == Failure(CallFailed, View(x.world, Files) != Account(true), 3)
            && View(x'.world, Files) == Account(true)
            && View(x'.world, Accounting) == View(x.world, Accounting) && View(x'.world, Tasks) == View(x.world, Tasks)
  {
    FilesWereBlocked(job, plan, x);
    var x1 := RunForward(job, plan, x, 0).0;
    assert x1.steps[0].portal == Files && x1.steps[1].portal == Accounting && x1.steps[2].portal == Tasks;
    FilesStayBlocked(job, plan, x1);
    CheckpointEffect(plan, Compensate(job, plan, x1, 3).0, CompensationPhase);
  }

  lemma FilesEnd(history: seq<Operation>, s: Saga, plan: Plan)
    requires FreshBlock(s) && NoEdits(plan) && NoFaults(plan)
    requires s.operation.scenario == FailTasksApplyAndFilesCompensation && ToDo(s.world, Tasks)
    ensures var s' := ExecuteOperation(history, s, plan, true);
            if s.world.filesBlocked then EndsAsBefore(s, s') else EndsWithFilesBlocked(s, s')
  {
    FilesVerdict(JobOf(history, s.operation, s.client), plan, Exec(s.world, s.operation.steps, 0, s.trace));
  }

  /** The demonstration scenarios end as they are announced: the happy path with everything blocked; a refusal of the
      tasks or of the accounting portal with everything as before; and the refusal of the tasks followed by that of
      the restoration with the files still blocked and the client partial. A portal that has nothing to be blocked
      refuses nothing. */
  lemma ScenariosEnd(history: seq<Operation>, s: Saga, plan: Plan)
    requires FreshBlock(s) && NoEdits(plan) && NoFaults(plan)
    ensures var s' := ExecuteOperation(history, s, plan, true);
            match s.operation.scenario
            case HappyPath => EndsBlocked(s, s')
            case TimeoutAccountingApply => if ToDo(s.world, Accounting) then EndsAsBefore(s, s') else EndsBlocked(s, s')
            case FailTasksApply => if ToDo(s.world, Tasks) then EndsAsBefore(s, s') else EndsBlocked(s, s')
            case FailTasksApplyAndFilesCompensation =>
              if !ToDo(s.world, Tasks) then EndsBlocked(s, s')
              else if s.world.filesBlocked then EndsAsBefore(s, s') else EndsWithFilesBlocked(s, s')
  {
    if StopOf(s.operation.scenario, s.world) == 3 {
      BlockCompletes(history, s, plan);
    } else if s.operation.scenario == FailTasksApplyAndFilesCompensation {
      FilesEnd(history, s, plan);
    } else {
      BlockIsUndone(history, s, plan);
    }
  }

  // ----- A client whose tasks are marked already -----

  /** A first block that finds a marked task makes the client unknown and fails, and leaves the tasks alone. */
  lemma MarkedTasksMakeClientUnknown(history: seq<Operation>, s: Saga, plan: Plan)
    requires s.operation == NewOperation(Block, HappyPath) && NoEdits(plan) && NoFaults(plan)
    requires s.world.clientActive && HasMarkerIn(s.world.rows) && Read(s.world, Tasks).Some?
    ensures var s' := ExecuteOperation(history, s, plan, true);
            s'.operation.status == Runs.Failed && s'.client.status == Runs.Unknown &&
                s'.client.snapshot == s.client.snapshot &&
            forall p :: View(s'.world, p) == View(s.world, p)
  {
    var job := JobOf(history, s.operation, s.client);
    var x := Exec(s.world, s.operation.steps, 0, s.trace);
    MarkedVerdict(job, plan, x);
    ExecuteEffect(job, plan, true, x, s.world);
    RestoredEverywhere(job, x, Execute(job, plan, true, x).0);
  }

  lemma MarkedVerdict(job: Job, plan: Plan, x: Exec)
    requires NoEdits(plan) && NoFaults(plan) && AllSound(job, x) && job.scenario == HappyPath
    requires forall i :: 0 <= i < 3 ==> x.steps[i].before.None?
    requires x.world.clientActive && HasMarkerIn(x.world.rows) && Read(x.world, Tasks).Some?
    ensures Execute(job, plan, true, x).1 == Failure(MarkerWithoutSnapshot, false, 3)
  {
    MarkedPass(job, plan, x);
    CompensateWorks(job, plan, RunForward(job, plan, x, 0).0, 3);
  }

  lemma RestoredEverywhere(job: Job, x: Exec, x': Exec)
    requires Shaped(job, x'.steps) && TracksStart(x', x.world) && BackToRecorded(x'.steps, x'.world, 0, 3)
    ensures forall p :: View(x'.world, p) == View(x.world, p)
  {
    forall p
      ensures View(x'.world, p) == View(x.world, p)
    {
      PortalHasStep(job, x'.steps, p);
      var i :| 0 <= i < 3 && x'.steps[i].portal == p;
      assert x'.steps[i].before.Some? ==> View(x'.world, p) == x'.steps[i].before.value;
      assert x'.steps[i].before.None? ==> Same(x.world, x'.world, p);
    }
  }

  predicate HasMarkerIn(rows: seq<TaskRow>) {
    exists row <- rows :: row.assignee == "BLOQUEADO_INADIMPLENCIA"
  }

  lemma AccountStepDone(job: Job, plan: Plan, x: Exec, i: nat)
    requires NoEdits(plan) && NoFaults(plan) && AllSound(job, x) && i < 3 && x.steps[i].portal != Tasks
    requires x.steps[i].before.None? && job.scenario == HappyPath
    ensures ApplyStep(job, plan, x, i).1.Done?
  {
    var p := x.steps[i].portal;
    var b := View(x.world, p);
    assert IsFree(x.world, p, b) && Sound(x.world, p, b);
    var x0 := SetStatus(x, i, Running);
    assert plan(ApplyPhase, x0.tick).edit(x0.world) == x0.world;
    var x1 := Invoke(job, plan, x0, ApplyPhase, p, Inspect).0;
    var x2 := x1.(steps := x1.steps[i := x1.steps[i].(before := Some(b), desired := Some(Target(b)))]);
    CheckpointEffect(plan, x2, ApplyPhase);
    var x3 := Checkpoint(plan, x2, ApplyPhase).0;
    assert plan(ApplyPhase, x3.tick).edit(x3.world) == x3.world;
    ServeBlocks(x.world, p, b, HappyPath, ApplyPhase);
  }

  lemma MarkedStep(job: Job, plan: Plan, x: Exec)
    requires NoEdits(plan) && NoFaults(plan) && AllSound(job, x) && x.steps[2].before.None? && job.scenario == HappyPath
    requires x.world.clientActive && HasMarkerIn(x.world.rows) && Read(x.world, Tasks).Some?
    ensures ApplyStep(job, plan, x, 2).1 == Raised(MarkerWithoutSnapshot)
  {
    var x0 := SetStatus(x, 2, Running);
    assert plan(ApplyPhase, x0.tick).edit(x0.world) == x0.world;
    var row :| row in x.world.rows && row.assignee == "BLOQUEADO_INADIMPLENCIA";
    var k :| 0 <= k < |x.world.rows| && x.world.rows[k] == row;
    assert Views(x.world.rows)[k] in Views(x.world.rows);
  }

  /** One account step of the pass. */
  lemma AccountPassed(job: Job, plan: Plan, x: Exec, i: nat)
    requires NoEdits(plan) && NoFaults(plan) && AllSound(job, x) && i < 3 && x.steps[i].portal != Tasks
    requires x.steps[i].before.None? && job.scenario == HappyPath
    ensures var x1 := ApplyStep(job, plan, Checkpoint(plan, x, ApplyPhase).0, i).0;
            && RunForward(job, plan, x, i) == RunForward(job, plan, x1, i + 1)
            && AllSound(job, x1) && Same(x.world, x1.world, Tasks) && OtherStepsSame(x.steps, x1.steps, i)
  {
    CheckpointEffect(plan, x, ApplyPhase);
    var x0 := Checkpoint(plan, x, ApplyPhase).0;
    assert AllSound(job, x0);
    AccountStepDone(job, plan, x0, i);
    ApplyStepEffect(job, plan, x0, i);
    ApplyStepSound(job, plan, x0, i);
    assert Same(x0.world, ApplyStep(job, plan, x0, i).0.world, Tasks);
  }

  lemma TasksRefused(job: Job, plan: Plan, x: Exec)
    requires NoEdits(plan) && NoFaults(plan) && AllSound(job, x) && x.steps[2].before.None? && job.scenario == HappyPath
    requires x.world.clientActive && HasMarkerIn(x.world.rows) && Read(x.world, Tasks).Some?
    ensures RunForward(job, plan, x, 2).1 == FailedAt(2, MarkerWithoutSnapshot)
  {
    CheckpointEffect(plan, x, ApplyPhase);
    var x0 := Checkpoint(plan, x, ApplyPhase).0;
    assert AllSound(job, x0);
    MarkedStep(job, plan, x0);
  }

  lemma MarkedPass(job: Job, plan: Plan, x: Exec)
    requires NoEdits(plan) && NoFaults(plan) && AllSound(job, x) && job.scenario == HappyPath
    requires forall i :: 0 <= i < 3 ==> x.steps[i].before.None?
    requires x.world.clientActive && HasMarkerIn(x.world.rows) && Read(x.world, Tasks).Some?
    ensures var (x1, forward) := RunForward(job, plan, x, 0);
            forward == FailedAt(2, MarkerWithoutSnapshot) && AllSound(job, x1)
  {
    RunForwardSound(job, plan, x, 0);
    AccountPassed(job, plan, x, 0);
    var x1 := ApplyStep(job, plan, Checkpoint(plan, x, ApplyPhase).0, 0).0;
    AccountPassed(job, plan, x1, 1);
    var x2 := ApplyStep(job, plan, Checkpoint(plan, x1, ApplyPhase).0, 1).0;
    ReadSame(x.world, x2.world);
    TasksRefused(job, plan, x2);
  }

  lemma ReadSame(w: World, w': World)
    requires w'.rows == w.rows && w'.clientActive == w.clientActive
    ensures Read(w', Tasks) == Read(w, Tasks)
  {
  }
}
