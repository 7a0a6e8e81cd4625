/** Which operations can be resumed safely. A resumed execution may close its run as "failed, everything
    restored" although a portal is still changed. Whether any execution can do so is decided by what the
    portals show, and by the step rows, before the resumption. */
module Sc05SafeResumption {
  import opened Options
  import opened Sc05Portals
  import opened Sc05Saga
  import opened Sc05Snapshots
  import opened Sc05Operations
  import opened Sc05Compensation
  import opened Sc05Block
  import opened Sc05BlockRuns
  import opened Sc05Resumption
  import Runs

  function Start(s: Saga): Exec {
    Exec(s.world, s.operation.steps, 0, s.trace)
  }

  /** What one execution reports as restored is restored, on all three portals. */
  ghost predicate RestorationIsComplete(history: seq<Operation>, s: Saga, plan: Plan, session: bool) {
    var (x', verdict) := Execute(JobOf(history, s.operation, s.client), plan, session, Start(s));
    verdict.Failure? && !verdict.residual ==> |x'.steps| == 3 && BackToRecorded(x'.steps, x'.world, 0, 3)
  }

  /** The portal of a step can be given back: it was never recorded, it shows its recorded state, or it shows the
      desired one and a restore without faults leads back. */
  predicate Undoable(step: Step, w: World) {
    var seen := View(w, step.portal);
    step.before.Some? ==>
      && Read(w, step.portal) == Some(seen)
      && (seen == step.before.value ||
          (Some(seen) == step.desired &&
           Serve(w, step.portal, Restore(seen, step.before.value), HappyPath, CompensationPhase).reply == step.before))
  }

  predicate FirstUndoable(s: Saga)
    requires |s.operation.steps| == 3
  {
    Undoable(s.operation.steps[0], s.world)
  }

  /** The condition a caller can check before the resumption: every portal shows its recorded state; or some step row
      tells of a possible change and either the second and third portals show theirs, or the first one cannot be
      given back, so that no execution will ever report that it was. */
  ghost predicate SafeToResume(s: Saga)
    requires |s.operation.steps| == 3
  {
    || BackToRecorded(s.operation.steps, s.world, 0, 3)
    || (HasResidualState(s.operation.steps) &&
        (!FirstUndoable(s) || BackToRecorded(s.operation.steps, s.world, 1, 3)))
  }

  /** The compensation of the first position alone, when nothing goes wrong in it. */
  lemma FirstIsGivenBack(job: Job, plan: Plan, x: Exec)
    requires NoEdits(plan) && (forall k :: plan(CompensationPhase, k).fault == Fine) && job.scenario == HappyPath
    requires |x.steps| == 3 && Paired(x.steps[0]) && Undoable(x.steps[0], x.world)
    ensures Compensate(job, plan, x, 1).1 == Done(true)
  {
    if x.steps[0].before.None? {
      assert Compensate(job, plan, x, 0) == (x, Done(true));
    } else {
      var p := x.steps[0].portal;
      assert plan(CompensationPhase, x.tick).edit(x.world) == x.world;
      var x1 := Invoke(job, plan, x, CompensationPhase, p, Inspect).0;
      assert plan(CompensationPhase, x1.tick).edit(x1.world) == x1.world;
      var (x2, undone) := CompensateStep(job, plan, x, 0);
      assert undone == Done(true);
      CompensateFirst(job, plan, x, x2);
    }
  }

  /** A resumed execution refused at its very first call takes responsibility for the first position only, and
      reports success. */
  lemma RefusedAtOnce(job: Job, s: Saga)
    requires WellShaped(s.operation) && FirstUndoable(s) && job.scenario == HappyPath
    ensures Execute(job, FailingAt(INSPECT_FILES, Refused), true, Start(s)).1 == Failure(CallFailed, false, 1)
  {
    var plan := FailingAt(INSPECT_FILES, Refused);
    var x := Start(s);
    FailingAtIsClean(INSPECT_FILES, Refused);
    var x0 := Checkpoint(plan, x, ApplyPhase).0;
    assert x0 == x.(tick := 1);
    var x1 := ApplyStep(job, plan, x0, 0).0;
    assert ApplyStep(job, plan, x0, 0).1 == Raised(CallFailed) && x1.world == x.world && x1.tick == 2;
    assert x1.steps == x.steps[0 := x.steps[0].(status := Running)];
    var x2 := SetStatus(Checkpoint(plan, x1, ApplyPhase).0, 0, StepFailed);
    assert RunForward(job, plan, x, 0) == (x2, FailedAt(0, CallFailed));
    FirstIsGivenBack(job, plan, x2);
  }

  // ----- A first portal that cannot be given back -----

  ghost predicate Stuck(job: Job, x: Exec) {
    Shaped(job, x.steps) && (forall i :: 0 <= i < 3 ==> Paired(x.steps[i])) && !Undoable(x.steps[0], x.world)
  }

  lemma SameSubmit(w: World, w': World, p: Portal, action: Action)
    requires Same(w, w', p)
    ensures Read(w', p) == Read(w, p)
    ensures Submit(w', p, action, HappyPath, CompensationPhase).reply ==
            Submit(w, p, action, HappyPath, CompensationPhase).reply
  {
    if p == Tasks {
      assert w'.clientActive == w.clientActive && w'.rows == w.rows;
    }
  }

  lemma SameReply(w: World, w': World, p: Portal, expected: PortalState, target: PortalState)
    requires Same(w, w', p)
    ensures Read(w', p) == Read(w, p)
    ensures Serve(w', p, Restore(expected, target), HappyPath, CompensationPhase).reply ==
            Serve(w, p, Restore(expected, target), HappyPath, CompensationPhase).reply
  {
    SameSubmit(w, w', p, Block);
    SameSubmit(w, w', p, Unblock);
  }

  /** It depends on that portal and on what is recorded of it. */
  lemma UndoableFrame(step: Step, w: World, step': Step, w': World)
    requires step'.portal == step.portal && step'.before == step.before && step'.desired == step.desired
    requires Same(w, w', step.portal)
    ensures Undoable(step', w') <==> Undoable(step, w)
  {
    if step.before.Some? {
      SameReply(w, w', step.portal, View(w, step.portal), step.before.value);
    }
  }

  lemma StuckStays(job: Job, x: Exec, x': Exec)
    requires Stuck(job, x) && Shaped(job, x'.steps) && forall i :: 0 <= i < 3 ==> Paired(x'.steps[i])
    requires x'.steps[0] == x.steps[0].(status := x'.steps[0].status) && Same(x.world, x'.world, x.steps[0].portal)
    ensures Stuck(job, x')
  {
    UndoableFrame(x.steps[0], x.world, x'.steps[0], x'.world);
  }

  /** The forward pass never changes such a portal: it is unreadable, in a foreign state, or already as desired. */
  lemma FirstStaysStuck(job: Job, plan: Plan, x: Exec)
    requires NoEdits(plan) && Stuck(job, x)
    ensures var x' := ApplyStep(job, plan, x, 0).0;
            x'.world == x.world && x'.steps == x.steps[0 := x.steps[0].(status := x'.steps[0].status)]
  {
    var step := x.steps[0];
    var x0 := SetStatus(x, 0, Running);
    InvokeEffect(job, plan, x0, ApplyPhase, step.portal, Inspect);
    InspectReads(job, plan, x0, ApplyPhase, step.portal);
    var (x1, seen) := Invoke(job, plan, x0, ApplyPhase, step.portal, Inspect);
    if seen.Done? {
      assert step.desired.Some? && seen.value == View(x.world, step.portal) && seen.value != step.before.value;
      var x2 := x1.(steps := x1.steps[0 := x1.steps[0].(before := step.before, desired := step.desired)]);
      assert x2 == x1;
      CheckpointEffect(plan, x1, ApplyPhase);
    }
  }

  lemma ApplyStaysStuck(job: Job, plan: Plan, x: Exec, i: nat)
    requires NoEdits(plan) && Stuck(job, x) && i < 3
    ensures Stuck(job, ApplyStep(job, plan, x, i).0)
  {
    var x' := ApplyStep(job, plan, x, i).0;
    ApplyStepConsistent(job, plan, x, i, |x.trace|);
    if i == 0 {
      FirstStaysStuck(job, plan, x);
    } else {
      ApplyStepEffect(job, plan, x, i);
      assert x.steps[0].portal != x.steps[i].portal;
      assert x'.steps[0] == x.steps[0];
    }
    StuckStays(job, x, x');
  }

  lemma {:induction false} ForwardStaysStuck(job: Job, plan: Plan, x: Exec, i: nat)
    requires NoEdits(plan) && Stuck(job, x) && i <= 3
    ensures Stuck(job, RunForward(job, plan, x, i).0)
    decreases 3 - i
  {
    if i == 3 {
      return;
    }
    CheckpointEffect(plan, x, ApplyPhase);
    var (x0, current) := Checkpoint(plan, x, ApplyPhase);
    StuckStays(job, x, x0);
    if current.Died? {
      return;
    }
    ApplyStaysStuck(job, plan, x0, i);
    var (x1, signal) := ApplyStep(job, plan, x0, i);
    if signal.Done? {
      ForwardStaysStuck(job, plan, x1, i + 1);
    } else if signal.Raised? {
      CheckpointEffect(plan, x1, ApplyPhase);
      var x2 := Checkpoint(plan, x1, ApplyPhase).0;
      StuckStays(job, x1, x2);
      StuckStays(job, x2, SetStatus(x2, i, StepFailed));
    }
  }

  /** A scripted fault only takes replies away. */
  lemma FaultsOnlyRefuse(w: World, p: Portal, expected: PortalState, target: PortalState, scenario: Scenario)
    ensures var reply := Serve(w, p, Restore(expected, target), scenario, CompensationPhase).reply;
            reply.None? || reply == Serve(w, p, Restore(expected, target), HappyPath, CompensationPhase).reply
  {
  }

  lemma FirstIsNotGivenBack(job: Job, plan: Plan, x: Exec)
    requires NoEdits(plan) && Stuck(job, x)
    ensures x.steps[0].before.Some? && x.steps[0].desired.Some?
    ensures CompensateStep(job, plan, x, 0).1 != Done(true)
  {
    var step := x.steps[0];
    InspectReads(job, plan, x, CompensationPhase, step.portal);
    var (x1, seen) := Invoke(job, plan, x, CompensationPhase, step.portal, Inspect);
    if seen.Done? && Some(seen.value) == step.desired {
      assert plan(CompensationPhase, x1.tick).edit(x1.world) == x1.world;
      FaultsOnlyRefuse(x.world, step.portal, seen.value, step.before.value, job.scenario);
    }
  }

  /** Hence no compensation reports success. */
  lemma {:induction false} StuckIsNeverUndone(job: Job, plan: Plan, x: Exec, n: nat)
    requires NoEdits(plan) && Stuck(job, x) && 1 <= n <= 3
    ensures Compensate(job, plan, x, n).1 != Done(true)
    decreases n
  {
    if n == 1 {
      FirstIsNotGivenBack(job, plan, x);
    } else if x.steps[n - 1].before.None? {
      StuckIsNeverUndone(job, plan, x, n - 1);
    } else {
      CompensateStepEffect(job, plan, x, n - 1);
      var (x1, undone) := CompensateStep(job, plan, x, n - 1);
      StillPaired(job, x, x1, n - 1);
      assert x.steps[0].portal != x.steps[n - 1].portal;
      StuckStays(job, x, x1);
      StuckIsNeverUndone(job, plan, x1, n - 1);
    }
  }

  /** Every failure with a session leaves residual state on record. */
  lemma StuckFailsResidually(job: Job, plan: Plan, x: Exec)
    requires NoEdits(plan) && Stuck(job, x)
    ensures var verdict := Execute(job, plan, true, x).1; verdict.Failure? ==> verdict.residual
  {
    ForwardStaysStuck(job, plan, x, 0);
    var (x1, forward) := RunForward(job, plan, x, 0);
    if forward.FailedAt? {
      StuckIsNeverUndone(job, plan, x1, forward.index + 1);
    }
  }

  // ----- Both directions -----

  /** One direction, for any execution. */
  lemma SafeResumptionRestores(history: seq<Operation>, s: Saga, plan: Plan, session: bool)
    requires WellShaped(s.operation) && NoEdits(plan) && SafeToResume(s)
    ensures RestorationIsComplete(history, s, plan, session)
  {
    var job := JobOf(history, s.operation, s.client);
    ResumedRestorationIsComplete(history, s, plan, session);
    if session && BackToRecorded(s.operation.steps, s.world, 1, 3) {
      ReachedIsPositive(job, plan, Start(s));
    } else if session {
      StuckFailsResidually(job, plan, Start(s));
    }
  }

  lemma ReachedIsPositive(job: Job, plan: Plan, x: Exec)
    requires |x.steps| == 3
    ensures var verdict := Execute(job, plan, true, x).1;
            verdict.Failure? ==> verdict.reached >= 1
  {
  }

  /** The other direction: without the condition one of two executions reports a restoration that is none. The
      first cannot open its session, the second is refused at its first call. */
  lemma UnsafeResumptionLies(history: seq<Operation>, s: Saga)
    requires WellShaped(s.operation) && s.operation.resumeCount > 0 && !SafeToResume(s)
    ensures var job := JobOf(history, s.operation, s.client);
            var plan := FailingAt(INSPECT_FILES, Refused);
            || (!HasResidualState(s.operation.steps) && !RestorationIsComplete(history, s, plan, false))
            || (Execute(job, plan, true, Start(s)).1 == Failure(CallFailed, false, 1)
                && !RestorationIsComplete(history, s, plan, true))
    ensures NoEdits(FailingAt(INSPECT_FILES, Refused))
  {
    var plan := FailingAt(INSPECT_FILES, Refused);
    FailingAtIsClean(INSPECT_FILES, Refused);
    if HasResidualState(s.operation.steps) {
      RefusedAtOnce(JobOf(history, s.operation, s.client), s);
      ResumedRestorationIsComplete(history, s, plan, true);
    } else {
      assert !RestorationIsComplete(history, s, plan, false);
    }
  }

  /** A resumption of any operation, block or unblock, can be trusted, whatever fails in it, exactly when every portal
      shows its recorded state; or some step row tells of a possible change and the second and third portals show
      theirs, or the first cannot be given back. */
  lemma ResumptionRestoresIff(history: seq<Operation>, s: Saga)
    requires WellShaped(s.operation) && s.operation.resumeCount > 0
    ensures (forall plan, session :: NoEdits(plan) ==> RestorationIsComplete(history, s, plan, session)) <==>
            || BackToRecorded(s.operation.steps, s.world, 0, 3)
            || (HasResidualState(s.operation.steps) &&
                (!FirstUndoable(s) || BackToRecorded(s.operation.steps, s.world, 1, 3)))
  {
    if SafeToResume(s) {
      forall plan, session | NoEdits(plan)
        ensures RestorationIsComplete(history, s, plan, session)
      {
        SafeResumptionRestores(history, s, plan, session);
      }
    } else {
      UnsafeResumptionLies(history, s);
    }
  }

  // ----- Blocks, from their creation on -----

  lemma SoundIsUndoable(s: Saga)
    requires WellShaped(s.operation) && StepSound(s.operation.steps[0], s.world)
    ensures FirstUndoable(s)
  {
    var step := s.operation.steps[0];
    if step.before.Some? {
      SoundShows(s.world, step.portal, step.before.value);
      ServeRestores(s.world, step.portal, step.before.value, HappyPath, CompensationPhase);
    }
  }

  predicate ShowsStart(w: World, w': World, p: Portal) {
    View(w', p) == View(w, p)
  }

  /** Recorded states are those of the start, and portals without one are untouched. */
  lemma BackIsAsAtStart(x: Exec, w: World, from: nat, to: nat)
    requires from <= to <= |x.steps| && TracksStart(x, w)
    ensures BackToRecorded(x.steps, x.world, from, to) <==>
            forall i :: from <= i < to ==> ShowsStart(w, x.world, x.steps[i].portal)
  {
    forall i | from <= i < to
      ensures (x.steps[i].before.Some? ==> View(x.world, x.steps[i].portal) == x.steps[i].before.value)
              <==> ShowsStart(w, x.world, x.steps[i].portal)
    {
      assert x.steps[i].before.None? ==> Same(w, x.world, x.steps[i].portal);
    }
  }

  /** The same for a block that is about to be executed again, in terms of the portals alone. */
  predicate ResumableBlock(s: Saga, w: World)
    requires |s.operation.steps| == 3
  {
    && ShowsStart(w, s.world, Accounting) && ShowsStart(w, s.world, Tasks)
    && (HasResidualState(s.operation.steps) || ShowsStart(w, s.world, Files))
  }

  /** A run that ends failed with its client active again leaves every portal as it was at the start. */
  predicate FailsCleanly(history: seq<Operation>, s: Saga, w: World, plan: Plan, session: bool) {
    var s' := Advance(history, s, Deliver(plan, session));
    s'.operation.status == Runs.Failed && s'.client.status == Runs.Active ==>
      forall p :: ShowsStart(w, s'.world, p)
  }

  lemma SafeIsResumable(s: Saga, w: World)
    requires BlockLife(s, w)
    ensures SafeToResume(s) <==> ResumableBlock(s, w)
  {
    var steps := s.operation.steps;
    assert steps[0].portal == Files && steps[1].portal == Accounting && steps[2].portal == Tasks;
    BackIsAsAtStart(Start(s), w, 1, 3);
    BackIsAsAtStart(Start(s), w, 0, 1);
  }

  lemma CleanIsComplete(history: seq<Operation>, s: Saga, w: World, plan: Plan, session: bool)
    requires BlockLife(s, w) && s.operation.status == Runs.Queued && NoEdits(plan)
    ensures var (x', verdict) := Execute(JobOf(history, s.operation, s.client), plan, session, Start(s));
            verdict.Failure? && !verdict.residual && verdict.code != MarkerWithoutSnapshot ==>
              (FailsCleanly(history, s, w, plan, session) <==> RestorationIsComplete(history, s, plan, session))
    ensures var verdict := Execute(JobOf(history, s.operation, s.client), plan, session, Start(s)).1;
            !(verdict.Failure? && !verdict.residual && verdict.code != MarkerWithoutSnapshot) ==>
              FailsCleanly(history, s, w, plan, session)
  {
    var job := JobOf(history, s.operation, s.client);
    ExecuteEffect(job, plan, session, Start(s), w);
    var (x', verdict) := Execute(job, plan, session, Start(s));
    BackIsAsAtStart(x', w, 0, 3);
    EveryPortal(job, x', w);
  }

  lemma EveryPortal(job: Job, x: Exec, w: World)
    requires Shaped(job, x.steps)
    ensures (forall i :: 0 <= i < 3 ==> ShowsStart(w, x.world, x.steps[i].portal)) <==>
            (forall p :: ShowsStart(w, x.world, p))
  {
    forall p | forall i :: 0 <= i < 3 ==> ShowsStart(w, x.world, x.steps[i].portal)
      ensures ShowsStart(w, x.world, p)
    {
      PortalHasStep(job, x.steps, p);
    }
  }

  /** For every block that was left partially failed, however it got there without outside edits: its
      resumption can be trusted exactly when the accounting portal and the tasks portal show what they showed
      before the block, and the files portal does too unless some step row tells of a possible change. */
  lemma BlockResumptionIsCleanIff(history: seq<Operation>, s0: Saga, events: seq<Event>)
    requires s0.operation == NewOperation(Block, s0.operation.scenario)
    requires Blockable(Tasks, View(s0.world, Tasks)) && WithoutEdits(events)
    requires Live(history, s0, events).operation.status == Runs.PartiallyFailed
    ensures var s := Advance(history, Live(history, s0, events), AskResume);
            (forall plan, session :: NoEdits(plan) ==> FailsCleanly(history, s, s0.world, plan, session))
            <==> |s.operation.steps| == 3 && ResumableBlock(s, s0.world)
  {
    var w := s0.world;
    LiveBlock(history, s0, events, w);
    var s := Resume(Live(history, s0, events));
    assert StepSound(s.operation.steps[0], s.world);
    SoundIsUndoable(s);
    SafeIsResumable(s, w);
    if SafeToResume(s) {
      forall plan, session | NoEdits(plan)
        ensures FailsCleanly(history, s, w, plan, session)
      {
        SafeResumptionRestores(history, s, plan, session);
        CleanIsComplete(history, s, w, plan, session);
      }
    } else {
      UnsafeResumptionLies(history, s);
      var plan := FailingAt(INSPECT_FILES, Refused);
      CleanIsComplete(history, s, w, plan, false);
      CleanIsComplete(history, s, w, plan, true);
    }
  }

  // ----- An unblock that loses track -----

  const MARKED: TaskRow := TaskRow("T1", BLOCKED_TASK_OWNER, "ana", true)
  const ADDED: TaskRow := TaskRow("T2", "bia", "", true)

  /** A client was blocked with one task, and another task was added since. */
  const BLOCKED: World := World(true, true, true, [MARKED, ADDED])
  const SNAPSHOT: PortalState := TaskList(true, [TaskView("T1", "ana", true)])
  const QUEUED_UNBLOCK: Saga :=
    Saga(NewOperation(Unblock, HappyPath), Client(Runs.Blocked, Some(SNAPSHOT)), BLOCKED, [])

  const TASKS_BEFORE: PortalState :=
    TaskList(true, [TaskView("T1", BLOCKED_TASK_OWNER, true), TaskView("T2", "bia", true)])
  const TASKS_AFTER: PortalState := TaskList(true, [TaskView("T1", "ana", true), TaskView("T2", "bia", true)])
  const GIVEN_BACK: seq<TaskRow> := [TaskRow("T1", "ana", "", true), ADDED]

  lemma UnblockIsQueuedAfterBlock()
    ensures BLOCKED.rows == BlockRows([TaskRow("T1", "ana", "", true)]) + [ADDED]
  {
  }

  lemma TasksAtStart()
    ensures Read(BLOCKED, Tasks) == Some(TASKS_BEFORE) == Some(View(BLOCKED, Tasks))
    ensures TaskUnblockState(Some(SNAPSHOT), TASKS_BEFORE) == Some(TASKS_AFTER)
  {
    OwnerIsNotBlank();
    NotBlank();
    assert View(BLOCKED, Tasks).tasks == TASKS_BEFORE.tasks;
    var back: map<string, string> := map["T1" := "ana"];
    assert SNAPSHOT.tasks[..0] == [];
    assert RestoreAssignees(SNAPSHOT.tasks) == Some(back);
    assert TASKS_BEFORE.tasks[0].reference == "T1";
    assert CanRestore(TASKS_BEFORE.tasks, back);
    assert Restored(TASKS_BEFORE.tasks, back) == TASKS_AFTER.tasks;
  }

  lemma NotBlank()
    ensures !IsBlank("ana") && !IsBlank("bia") && !IsBlank("T1") && !IsBlank("T2")
  {
    assert "ana"[0] in "ana" && "bia"[0] in "bia" && "T1"[0] in "T1" && "T2"[0] in "T2";
  }

  lemma TasksGivenBack()
    ensures Act(BLOCKED, Tasks, Unblock) == Some(BLOCKED.(rows := GIVEN_BACK))
    ensures Views(GIVEN_BACK) == TASKS_AFTER.tasks
  {
    NotBlank();
    assert UnblockRows(BLOCKED.rows) == GIVEN_BACK;
  }

  function UnblockCut(history: seq<Operation>): Saga {
    Quarantine(ExecuteOperation(history, QUEUED_UNBLOCK, FailingAt(APPLY_FILES, DiedAfter), true))
  }

  /** The worker dies right after the tasks were given back. */
  lemma DiedAfterTasks(history: seq<Operation>)
    ensures ExecuteOperation(history, QUEUED_UNBLOCK, FailingAt(APPLY_FILES, DiedAfter), true).operation.status ==
            Runs.Running
    ensures var s := UnblockCut(history);
            && s.operation.status == Runs.PartiallyFailed && s.operation.action == Unblock
            && s.world == BLOCKED.(rows := GIVEN_BACK)
            && s.operation.steps == [Step(Tasks, StepFailed, Some(TASKS_BEFORE), Some(TASKS_AFTER)),
                                     Step(Accounting, Pending, None, None), Step(Files, Pending, None, None)]
  {
    var plan := FailingAt(APPLY_FILES, DiedAfter);
    FailingAtIsClean(APPLY_FILES, DiedAfter);
    TasksAtStart();
    TasksGivenBack();
    var job := JobOf(history, QUEUED_UNBLOCK.operation, QUEUED_UNBLOCK.client);
    var x := Exec(BLOCKED, FreshSteps(Unblock), 0, []);
    var x0 := Checkpoint(plan, x, ApplyPhase).0;
    assert TASKS_BEFORE.tasks[0] != TASKS_AFTER.tasks[0];
    TasksApplied(job, plan, x0, TASKS_BEFORE, TASKS_AFTER, BLOCKED.(rows := GIVEN_BACK));
    LostAtFirst(job, plan, x);
  }

  lemma LostAtFirst(job: Job, plan: Plan, x: Exec)
    requires |x.steps| == 3 && Checkpoint(plan, x, ApplyPhase).1.Done?
    requires ApplyStep(job, plan, Checkpoint(plan, x, ApplyPhase).0, 0).1.Died?
    ensures Execute(job, plan, true, x) == (ApplyStep(job, plan, Checkpoint(plan, x, ApplyPhase).0, 0).0, WorkerLost)
  {
  }

  lemma TasksRecorded(job: Job, plan: Plan, x: Exec, before: PortalState, after: PortalState, w': World)
    requires plan == FailingAt(APPLY_FILES, DiedAfter) && NoEdits(plan) && x.tick == 3
    requires |x.steps| > 0 && x.steps[0] == Step(Tasks, Running, Some(before), Some(after))
    requires job.action == Unblock && job.scenario == HappyPath && before != after
    requires Read(x.world, Tasks) == Some(before) && Act(x.world, Tasks, Unblock) == Some(w')
    ensures var (x', signal) := ApplyRecorded(job, plan, x, 0, Pending, before, after);
            && signal.Died? && x'.world == w' && x'.steps == x.steps
  {
    assert plan(ApplyPhase, 3).edit(x.world) == x.world;
  }

  lemma TasksObserved(job: Job, plan: Plan, x: Exec, before: PortalState, after: PortalState, w': World)
    requires plan == FailingAt(APPLY_FILES, DiedAfter) && NoEdits(plan) && x.tick == 2
    requires |x.steps| > 0 && x.steps[0] == Step(Tasks, Running, None, None)
    requires job.action == Unblock && job.scenario == HappyPath && before != after
    requires Read(x.world, Tasks) == Some(before) && DesiredState(job, Tasks, before) == Some(after)
    requires Act(x.world, Tasks, Unblock) == Some(w')
    ensures var (x', signal) := ApplyObserved(job, plan, x, 0, Pending, before);
            && signal.Died? && x'.world == w'
            && x'.steps == x.steps[0 := Step(Tasks, Running, Some(before), Some(after))]
  {
    var x1 := x.(steps := x.steps[0 := Step(Tasks, Running, Some(before), Some(after))]);
    CheckpointEffect(plan, x1, ApplyPhase);
    TasksRecorded(job, plan, Checkpoint(plan, x1, ApplyPhase).0, before, after, w');
  }

  /** The tasks step of an unblock whose worker dies right after the command. */
  lemma TasksApplied(job: Job, plan: Plan, x: Exec, before: PortalState, after: PortalState, w': World)
    requires plan == FailingAt(APPLY_FILES, DiedAfter) && NoEdits(plan) && x.tick == 1
    requires |x.steps| > 0 && x.steps[0] == Step(Tasks, Pending, None, None)
    requires job.action == Unblock && job.scenario == HappyPath && before != after
    requires Read(x.world, Tasks) == Some(before) && DesiredState(job, Tasks, before) == Some(after)
    requires Act(x.world, Tasks, Unblock) == Some(w')
    ensures var (x', signal) := ApplyStep(job, plan, x, 0);
            && signal.Died? && x'.world == w'
            && x'.steps == x.steps[0 := Step(Tasks, Running, Some(before), Some(after))]
  {
    var x0 := SetStatus(x, 0, Running);
    assert plan(ApplyPhase, 1).edit(x.world) == x.world;
    var (x1, observed) := Invoke(job, plan, x0, ApplyPhase, Tasks, Inspect);
    assert observed == Done(before) && x1.world == x.world && x1.tick == 2;
    TasksObserved(job, plan, x1, before, after, w');
  }

  /** The simulator cannot put the marker back on one task alone. */
  lemma TasksCannotBeMarkedAgain(w: World)
    requires w == BLOCKED.(rows := GIVEN_BACK)
    ensures !Undoable(Step(Tasks, StepFailed, Some(TASKS_BEFORE), Some(TASKS_AFTER)), w)
  {
    assert View(w, Tasks).tasks[0].assignee == "ana" && TASKS_BEFORE.tasks[0].assignee == BLOCKED_TASK_OWNER;
    assert TASKS_BEFORE.tasks[1] in TASKS_BEFORE.tasks;
    assert RestoreAction(Tasks, TASKS_BEFORE) == Some(Unblock);
    var after := UnblockRows(w.rows);
    assert Views(after)[0].assignee == "ana";
  }

  /** A resumption that cannot open its session, of an operation none of whose step rows tells of a change. */
  lemma ClosedWithoutSession(history: seq<Operation>, s: Saga, plan: Plan)
    requires s.operation.status == Runs.PartiallyFailed && !HasResidualState(s.operation.steps)
    ensures var s' := Advance(history, Advance(history, s, AskResume), Deliver(plan, false));
            && s'.operation.status == Runs.Failed && s'.client.status == PriorStatus(s.operation.action)
            && s'.world == s.world
  {
  }

  lemma OnlyPendingOrFailed(s: Saga)
    requires s.operation.steps == [Step(Tasks, StepFailed, Some(TASKS_BEFORE), Some(TASKS_AFTER)),
                                   Step(Accounting, Pending, None, None), Step(Files, Pending, None, None)]
    ensures !HasResidualState(s.operation.steps)
  {
  }

  /** The resumed unblock cannot open its session. The run is closed as fully restored and the client as blocked, with
      the task given back; and as its portal cannot be given back, only the step rows could have told. */
  lemma UnblockLosesTrack(history: seq<Operation>)
    ensures var s := Live(history, QUEUED_UNBLOCK,
                          [Deliver(FailingAt(APPLY_FILES, DiedAfter), true), FindLostWorker, AskResume,
                           Deliver(FailingAt(0, Fine), false)]);
            && s.operation.status == Runs.Failed && s.client.status == Runs.Blocked
            && View(s.world, Tasks) != View(QUEUED_UNBLOCK.world, Tasks)
    ensures var r := Resume(UnblockCut(history));
            |r.operation.steps| == 3 && !FirstUndoable(r) && !HasResidualState(r.operation.steps)
  {
    DiedAfterTasks(history);
    TasksAtStart();
    TasksGivenBack();
    var cut := UnblockCut(history);
    TasksCannotBeMarkedAgain(cut.world);
    OnlyPendingOrFailed(cut);
    var first := Deliver(FailingAt(APPLY_FILES, DiedAfter), true);
    var second := Deliver(FailingAt(0, Fine), false);
    CutIs(history, first);
    LiveFour(history, QUEUED_UNBLOCK, first, second);
    ClosedWithoutSession(history, cut, FailingAt(0, Fine));
    assert View(cut.world, Tasks).tasks[0].assignee == "ana" && TASKS_BEFORE.tasks[0].assignee == BLOCKED_TASK_OWNER;
  }

  lemma CutIs(history: seq<Operation>, first: Event)
    requires first == Deliver(FailingAt(APPLY_FILES, DiedAfter), true)
    requires ExecuteOperation(history, QUEUED_UNBLOCK, FailingAt(APPLY_FILES, DiedAfter), true).operation.status ==
             Runs.Running
    ensures Advance(history, Advance(history, QUEUED_UNBLOCK, first), FindLostWorker) == UnblockCut(history)
  {
  }
}
