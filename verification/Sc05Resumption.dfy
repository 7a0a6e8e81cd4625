/** Two reachable lives of a block that end as "failed, everything restored, client active" although a
    portal is still blocked. Both need a resumption: a first execution is all or nothing. */
module Sc05Resumption {
  import opened Options
  import opened Sc05Portals
  import opened Sc05Saga
  import opened Sc05Operations
  import opened Sc05Compensation
  import Runs

  /** Nothing blocked, one client without tasks. */
  const START: World := World(false, false, true, [])

  const QUEUED_BLOCK: Saga := Saga(NewOperation(Block, HappyPath), Client(Runs.Active, None), START, [])

  /** Everything works until the given call of the apply phase, at which `fault` happens. */
  function FailingAt(n: nat, fault: Fault): Plan {
    (phase, k) => Tick(if phase == ApplyPhase && k == n then fault else Fine, w => w)
  }

  /** Position of each tick in the apply phase of a block that still has everything to do. */
  const APPLY_FILES: nat := 3
  const APPLY_ACCOUNTING: nat := 7
  const INSPECT_FILES: nat := 1

  /** A step applied in full: its four ticks, its record and its portal. */
  lemma AccountStepApplied(job: Job, plan: Plan, x: Exec, i: nat)
    requires NoEdits(plan) && i < |x.steps| && x.steps[i].before.None? && x.steps[i].portal != Tasks
    requires job.action == Block && job.scenario == HappyPath
    requires View(x.world, x.steps[i].portal) == Account(false)
    requires forall k :: x.tick <= k < x.tick + 2 ==> plan(ApplyPhase, k).fault == Fine
    requires plan(ApplyPhase, x.tick + 2).fault == Fine || plan(ApplyPhase, x.tick + 2).fault == DiedAfter
    ensures var p := x.steps[i].portal;
            var (x', signal) := ApplyStep(job, plan, x, i);
            && Some(x'.world) == Act(x.world, p, Block)
            && x'.tick == x.tick + 3
            && x'.steps == x.steps[i := Step(p, x'.steps[i].status, Some(Account(false)), Some(Account(true)))]
            && (if plan(ApplyPhase, x.tick + 2).fault == Fine
                then signal.Done? && x'.steps[i].status == Applied
                else signal.Died? && x'.steps[i].status == Running)
  {
    var p := x.steps[i].portal;
    var x0 := SetStatus(x, i, Running);
    assert plan(ApplyPhase, x.tick).edit(x.world) == x.world;
    var x1 := Invoke(job, plan, x0, ApplyPhase, p, Inspect).0;
    var x2 := x1.(steps := x1.steps[i := Step(p, Running, Some(Account(false)), Some(Account(true)))]);
    CheckpointEffect(plan, x2, ApplyPhase);
    var x3 := Checkpoint(plan, x2, ApplyPhase).0;
    assert plan(ApplyPhase, x3.tick).edit(x3.world) == x3.world;
  }

  lemma FailingAtIsClean(n: nat, fault: Fault)
    ensures NoEdits(FailingAt(n, fault))
  {
  }

  function AfterFirstRun(n: nat): Saga {
    Quarantine(ExecuteOperation([], QUEUED_BLOCK, FailingAt(n, DiedAfter), true))
  }

  /** The worker dies right after the files portal was blocked. */
  lemma DiedAfterFiles()
    ensures ExecuteOperation([], QUEUED_BLOCK, FailingAt(APPLY_FILES, DiedAfter), true).operation.status == Runs.Running
    ensures var s := AfterFirstRun(APPLY_FILES);
            && s.operation.status == Runs.PartiallyFailed && s.operation.action == Block
            && s.world == START.(filesBlocked := true)
            && s.operation.steps == [Step(Files, StepFailed, Some(Account(false)), Some(Account(true))),
                                     Step(Accounting, Pending, None, None), Step(Tasks, Pending, None, None)]
  {
    var plan := FailingAt(APPLY_FILES, DiedAfter);
    FailingAtIsClean(APPLY_FILES, DiedAfter);
    var job := JobOf([], QUEUED_BLOCK.operation, QUEUED_BLOCK.client);
    var x := Exec(START, FreshSteps(Block), 0, []);
    var x0 := Checkpoint(plan, x, ApplyPhase).0;
    AccountStepApplied(job, plan, x0, 0);
    var x1 := ApplyStep(job, plan, x0, 0).0;
    assert RunForward(job, plan, x, 0) == (x1, Lost);
    assert Execute(job, plan, true, x) == (x1, WorkerLost);
  }

  /** The worker dies right after the accounting portal was blocked too. */
  lemma DiedAfterAccounting()
    ensures ExecuteOperation([], QUEUED_BLOCK, FailingAt(APPLY_ACCOUNTING, DiedAfter), true).operation.status ==
            Runs.Running
    ensures var s := AfterFirstRun(APPLY_ACCOUNTING);
            && s.operation.status == Runs.PartiallyFailed && s.operation.action == Block
            && s.world == START.(filesBlocked := true, accountingBlocked := true)
            && s.operation.steps == [Step(Files, Applied, Some(Account(false)), Some(Account(true))),
                                     Step(Accounting, StepFailed, Some(Account(false)), Some(Account(true))),
                                     Step(Tasks, Pending, None, None)]
  {
    var plan := FailingAt(APPLY_ACCOUNTING, DiedAfter);
    FailingAtIsClean(APPLY_ACCOUNTING, DiedAfter);
    var job := JobOf([], QUEUED_BLOCK.operation, QUEUED_BLOCK.client);
    var x := Exec(START, FreshSteps(Block), 0, []);
    var x0 := Checkpoint(plan, x, ApplyPhase).0;
    AccountStepApplied(job, plan, x0, 0);
    var x1 := ApplyStep(job, plan, x0, 0).0;
    var x2 := Checkpoint(plan, x1, ApplyPhase).0;
    AccountStepApplied(job, plan, x2, 1);
    var x3 := ApplyStep(job, plan, x2, 1).0;
    assert RunForward(job, plan, x1, 1) == (x3, Lost);
    assert RunForward(job, plan, x, 0) == (x3, Lost);
    assert Execute(job, plan, true, x) == (x3, WorkerLost);
  }

  /** First life: the resumed execution cannot open its browser session. No step is marked as applied, so the
      run is closed as fully restored and the client as active, with the files portal still blocked. */
  lemma SessionFailureLosesTrack()
    ensures var s := Live([], QUEUED_BLOCK,
                          [Deliver(FailingAt(APPLY_FILES, DiedAfter), true), FindLostWorker, AskResume,
                           Deliver(FailingAt(0, Fine), false)]);
            s.operation.status == Runs.Failed && s.client.status == Runs.Active && s.world.filesBlocked
  {
    DiedAfterFiles();
    var s := AfterFirstRun(APPLY_FILES);
    var first := Deliver(FailingAt(APPLY_FILES, DiedAfter), true);
    var second := Deliver(FailingAt(0, Fine), false);
    assert Advance([], Advance([], QUEUED_BLOCK, first), FindLostWorker) == s;
    LiveFour([], QUEUED_BLOCK, first, second);
  }

  /** Second life: the resumed execution is refused at its first call and compensates the files portal only.
      It reports success, with the accounting portal still blocked. */
  lemma LaterPositionsAreNotCompensated()
    ensures var s := Live([], QUEUED_BLOCK,
                          [Deliver(FailingAt(APPLY_ACCOUNTING, DiedAfter), true), FindLostWorker, AskResume,
                           Deliver(FailingAt(INSPECT_FILES, Refused), true)]);
            s.operation.status == Runs.Failed && s.client.status == Runs.Active && s.world.accountingBlocked
  {
    DiedAfterAccounting();
    var r := Resume(AfterFirstRun(APPLY_ACCOUNTING));
    var first := Deliver(FailingAt(APPLY_ACCOUNTING, DiedAfter), true);
    var plan := FailingAt(INSPECT_FILES, Refused);
    LiveFour([], QUEUED_BLOCK, first, Deliver(plan, true));
    RefusedResume(JobOf([], r.operation, r.client), plan, Exec(r.world, r.operation.steps, 0, r.trace));
  }

  /** A resumed execution refused at its first call. */
  lemma RefusedResume(job: Job, plan: Plan, x: Exec)
    requires plan == FailingAt(INSPECT_FILES, Refused) && job.scenario == HappyPath && x.tick == 0
    requires |x.steps| == 3 && x.steps[0] == Step(Files, Applied, Some(Account(false)), Some(Account(true)))
    requires x.world.filesBlocked
    ensures var (x', verdict) := Execute(job, plan, true, x);
            verdict == Failure(CallFailed, false, 1) && x'.world == x.world.(filesBlocked := false)
  {
    FailingAtIsClean(INSPECT_FILES, Refused);
    var x0 := Checkpoint(plan, x, ApplyPhase).0;
    var x1 := ApplyStep(job, plan, x0, 0).0;
    assert ApplyStep(job, plan, x0, 0).1 == Raised(CallFailed) && x1.world == x.world && x1.tick == 2;
    var x2 := SetStatus(Checkpoint(plan, x1, ApplyPhase).0, 0, StepFailed);
    assert RunForward(job, plan, x, 0) == (x2, FailedAt(0, CallFailed));
    FilesAreGivenBack(job, plan, x2);
    var x3 := CompensateStep(job, plan, x2, 0).0;
    CompensateFirst(job, plan, x2, x3);
    var x4 := Checkpoint(plan, x3, CompensationPhase).0;
  }

  lemma CompensateFirst(job: Job, plan: Plan, x: Exec, x': Exec)
    requires |x.steps| > 0 && x.steps[0].before.Some? && x.steps[0].desired.Some?
    requires CompensateStep(job, plan, x, 0) == (x', Done(true))
    ensures Compensate(job, plan, x, 1) == (x', Done(true))
  {
    assert Compensate(job, plan, x', 0) == (x', Done(true));
  }

  lemma FilesAreGivenBack(job: Job, plan: Plan, x: Exec)
    requires NoEdits(plan) && (forall k :: plan(CompensationPhase, k).fault == Fine) && job.scenario == HappyPath
    requires |x.steps| > 0 && x.steps[0] == Step(Files, StepFailed, Some(Account(false)), Some(Account(true)))
    requires x.world.filesBlocked
    ensures var (x', undone) := CompensateStep(job, plan, x, 0);
            undone == Done(true) && x'.world == x.world.(filesBlocked := false)
  {
    assert plan(CompensationPhase, x.tick).edit(x.world) == x.world;
    var x1 := Invoke(job, plan, x, CompensationPhase, Files, Inspect).0;
    assert plan(CompensationPhase, x1.tick).edit(x1.world) == x1.world;
  }

  lemma LiveFour(history: seq<Operation>, s: Saga, first: Event, second: Event)
    ensures Live(history, s, [first, FindLostWorker, AskResume, second]) ==
            Advance(history, Advance(history, Advance(history, Advance(history, s, first), FindLostWorker), AskResume),
                    second)
  {
    var s1 := Advance(history, s, first);
    var s2 := Advance(history, s1, FindLostWorker);
    var s3 := Advance(history, s2, AskResume);
    var events := [first, FindLostWorker, AskResume, second];
    assert events[1..] == [FindLostWorker, AskResume, second];
    assert Live(history, s, events) == Live(history, s1, [FindLostWorker, AskResume, second]);
    assert [FindLostWorker, AskResume, second][1..] == [AskResume, second];
    assert Live(history, s1, [FindLostWorker, AskResume, second]) == Live(history, s2, [AskResume, second]);
    assert [AskResume, second][1..] == [second];
    assert Live(history, s2, [AskResume, second]) == Live(history, s3, [second]);
    assert [second][1..] == [];
    assert Live(history, s3, [second]) == Live(history, Advance(history, s3, second), []);
  }
}
