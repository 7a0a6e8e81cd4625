/** How an operation and its client stand after each thing that can happen to it, and that the system of deliveries,
    which knows outcomes only, says the same. */
module Sc05Outcomes {
  import opened Options
  import opened Sc05Portals
  import opened Sc05Saga
  import opened Sc05Snapshots
  import opened Sc05Operations
  import D = DeliveryWorld
  import Runs

  /** The state of the tasks that a block recorded before it changed them. */
  predicate RecordedTasks(steps: seq<Step>, tasks: Option<PortalState>) {
    exists i :: 0 <= i < |steps| && steps[i].portal == Tasks && steps[i].before == tasks
  }

  /** Succeeded, failed with everything as before, failed with something left over, failed on a foreign marker, or
      lost. */
  predicate Ends(action: Action, before: Client, steps: seq<Step>, verdict: Verdict, status: Runs.RunStatus,
                 after: Client) {
    match verdict
    case Success =>
      && status == Runs.Succeeded
      && (if action == Block
          then after.status == Runs.Blocked && after.snapshot.Some? && RecordedTasks(steps, after.snapshot)
          else after == Client(Runs.Active, None))
    case WorkerLost => status == Runs.Running && after == before
    case Failure(code, residual, _) =>
      && after.snapshot == before.snapshot
      && (if code == MarkerWithoutSnapshot then status == Runs.Failed && after.status == Runs.Unknown
          else if residual then status == Runs.PartiallyFailed && after.status == Runs.Partial
          else status == Runs.Failed && after.status == (if action == Block then Runs.Active else Runs.Blocked))
  }

  lemma {:induction false} StepForIs(steps: seq<Step>, portal: Portal)
    ensures StepFor(steps, portal).Some? <==> exists i :: 0 <= i < |steps| && steps[i].portal == portal
    ensures StepFor(steps, portal).Some? ==>
            exists i :: 0 <= i < |steps| && steps[i].portal == portal && steps[i] == StepFor(steps, portal).value
    decreases |steps|
  {
    if steps != [] && steps[0].portal != portal {
      StepForIs(steps[1..], portal);
      if exists i :: 0 <= i < |steps| && steps[i].portal == portal {
        var i :| 0 <= i < |steps| && steps[i].portal == portal;
        assert steps[1..][i - 1] == steps[i];
      }
      if StepFor(steps[1..], portal).Some? {
        var i :| 0 <= i < |steps[1..]| && steps[1..][i].portal == portal &&
            steps[1..][i] == StepFor(steps[1..], portal).value;
        assert steps[i + 1] == steps[1..][i];
      }
    }
  }

  /** A pass that applied every step has recorded every portal. */
  lemma {:induction false} PassRecords(job: Job, plan: Plan, x: Exec, i: nat)
    requires i <= |x.steps| && forall j :: 0 <= j < i ==> x.steps[j].before.Some?
    ensures var (x', forward) := RunForward(job, plan, x, i);
            forward.AllApplied? ==>
                |x'.steps| == |x.steps| && forall j :: 0 <= j < |x.steps| ==> x'.steps[j].before.Some?
    decreases |x.steps| - i
  {
    if i < |x.steps| {
      var x0 := Checkpoint(plan, x, ApplyPhase).0;
      StepRecords(job, plan, x0, i);
      var (x1, signal) := ApplyStep(job, plan, x0, i);
      if signal.Done? {
        PassRecords(job, plan, x1, i + 1);
      }
    }
  }

  lemma StepRecords(job: Job, plan: Plan, x: Exec, i: nat)
    requires i < |x.steps|
    ensures var (x1, signal) := ApplyStep(job, plan, x, i);
            && |x1.steps| == |x.steps| && (forall j :: 0 <= j < |x.steps| && j != i ==> x1.steps[j] == x.steps[j])
            && (signal.Done? ==> x1.steps[i].before.Some?)
  {
  }

  lemma ExecutionEnds(history: seq<Operation>, s: Saga, plan: Plan, session: bool)
    requires WellShaped(s.operation)
    ensures var (x, verdict) :=
            Execute(JobOf(history, s.operation, s.client), plan, session, Exec(s.world, s.operation.steps, 0, s.trace));
            var s' := ExecuteOperation(history, s, plan, session);
            && s'.world == x.world && s'.trace == x.trace && s'.operation.steps == x.steps
            && s'.operation.action == s.operation.action && s'.operation.resumeCount == s.operation.resumeCount
            && Ends(s.operation.action, s.client, x.steps, verdict, s'.operation.status, s'.client)
  {
    ExecutionKeepsSnapshots(JobOf(history, s.operation, s.client), plan, session,
                            Exec(s.world, s.operation.steps, 0, s.trace));
    var x := Execute(JobOf(history, s.operation, s.client), plan, session,
                     Exec(s.world, s.operation.steps, 0, s.trace)).0;
    StepForIs(x.steps, Tasks);
    PassRecords(JobOf(history, s.operation, s.client), plan, Exec(s.world, s.operation.steps, 0, s.trace), 0);
    assert x.steps[0].portal == Tasks || x.steps[2].portal == Tasks;
  }

  /** A lost worker leaves a run that a person can resume, no step running, and a partial client; a resumption only
      queues the run again, and from then on the demonstration scenario is ignored. */
  lemma QuarantineAndResumeMean(history: seq<Operation>, s: Saga)
    ensures var q := Quarantine(s);
            && q.operation.status == Runs.PartiallyFailed && q.client == s.client.(status := Runs.Partial)
            && q.world == s.world && q.trace == s.trace && |q.operation.steps| == |s.operation.steps|
            && forall i :: 0 <= i < |s.operation.steps| ==>
                 q.operation.steps[i] == if s.operation.steps[i].status == Running
                     then s.operation.steps[i].(status := StepFailed)
                                         else s.operation.steps[i]
    ensures var r := Resume(s);
            && r == s.(operation := s.operation.(status := Runs.Queued, resumeCount := r.operation.resumeCount))
            && r.operation.resumeCount == s.operation.resumeCount + 1
            && JobOf(history, r.operation, r.client).scenario == HappyPath
  {
  }

  /** Only what is queued is executed, only what runs can be lost, only what is partially failed is resumed. */
  lemma OutOfTurn(history: seq<Operation>, s: Saga, plan: Plan, session: bool)
    ensures s.operation.status != Runs.Queued ==> Advance(history, s, Deliver(plan, session)) == s
    ensures s.operation.status != Runs.Running ==> Advance(history, s, FindLostWorker) == s
    ensures s.operation.status != Runs.PartiallyFailed ==> Advance(history, s, AskResume) == s
    ensures s.operation.status == Runs.Queued ==>
            Advance(history, s, Deliver(plan, session)) == ExecuteOperation(history, s, plan, session)
    ensures s.operation.status == Runs.Running ==> Advance(history, s, FindLostWorker) == Quarantine(s)
    ensures s.operation.status == Runs.PartiallyFailed ==> Advance(history, s, AskResume) == Resume(s)
  {
  }

  // ----- The same outcomes in the system of deliveries -----

  function Known(client: Client): D.Client {
    D.Client(client.status, client.snapshot.Some?)
  }

  function Kind(action: Action): D.Action {
    if action == Block then D.Action.Block else D.Action.Unblock
  }

  function OutcomeOf(verdict: Verdict): D.Outcome
    requires verdict != WorkerLost
  {
    match verdict
    case Success => D.Outcome.Success
    case Failure(code, residual, _) =>
      if code == MarkerWithoutSnapshot then D.Unsafe else if residual then D.Residual else D.Restored
  }

  /** The outcome that the saga reports to the run and to the client is the one that the deliveries assume. */
  lemma OutcomesAgree(history: seq<Operation>, s: Saga, plan: Plan, session: bool)
    requires WellShaped(s.operation)
    ensures var (x, verdict) :=
            Execute(JobOf(history, s.operation, s.client), plan, session, Exec(s.world, s.operation.steps, 0, s.trace));
            var s' := ExecuteOperation(history, s, plan, session);
            && (verdict != WorkerLost ==> s'.operation.status == D.FinalStatus(OutcomeOf(verdict)))
            && (verdict != WorkerLost ==>
                  Known(s'.client) == D.FinalClient(Known(s.client), Kind(s.operation.action), OutcomeOf(verdict)))
  {
    ExecutionEnds(history, s, plan, session);
  }
}
