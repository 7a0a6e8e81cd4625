/** The operation, its steps and its client as rows that are updated in place, proved to follow `Sc05Operations`. */
module Sc05Rows {
  import opened Options
  import opened Sc05Portals
  import opened Sc05Saga
  import opened Sc05Snapshots
  import opened Sc05Operations
  import opened Sc05Compensation
  import opened Sc05Worker
  import Runs

  class OperationRow {
    const action: Action
    const scenario: Scenario
    const steps: array<Step>
    var resumeCount: nat
    var status: Runs.RunStatus
    var clientStatus: Runs.ClientStatus
    var snapshot: Option<PortalState>

    function Stored(w: World, trace: seq<CallRecord>): Saga
      reads this, steps
    {
      Saga(Operation(action, scenario, resumeCount, steps[..], status), Client(clientStatus, snapshot), w, trace)
    }

    /** A queued operation with one fresh step per portal, in the order of its action. */
    constructor (action: Action, scenario: Scenario, clientStatus: Runs.ClientStatus, snapshot: Option<PortalState>)
      ensures fresh(steps)
      ensures forall w, trace ::
              Stored(w, trace) == Saga(NewOperation(action, scenario), Client(clientStatus, snapshot), w, trace)
    {
      this.action, this.scenario := action, scenario;
      resumeCount, status := 0, Runs.Queued;
      this.clientStatus, this.snapshot := clientStatus, snapshot;
      var order := Order(action);
      steps := new Step[3](i requires 0 <= i < 3 => Step(order[i], Pending, None, None));
      new;
      assert steps[..] == FreshSteps(action);
    }

    /** The step of a portal. */
    method FindStep(portal: Portal) returns (found: Option<Step>)
      ensures found == StepFor(steps[..], portal)
    {
      for i := 0 to steps.Length
        invariant StepFor(steps[..], portal) == StepFor(steps[i..], portal)
      {
        if steps[i].portal == portal {
          return Some(steps[i]);
        }
        assert steps[i..][1..] == steps[i + 1..];
      }
      return None;
    }

    method FinishSucceeded(ghost w: World, ghost trace: seq<CallRecord>)
      modifies this
      ensures Stored(w, trace) == Sc05Operations.FinishSucceeded(old(Stored(w, trace)))
    {
      if action == Block {
        var tasks := FindStep(Tasks);
        clientStatus := Runs.Blocked;
        snapshot := if tasks.Some? then tasks.value.before else None;
      } else {
        clientStatus := Runs.Active;
        snapshot := None;
      }
      status := Runs.Succeeded;
    }

    method FinishFailed(code: ErrorCode, residual: bool, ghost w: World, ghost trace: seq<CallRecord>)
      modifies this
      ensures Stored(w, trace) == Sc05Operations.FinishFailed(old(Stored(w, trace)), code, residual)
    {
      if code == MarkerWithoutSnapshot {
        clientStatus := Runs.Unknown;
        status := Runs.Failed;
      } else if residual {
        clientStatus := Runs.Partial;
        status := Runs.PartiallyFailed;
      } else {
        clientStatus := if action == Block then Runs.Active else Runs.Blocked;
        status := Runs.Failed;
      }
    }

    /** One delivery: the worker runs on these step rows and these portals, and its outcome is stored. */
    method Execute(history: seq<Operation>, plan: Plan, session: bool, portals: Simulator, ghost trace: seq<CallRecord>)
      returns (ghost after: seq<CallRecord>)
      requires steps.Length == 3
      modifies this, steps, portals
      ensures Stored(portals.Stored(), after) ==
              ExecuteOperation(history, old(Stored(portals.Stored(), trace)), plan, session)
      ensures WellShaped(old(Stored(portals.Stored(), trace).operation)) ==>
                AllKept(old(steps[..]), steps[..]) && Guarded(steps[..], after, |trace|)
      ensures old(Stored(portals.Stored(), trace).operation) == NewOperation(action, scenario) && NoEdits(plan) ==>
                old(clientStatus) == PriorStatus(action) && status == Runs.Failed &&
                    clientStatus == old(clientStatus) ==>
                  forall p :: View(portals.Stored(), p) == View(old(portals.Stored()), p)
    {
      ghost var s := Stored(portals.Stored(), trace);
      if WellShaped(s.operation) {
        ExecuteOperationContinues(history, s, plan, session);
      }
      if s.operation == NewOperation(action, scenario) && NoEdits(plan) && clientStatus == PriorStatus(action) {
        FirstExecutionIsAllOrNothing(history, s, plan, session);
      }
      var files := LatestBlockState(history, Files);
      var accounting := LatestBlockState(history, Accounting);
      var job := Job(action, if resumeCount > 0 then HappyPath else scenario, snapshot, files, accounting);
      status := Runs.Running;
      var worker := new Worker(job, plan, portals, steps, trace);
      var verdict := worker.Execute(session);
      after := worker.trace;
      match verdict
      case WorkerLost =>
      case Success => FinishSucceeded(portals.Stored(), after);
      case Failure(code, residual, _) => FinishFailed(code, residual, portals.Stored(), after);
    }

    /** The step rows that were being worked on are closed, one by one. */
    method CloseInterruptedSteps()
      modifies steps
      ensures steps[..] == CloseInterrupted(old(steps[..]))
    {
      for i := 0 to steps.Length
        invariant forall j :: 0 <= j < i ==> steps[j] == CloseInterrupted(old(steps[..]))[j]
        invariant forall j :: i <= j < steps.Length ==> steps[j] == old(steps[..])[j]
      {
        if steps[i].status == Running {
          steps[i] := steps[i].(status := StepFailed);
        }
      }
    }

    method Quarantine(ghost w: World, ghost trace: seq<CallRecord>)
      modifies this, steps
      ensures Stored(w, trace) == Sc05Operations.Quarantine(old(Stored(w, trace)))
    {
      CloseInterruptedSteps();
      clientStatus := Runs.Partial;
      status := Runs.PartiallyFailed;
    }

    method Resume(ghost w: World, ghost trace: seq<CallRecord>)
      modifies this
      ensures Stored(w, trace) == Sc05Operations.Resume(old(Stored(w, trace)))
    {
      resumeCount := resumeCount + 1;
      status := Runs.Queued;
    }
  }

  /** The state before the latest earlier block that succeeded. */
  method LatestBlockState(history: seq<Operation>, portal: Portal) returns (state: Option<PortalState>)
    ensures state == PriorBlockState(history, portal)
  {
    assert history[..|history|] == history;
    var n := |history|;
    while n > 0
      invariant 0 <= n <= |history| && PriorBlockState(history, portal) == PriorBlockState(history[..n], portal)
    {
      var last := history[n - 1];
      assert history[..n][..n - 1] == history[..n - 1];
      if last.action == Block && last.status == Runs.Succeeded {
        var step := StepFor(last.steps, portal);
        return if step.Some? then step.value.before else None;
      }
      n := n - 1;
    }
    return None;
  }
}
