/** One operation of one client from its creation on: executions, lost workers, quarantine, resumption,
    and what each of them leaves on the run and on the client. */
module Sc05Operations {
  import opened Options
  import opened Sc05Portals
  import opened Sc05Saga
  import opened Sc05Snapshots
  import Runs

  datatype Client = Client(status: Runs.ClientStatus, snapshot: Option<PortalState>)

  datatype Operation = Operation(
    action: Action,
    scenario: Scenario,
    resumeCount: nat,
    steps: seq<Step>,
    status: Runs.RunStatus)

  /** An operation, its client, the portals, and the log of every gateway call made so far. */
  datatype Saga = Saga(operation: Operation, client: Client, world: World, trace: seq<CallRecord>)

  predicate WellShaped(operation: Operation) {
    && |operation.steps| == 3
    && (forall i :: 0 <= i < 3 ==> operation.steps[i].portal == Order(operation.action)[i])
    && (forall i :: 0 <= i < 3 ==> Paired(operation.steps[i]))
  }

  function NewOperation(action: Action, scenario: Scenario): (operation: Operation)
    ensures WellShaped(operation)
  {
    Operation(action, scenario, 0, FreshSteps(action), Runs.Queued)
  }

  function StepFor(steps: seq<Step>, portal: Portal): Option<Step> {
    if steps == [] then None
    else if steps[0].portal == portal then Some(steps[0])
    else StepFor(steps[1..], portal)
  }

  /** The latest earlier block that succeeded says how the account was before it. */
  function PriorBlockState(history: seq<Operation>, portal: Portal): Option<PortalState> {
    if history == [] then None
    else
      var last := history[|history| - 1];
      if last.action == Block && last.status == Runs.Succeeded then
        var step := StepFor(last.steps, portal);
        if step.Some? then step.value.before else None
      else PriorBlockState(history[..|history| - 1], portal)
  }

  /** A resumed operation ignores the demonstration scenario. */
  function JobOf(history: seq<Operation>, operation: Operation, client: Client): Job {
    Job(operation.action,
        if operation.resumeCount > 0 then HappyPath else operation.scenario,
        client.snapshot,
        PriorBlockState(history, Files),
        PriorBlockState(history, Accounting))
  }

  function PriorStatus(action: Action): Runs.ClientStatus {
    if action == Block then Runs.Active else Runs.Blocked
  }

  function FinishSucceeded(s: Saga): Saga {
    var tasks := StepFor(s.operation.steps, Tasks);
    s.(operation := s.operation.(status := Runs.Succeeded),
       client := if s.operation.action == Block
                 then Client(Runs.Blocked, if tasks.Some? then tasks.value.before else None)
                 else Client(Runs.Active, None))
  }

  function FinishFailed(s: Saga, code: ErrorCode, residual: bool): Saga {
    if code == MarkerWithoutSnapshot then
      s.(operation := s.operation.(status := Runs.Failed), client := s.client.(status := Runs.Unknown))
    else if residual then
      s.(operation := s.operation.(status := Runs.PartiallyFailed), client := s.client.(status := Runs.Partial))
    else
      s.(operation := s.operation.(status := Runs.Failed),
         client := s.client.(status := PriorStatus(s.operation.action)))
  }

  /** One delivery that starts and runs until it finishes or its worker is lost. */
  function ExecuteOperation(history: seq<Operation>, s: Saga, plan: Plan, session: bool): Saga {
    var job := JobOf(history, s.operation, s.client);
    var (x, verdict) := Execute(job, plan, session, Exec(s.world, s.operation.steps, 0, s.trace));
    var s' := s.(operation := s.operation.(steps := x.steps, status := Runs.Running), world := x.world,
                 trace := x.trace);
    match verdict
    case WorkerLost => s'
    case Success => FinishSucceeded(s')
    case Failure(code, residual, _) => FinishFailed(s', code, residual)
  }

  function CloseInterrupted(steps: seq<Step>): (r: seq<Step>)
    ensures |r| == |steps|
    ensures forall i :: 0 <= i < |steps| ==>
      r[i] == if steps[i].status == Running then steps[i].(status := StepFailed) else steps[i]
  {
    seq(|steps|, i requires 0 <= i < |steps| =>
      if steps[i].status == Running then steps[i].(status := StepFailed) else steps[i])
  }

  /** A lost worker is found, by a redelivery or by the reconciler. */
  function Quarantine(s: Saga): Saga {
    s.(operation := s.operation.(steps := CloseInterrupted(s.operation.steps), status := Runs.PartiallyFailed),
       client := s.client.(status := Runs.Partial))
  }

  function Resume(s: Saga): Saga {
    s.(operation := s.operation.(status := Runs.Queued, resumeCount := s.operation.resumeCount + 1))
  }

  datatype Event =
    | Deliver(plan: Plan, session: bool)
    | FindLostWorker
    | AskResume
    | EditPortals(edit: World -> World)

  /** An event that the current status does not allow changes nothing. */
  function Advance(history: seq<Operation>, s: Saga, event: Event): Saga {
    match event
    case Deliver(plan, session) =>
      if s.operation.status == Runs.Queued then ExecuteOperation(history, s, plan, session) else s
    case FindLostWorker => if s.operation.status == Runs.Running then Quarantine(s) else s
    case AskResume => if s.operation.status == Runs.PartiallyFailed then Resume(s) else s
    case EditPortals(edit) => s.(world := edit(s.world))
  }

  function Live(history: seq<Operation>, s: Saga, events: seq<Event>): Saga
    decreases |events|
  {
    if events == [] then s else Live(history, Advance(history, s, events[0]), events[1..])
  }

  // ----- Snapshots over a whole life -----

  /** In each execution of the life, every change was preceded by the inspection that allows it. */
  predicate EveryExecutionGuarded(history: seq<Operation>, s: Saga, events: seq<Event>)
    decreases |events|
  {
    events == [] ||
    var s' := Advance(history, s, events[0]);
    && s.trace <= s'.trace
    && Guarded(s'.operation.steps, s'.trace, |s.trace|)
    && EveryExecutionGuarded(history, s', events[1..])
  }

  /** `s'` continues `s` as the snapshot rules allow. */
  predicate Continues(s: Saga, s': Saga) {
    && WellShaped(s'.operation) && s'.operation.action == s.operation.action
    && AllKept(s.operation.steps, s'.operation.steps)
    && s.trace <= s'.trace && Guarded(s'.operation.steps, s'.trace, |s.trace|)
  }

  lemma ExecuteOperationContinues(history: seq<Operation>, s: Saga, plan: Plan, session: bool)
    requires WellShaped(s.operation)
    ensures Continues(s, ExecuteOperation(history, s, plan, session))
  {
    ExecutionKeepsSnapshots(JobOf(history, s.operation, s.client), plan, session,
                            Exec(s.world, s.operation.steps, 0, s.trace));
  }

  lemma AdvanceKeepsSnapshots(history: seq<Operation>, s: Saga, event: Event)
    requires WellShaped(s.operation)
    ensures Continues(s, Advance(history, s, event))
  {
    if event.Deliver? {
      ExecuteOperationContinues(history, s, event.plan, event.session);
    }
  }

  /** Across any number of executions, quarantines, resumptions and outside edits: recorded states are
      written once and together, and no portal is changed on a stale view of it. */
  lemma {:induction false} LifeKeepsSnapshots(history: seq<Operation>, s: Saga, events: seq<Event>)
    requires WellShaped(s.operation)
    ensures var s' := Live(history, s, events);
            && WellShaped(s'.operation)
            && AllKept(s.operation.steps, s'.operation.steps)
    ensures EveryExecutionGuarded(history, s, events)
    decreases |events|
  {
    if events != [] {
      AdvanceKeepsSnapshots(history, s, events[0]);
      LifeKeepsSnapshots(history, Advance(history, s, events[0]), events[1..]);
    }
  }
}
