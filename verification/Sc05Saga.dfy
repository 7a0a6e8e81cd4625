/** The SC-05 saga: what one execution does to the three portals and to its own step rows,
    under any pattern of portal failures, storage failures, worker deaths and outside edits. */
module Sc05Saga {
  import opened Options
  import opened Sc05Portals

  datatype StepStatus =
    | Pending | Running | Applied | Unchanged | StepFailed | Compensated | CompensationFailed

  datatype Step = Step(
    portal: Portal,
    status: StepStatus,
    before: Option<PortalState>,
    desired: Option<PortalState>)

  /** MarkerWithoutSnapshot is the one error code that the program treats specially. */
  datatype ErrorCode = MarkerWithoutSnapshot | StateConflict | CallFailed | SessionUnavailable

  // ----- The environment of an execution -----

  /** What goes wrong around one gateway call. `Refused`: the portal answers an error and changes
      nothing. `BrokeAfter`: the portal did the work and then an error is reported. `StorageFailed`:
      the screenshot cannot be stored. `DiedBefore`, `DiedAfter`: the worker is lost, or a newer
      delivery has superseded it, just before or just after the call. */
  datatype Fault = Fine | Refused | BrokeAfter | StorageFailed | DiedBefore | DiedAfter

  /** Before every call somebody else may edit the portals. */
  datatype Tick = Tick(fault: Fault, edit: World -> World)

  type Plan = (Phase, nat) -> Tick

  ghost predicate NoEdits(plan: Plan) {
    forall phase, n, w :: plan(phase, n).edit(w) == w
  }

  ghost predicate NoFaults(plan: Plan) {
    forall phase, n :: plan(phase, n).fault == Fine
  }

  // ----- One execution -----

  /** What the execution reads once from its operation and its client. */
  datatype Job = Job(
    action: Action,
    scenario: Scenario,
    snapshot: Option<PortalState>,
    priorFiles: Option<PortalState>,
    priorAccounting: Option<PortalState>)

  datatype CallRecord = CallRecord(portal: Portal, request: Request, reply: Option<PortalState>)

  datatype Exec = Exec(world: World, steps: seq<Step>, tick: nat, trace: seq<CallRecord>)

  datatype Signal<+T> = Done(value: T) | Raised(code: ErrorCode) | Died

  const BLOCK_ORDER: seq<Portal> := [Files, Accounting, Tasks]
  const UNBLOCK_ORDER: seq<Portal> := [Tasks, Accounting, Files]

  function Order(action: Action): (o: seq<Portal>)
    ensures |o| == 3
    ensures forall i, j :: 0 <= i < j < 3 ==> o[i] != o[j]
  {
    if action == Block then BLOCK_ORDER else UNBLOCK_ORDER
  }

  /** Steps of an operation keep the order in which they were created. */
  predicate Shaped(job: Job, steps: seq<Step>) {
    |steps| == 3 && forall i :: 0 <= i < 3 ==> steps[i].portal == Order(job.action)[i]
  }

  function FreshSteps(action: Action): (steps: seq<Step>)
    ensures |steps| == 3
  {
    seq(3, i requires 0 <= i < 3 => Step(Order(action)[i], Pending, None, None))
  }

  /** One call through the gateway, with its attempt and its screenshot. */
  function Invoke(job: Job, plan: Plan, x: Exec, phase: Phase, portal: Portal, request: Request)
    : (r: (Exec, Signal<PortalState>))
    ensures x.trace <= r.0.trace && r.0.steps == x.steps
  {
    var tick := plan(phase, x.tick);
    var w := tick.edit(x.world);
    if tick.fault == DiedBefore then (x.(world := w, tick := x.tick + 1), Died)
    else
      var served := if tick.fault == Refused then Served(w, None)
                    else Serve(w, portal, request, job.scenario, phase);
      var x' := Exec(served.world, x.steps, x.tick + 1,
                     x.trace + [CallRecord(portal, request, served.reply)]);
      if tick.fault == DiedAfter then (x', Died)
      else if tick.fault != Fine || served.reply.None? then (x', Raised(CallFailed))
      else (x', Done(served.reply.value))
  }

  /** A point between two saves at which the worker can be lost. */
  function Checkpoint(plan: Plan, x: Exec, phase: Phase): (Exec, Signal<()>) {
    var tick := plan(phase, x.tick);
    (x.(world := tick.edit(x.world), tick := x.tick + 1),
     if tick.fault == DiedBefore || tick.fault == DiedAfter then Died else Done(()))
  }

  // ----- Desired states -----

  function BlockedView(t: TaskView): TaskView {
    if t.isOpen then t.(assignee := BLOCKED_TASK_OWNER) else t
  }

  function BlockedViews(tasks: seq<TaskView>): (r: seq<TaskView>)
    ensures |r| == |tasks|
    ensures forall i :: 0 <= i < |tasks| ==> r[i] == BlockedView(tasks[i])
  {
    seq(|tasks|, i requires 0 <= i < |tasks| => BlockedView(tasks[i]))
  }

  predicate HasMarker(tasks: seq<TaskView>) {
    exists t <- tasks :: t.assignee == BLOCKED_TASK_OWNER
  }

  /** The previous assignees to give back: one entry for each open task of the snapshot. */
  function RestoreAssignees(tasks: seq<TaskView>): Option<map<string, string>> {
    if tasks == [] then Some(map[])
    else
      var rest := RestoreAssignees(tasks[..|tasks| - 1]);
      var t := tasks[|tasks| - 1];
      if rest.None? || !t.isOpen then rest
      else if t.reference == "" || t.reference in rest.value then None
      else Some(rest.value[t.reference := t.assignee])
  }

  predicate UniqueReferences(tasks: seq<TaskView>) {
    forall i, j :: 0 <= i < j < |tasks| ==> tasks[i].reference != tasks[j].reference
  }

  function Restored(tasks: seq<TaskView>, back: map<string, string>): (r: seq<TaskView>)
    ensures |r| == |tasks|
    ensures forall i :: 0 <= i < |tasks| ==>
      r[i] == if tasks[i].reference in back then tasks[i].(assignee := back[tasks[i].reference]) else tasks[i]
  {
    seq(|tasks|, i requires 0 <= i < |tasks| =>
      if tasks[i].reference in back then tasks[i].(assignee := back[tasks[i].reference]) else tasks[i])
  }

  /** Giving back is safe: every reference is usable, no task carries a foreign marker, every task to
      give back is still there, and nobody reassigned one of them after the block. */
  predicate CanRestore(tasks: seq<TaskView>, back: map<string, string>) {
    && UniqueReferences(tasks)
    && (forall t <- tasks ::
          && t.reference != ""
          && (t.assignee == BLOCKED_TASK_OWNER ==> t.reference in back)
          && (t.reference in back ==> t.assignee == BLOCKED_TASK_OWNER || t.assignee == back[t.reference]))
    && (forall r <- back :: exists t <- tasks :: t.reference == r)
  }

  function TaskUnblockState(snapshot: Option<PortalState>, observed: PortalState): Option<PortalState> {
    if snapshot.None? || !snapshot.value.TaskList? || !snapshot.value.clientActive
       || !observed.TaskList? || !observed.clientActive then None
    else
      var back := RestoreAssignees(snapshot.value.tasks);
      if back.None? || !CanRestore(observed.tasks, back.value) then None
      else Some(TaskList(true, Restored(observed.tasks, back.value)))
  }

  /** None is a state conflict. */
  function DesiredState(job: Job, portal: Portal, observed: PortalState): Option<PortalState> {
    if portal != Tasks then
      if job.action == Block then Some(Account(true))
      else
        var prior := if portal == Files then job.priorFiles else job.priorAccounting;
        if prior.Some? && prior.value.Account? then prior else None
    else if job.action == Unblock then TaskUnblockState(job.snapshot, observed)
    else if observed.TaskList? && observed.clientActive then Some(TaskList(true, BlockedViews(observed.tasks)))
    else None
  }

  function InitialStateError(job: Job, portal: Portal, observed: PortalState): Option<ErrorCode> {
    if job.action != Block || portal != Tasks then None
    else if !observed.TaskList? || !observed.clientActive then Some(StateConflict)
    else if HasMarker(observed.tasks) then Some(MarkerWithoutSnapshot)
    else None
  }

  // ----- Applying one step -----

  function SetStatus(x: Exec, i: nat, status: StepStatus): Exec
    requires i < |x.steps|
  {
    x.(steps := x.steps[i := x.steps[i].(status := status)])
  }

  /** The part of a step after its states are recorded: apply and confirm, unless nothing is to be done. */
  function ApplyRecorded(job: Job, plan: Plan, x: Exec, i: nat, prior: StepStatus, observed: PortalState,
                         desired: PortalState)
    : (r: (Exec, Signal<()>))
    requires i < |x.steps|
    ensures x.trace <= r.0.trace && |r.0.steps| == |x.steps|
  {
    if observed == desired then
      (SetStatus(x, i, if prior == Applied || prior == CompensationFailed then Applied else Unchanged), Done(()))
    else
      var (x1, changed) := Invoke(job, plan, x, ApplyPhase, x.steps[i].portal, Apply(job.action));
      match changed
      case Died => (x1, Died)
      case Raised(code) => (x1, Raised(code))
      case Done(state) =>
        if state != desired then (x1, Raised(StateConflict)) else (SetStatus(x1, i, Applied), Done(()))
  }

  /** The part of a step after its inspection: snapshot and conflict check. */
  function ApplyObserved(job: Job, plan: Plan, x: Exec, i: nat, prior: StepStatus, observed: PortalState)
    : (r: (Exec, Signal<()>))
    requires i < |x.steps|
    ensures x.trace <= r.0.trace && |r.0.steps| == |x.steps|
  {
    var step := x.steps[i];
    var first := step.before.None?;
    var invalid := InitialStateError(job, step.portal, observed);
    if first && invalid.Some? then (x, Raised(invalid.value))
    else
      var desired := if !first && step.desired.Some? then step.desired
                     else DesiredState(job, step.portal, observed);
      if desired.None? then (x, Raised(StateConflict))
      else
        var before := if first then observed else step.before.value;
        var x1 := x.(steps := x.steps[i := step.(before := Some(before), desired := desired)]);
        if !first && observed != before && observed != desired.value then (x1, Raised(StateConflict))
        else
          var (x2, alive) := Checkpoint(plan, x1, ApplyPhase);
          if alive.Died? then (x2, Died) else ApplyRecorded(job, plan, x2, i, prior, observed, desired.value)
  }

  function ApplyStep(job: Job, plan: Plan, x: Exec, i: nat): (r: (Exec, Signal<()>))
    requires i < |x.steps|
    ensures x.trace <= r.0.trace && |r.0.steps| == |x.steps|
  {
    var (x1, observed) := Invoke(job, plan, SetStatus(x, i, Running), ApplyPhase, x.steps[i].portal, Inspect);
    match observed
    case Died => (x1, Died)
    case Raised(code) => (x1, Raised(code))
    case Done(state) => ApplyObserved(job, plan, x1, i, x.steps[i].status, state)
  }

  /** All steps applied, the position of the step that failed, or a lost worker. */
  datatype Forward = AllApplied | FailedAt(index: nat, code: ErrorCode) | Lost

  function RunForward(job: Job, plan: Plan, x: Exec, i: nat): (r: (Exec, Forward))
    requires i <= |x.steps|
    ensures x.trace <= r.0.trace && |r.0.steps| == |x.steps|
    ensures r.1.FailedAt? ==> i <= r.1.index < |x.steps|
    decreases |x.steps| - i
  {
    if i == |x.steps| then (x, AllApplied)
    else
      var (x0, current) := Checkpoint(plan, x, ApplyPhase);
      if current.Died? then (x0, Lost)
      else
        var (x1, signal) := ApplyStep(job, plan, x0, i);
        match signal
        case Died => (x1, Lost)
        case Done(_) => RunForward(job, plan, x1, i + 1)
        case Raised(code) =>
          var (x2, alive) := Checkpoint(plan, x1, ApplyPhase);
          if alive.Died? then (x2, Lost) else (SetStatus(x2, i, StepFailed), FailedAt(i, code))
  }

  // ----- Compensation -----

  /** Compensate one candidate; the second component is whether it could be undone. */
  function CompensateStep(job: Job, plan: Plan, x: Exec, i: nat): (r: (Exec, Signal<bool>))
    requires i < |x.steps|
    requires x.steps[i].before.Some? && x.steps[i].desired.Some?
    ensures x.trace <= r.0.trace && |r.0.steps| == |x.steps|
    ensures !r.1.Raised?
  {
    var step := x.steps[i];
    var (x1, current) := Invoke(job, plan, x, CompensationPhase, step.portal, Inspect);
    match current
    case Died => (x1, Died)
    case Raised(_) => (SetStatus(x1, i, CompensationFailed), Done(false))
    case Done(state) =>
      if state == step.before.value then
        (if step.status == StepFailed then x1 else SetStatus(x1, i, Compensated), Done(true))
      else if state != step.desired.value then (SetStatus(x1, i, CompensationFailed), Done(false))
      else
        var (x2, restored) := Invoke(job, plan, x1, CompensationPhase, step.portal,
                                     Restore(state, step.before.value));
        match restored
        case Died => (x2, Died)
        case Raised(_) => (SetStatus(x2, i, CompensationFailed), Done(false))
        case Done(final) =>
          if final != step.before.value then (SetStatus(x2, i, CompensationFailed), Done(false))
          else (SetStatus(x2, i, Compensated), Done(true))
  }

  /** Positions below `n`, last first; positions without a recorded state are not candidates. */
  function Compensate(job: Job, plan: Plan, x: Exec, n: nat): (r: (Exec, Signal<bool>))
    requires n <= |x.steps|
    ensures x.trace <= r.0.trace && |r.0.steps| == |x.steps|
    ensures !r.1.Raised?
    decreases n
  {
    if n == 0 then (x, Done(true))
    else if x.steps[n - 1].before.None? || x.steps[n - 1].desired.None? then Compensate(job, plan, x, n - 1)
    else
      var (x1, undone) := CompensateStep(job, plan, x, n - 1);
      if undone.Died? then (x1, Died)
      else
        var (x2, rest) := Compensate(job, plan, x1, n - 1);
        (x2, if rest.Died? then Died else Done(undone.value && rest.value))
  }

  // ----- The whole execution -----

  /** `reached` is how many positions the execution took responsibility for when it failed. */
  datatype Verdict =
    | Success
    | Failure(code: ErrorCode, residual: bool, reached: nat)
    | WorkerLost

  predicate HasResidualState(steps: seq<Step>) {
    exists s <- steps :: s.status == Running || s.status == Applied || s.status == CompensationFailed
  }

  /** Compensation of everything up to the failed position, and the report. */
  function AfterFailure(job: Job, plan: Plan, x: Exec, failed: nat, code: ErrorCode): (r: (Exec, Verdict))
    requires failed < |x.steps|
    ensures x.trace <= r.0.trace && |r.0.steps| == |x.steps|
  {
    var (x1, undone) := Compensate(job, plan, x, failed + 1);
    if undone.Died? then (x1, WorkerLost)
    else
      var (x2, alive) := Checkpoint(plan, x1, CompensationPhase);
      (x2, if alive.Died? then WorkerLost else Failure(code, !undone.value, failed + 1))
  }

  /** `session` is whether the storage and the browser session could be opened. */
  function Execute(job: Job, plan: Plan, session: bool, x: Exec): (r: (Exec, Verdict))
    ensures x.trace <= r.0.trace && |r.0.steps| == |x.steps|
  {
    if !session then (x, Failure(SessionUnavailable, HasResidualState(x.steps), 0))
    else
      var (x1, forward) := RunForward(job, plan, x, 0);
      match forward
      case Lost => (x1, WorkerLost)
      case AllApplied =>
        var (x2, alive) := Checkpoint(plan, x1, ApplyPhase);
        (x2, if alive.Died? then WorkerLost else Success)
      case FailedAt(index, code) => AfterFailure(job, plan, x1, index, code)
  }
}
