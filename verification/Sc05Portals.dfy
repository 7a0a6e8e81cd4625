/** The three portals SC-05 drives, as the demonstration simulator implements them, and the
    gateway calls (inspect, apply, restore) the robot issues against them. */
module Sc05Portals {
  import opened Options

  datatype Portal = Files | Accounting | Tasks

  datatype Action = Block | Unblock

  datatype Phase = ApplyPhase | CompensationPhase

  datatype Scenario =
    | HappyPath
    | FailTasksApply
    | TimeoutAccountingApply
    | FailTasksApplyAndFilesCompensation

  const BLOCKED_TASK_OWNER: string := "BLOQUEADO_INADIMPLENCIA"

  /** A row of the simulator's task table. */
  datatype TaskRow = TaskRow(reference: string, assignee: string, previousAssignee: string, isOpen: bool)

  /** What the tasks page shows of one row. */
  datatype TaskView = TaskView(reference: string, assignee: string, isOpen: bool)

  /** The state a gateway reads from a portal. */
  datatype PortalState =
    | Account(blocked: bool)
    | TaskList(clientActive: bool, tasks: seq<TaskView>)

  /** Everything the simulator stores about one client. */
  datatype World = World(filesBlocked: bool, accountingBlocked: bool, clientActive: bool, rows: seq<TaskRow>)

  // ----- Reading a portal -----

  function ViewOf(row: TaskRow): TaskView {
    TaskView(row.reference, row.assignee, row.isOpen)
  }

  function Views(rows: seq<TaskRow>): (v: seq<TaskView>)
    ensures |v| == |rows|
    ensures forall i :: 0 <= i < |rows| ==> v[i] == ViewOf(rows[i])
  {
    seq(|rows|, i requires 0 <= i < |rows| => ViewOf(rows[i]))
  }

  /** The state of one portal, readable or not. */
  function View(w: World, p: Portal): PortalState {
    match p
    case Files => Account(w.filesBlocked)
    case Accounting => Account(w.accountingBlocked)
    case Tasks => TaskList(w.clientActive, Views(w.rows))
  }

  predicate IsBlank(s: string) {
    forall c <- s :: c == ' ' || c == '\t' || c == '\n' || c == '\r'
  }

  /** The robot refuses a page on which a mandatory field is empty. */
  function Read(w: World, p: Portal): Option<PortalState> {
    if p == Tasks && exists row <- w.rows :: IsBlank(row.assignee) || IsBlank(row.reference) then None
    else Some(View(w, p))
  }

  // ----- The simulator's commands -----

  function BlockRow(row: TaskRow): TaskRow {
    if !row.isOpen || row.assignee == BLOCKED_TASK_OWNER then row
    else row.(previousAssignee := row.assignee, assignee := BLOCKED_TASK_OWNER)
  }

  function UnblockRow(row: TaskRow): TaskRow {
    if row.assignee != BLOCKED_TASK_OWNER then row
    else row.(assignee := row.previousAssignee, previousAssignee := "")
  }

  function BlockRows(rows: seq<TaskRow>): (r: seq<TaskRow>)
    ensures |r| == |rows|
    ensures forall i :: 0 <= i < |rows| ==> r[i] == BlockRow(rows[i])
  {
    seq(|rows|, i requires 0 <= i < |rows| => BlockRow(rows[i]))
  }

  function UnblockRows(rows: seq<TaskRow>): (r: seq<TaskRow>)
    ensures |r| == |rows|
    ensures forall i :: 0 <= i < |rows| ==> r[i] == UnblockRow(rows[i])
  {
    seq(|rows|, i requires 0 <= i < |rows| => UnblockRow(rows[i]))
  }

  /** A marked task without a previous assignee cannot be unblocked. */
  predicate Inconsistent(rows: seq<TaskRow>) {
    exists row <- rows :: row.assignee == BLOCKED_TASK_OWNER && IsBlank(row.previousAssignee)
  }

  /** The scenario faults of the simulator; every one is answered before anything changes. */
  predicate HasFault(p: Portal, scenario: Scenario, phase: Phase) {
    match scenario
    case HappyPath => false
    case FailTasksApply => p == Tasks && phase == ApplyPhase
    case TimeoutAccountingApply => p == Accounting && phase == ApplyPhase
    case FailTasksApplyAndFilesCompensation =>
      (p == Tasks && phase == ApplyPhase) || (p == Files && phase == CompensationPhase)
  }

  /** One accepted command; None is the simulator's conflict answer. */
  function Act(w: World, p: Portal, action: Action): Option<World> {
    match p
    case Files => Some(w.(filesBlocked := action == Block))
    case Accounting => Some(w.(accountingBlocked := action == Block))
    case Tasks =>
      if action == Block then Some(w.(rows := BlockRows(w.rows)))
      else if Inconsistent(w.rows) then None
      else Some(w.(rows := UnblockRows(w.rows)))
  }

  // ----- Gateway calls -----

  datatype Request =
    | Inspect
    | Apply(action: Action)
    | Restore(expected: PortalState, target: PortalState)

  predicate Mutates(request: Request) {
    !request.Inspect?
  }

  /** The portal afterwards, and the state it confirmed, if it confirmed one. */
  datatype Served = Served(world: World, reply: Option<PortalState>)

  /** Submit one command and read the page back. */
  function Submit(w: World, p: Portal, action: Action, scenario: Scenario, phase: Phase): Served {
    if HasFault(p, scenario, phase) then Served(w, None)
    else match Act(w, p, action)
      case None => Served(w, None)
      case Some(w') => Served(w', Read(w', p))
  }

  predicate AllMarked(tasks: seq<TaskView>) {
    (exists t <- tasks :: t.isOpen) &&
    forall t <- tasks :: t.isOpen ==> t.assignee == BLOCKED_TASK_OWNER
  }

  /** The command that a restore to `target` submits; None when the target is unusable. */
  function RestoreAction(p: Portal, target: PortalState): Option<Action> {
    match target
    case Account(blocked) =>
      if p == Tasks then None else Some(if blocked then Block else Unblock)
    case TaskList(active, tasks) =>
      if p != Tasks || !active then None
      else Some(if AllMarked(tasks) then Block else Unblock)
  }

  function Serve(w: World, p: Portal, request: Request, scenario: Scenario, phase: Phase): Served {
    match request
    case Inspect => Served(w, Read(w, p))
    case Apply(action) => Submit(w, p, action, scenario, phase)
    case Restore(expected, target) =>
      if Read(w, p) != Some(expected) then Served(w, None)
      else match RestoreAction(p, target)
        case None => Served(w, None)
        case Some(action) =>
          var served := Submit(w, p, action, scenario, phase);
          if served.reply == Some(target) then served else Served(served.world, None)
  }

  /** A call on one portal leaves the other two exactly as they were. */
  lemma ServeFrame(w: World, p: Portal, request: Request, scenario: Scenario, phase: Phase, q: Portal)
    requires p != q
    ensures View(Serve(w, p, request, scenario, phase).world, q) == View(w, q)
    ensures q != Tasks || Serve(w, p, request, scenario, phase).world.rows == w.rows
  {
  }

  /** Whatever a call confirms is what the portal then shows. */
  lemma ServeTruthful(w: World, p: Portal, request: Request, scenario: Scenario, phase: Phase)
    ensures var served := Serve(w, p, request, scenario, phase);
            served.reply.Some? ==> served.reply == Some(View(served.world, p))
    ensures request.Inspect? ==> Serve(w, p, request, scenario, phase).world == w
  {
  }

  // ----- The simulator as the program writes it: rows updated in place -----

  class Simulator {
    var filesBlocked: bool
    var accountingBlocked: bool
    var clientActive: bool
    var rows: seq<TaskRow>

    function Stored(): World
      reads this
    {
      World(filesBlocked, accountingBlocked, clientActive, rows)
    }

    constructor (w: World)
      ensures Stored() == w
    {
      filesBlocked, accountingBlocked := w.filesBlocked, w.accountingBlocked;
      clientActive, rows := w.clientActive, w.rows;
    }

    /** Somebody else edits the portals. */
    method Edit(edit: World -> World)
      modifies this
      ensures Stored() == edit(old(Stored()))
    {
      var w := edit(Stored());
      filesBlocked, accountingBlocked := w.filesBlocked, w.accountingBlocked;
      clientActive, rows := w.clientActive, w.rows;
    }

    method TasksAction(action: Action) returns (accepted: bool)
      modifies this`rows
      ensures accepted == Act(old(Stored()), Tasks, action).Some?
      ensures Stored() == Act(old(Stored()), Tasks, action).GetOr(old(Stored()))
    {
      if action == Unblock && Inconsistent(rows) {
        return false;
      }
      var stored := rows;
      var tasks := new TaskRow[|stored|](i requires 0 <= i < |stored| => stored[i]);
      assert tasks[..] == stored;
      if action == Block {
        var _ := BlockOpenTasks(tasks);
      } else {
        var _ := UnblockTasks(tasks);
      }
      rows := tasks[..];
      return true;
    }

    method ServiceAccountAction(p: Portal, action: Action)
      requires p != Tasks
      modifies this`filesBlocked, this`accountingBlocked
      ensures Some(Stored()) == Act(old(Stored()), p, action)
    {
      var targetState := action == Block;
      if p == Files {
        if filesBlocked != targetState {
          filesBlocked := targetState;
        }
      } else if accountingBlocked != targetState {
        accountingBlocked := targetState;
      }
    }

    method Perform(p: Portal, action: Action, scenario: Scenario, phase: Phase) returns (reply: Option<PortalState>)
      modifies this
      ensures Served(Stored(), reply) == Submit(old(Stored()), p, action, scenario, phase)
    {
      if HasFault(p, scenario, phase) {
        return None;
      }
      if p == Tasks {
        var accepted := TasksAction(action);
        if !accepted {
          return None;
        }
      } else {
        ServiceAccountAction(p, action);
      }
      reply := Read(Stored(), p);
    }

    /** The three gateway entry points. */
    method Call(p: Portal, request: Request, scenario: Scenario, phase: Phase) returns (reply: Option<PortalState>)
      modifies this
      ensures Served(Stored(), reply) == Serve(old(Stored()), p, request, scenario, phase)
    {
      match request
      case Inspect =>
        reply := Read(Stored(), p);
      case Apply(action) =>
        reply := Perform(p, action, scenario, phase);
      case Restore(expected, target) =>
        if Read(Stored(), p) != Some(expected) {
          return None;
        }
        var action := RestoreAction(p, target);
        if action.None? {
          return None;
        }
        reply := Perform(p, action.value, scenario, phase);
        if reply != Some(target) {
          reply := None;
        }
    }
  }

  function CountChanged(rows: seq<TaskRow>, after: seq<TaskRow>): nat
    requires |rows| == |after|
  {
    if rows == [] then 0
    else CountChanged(rows[..|rows| - 1], after[..|rows| - 1]) +
         (if rows[|rows| - 1] == after[|rows| - 1] then 0 else 1)
  }

  method BlockOpenTasks(tasks: array<TaskRow>) returns (changed: nat)
    modifies tasks
    ensures tasks[..] == BlockRows(old(tasks[..]))
    ensures changed == CountChanged(old(tasks[..]), tasks[..])
  {
    changed := 0;
    ghost var was := tasks[..];
    for i := 0 to tasks.Length
      invariant forall j :: 0 <= j < i ==> tasks[j] == BlockRow(was[j])
      invariant forall j :: i <= j < tasks.Length ==> tasks[j] == was[j]
      invariant changed == CountChanged(was[..i], tasks[..i])
    {
      ghost var before := tasks[..i];
      if tasks[i].isOpen && tasks[i].assignee != BLOCKED_TASK_OWNER {
        tasks[i] := tasks[i].(previousAssignee := tasks[i].assignee, assignee := BLOCKED_TASK_OWNER);
        changed := changed + 1;
      }
      assert was[..i + 1][..i] == was[..i] && tasks[..i + 1][..i] == tasks[..i] == before;
    }
    assert was[..tasks.Length] == was && tasks[..tasks.Length] == tasks[..];
  }

  method UnblockTasks(tasks: array<TaskRow>) returns (changed: nat)
    modifies tasks
    ensures tasks[..] == UnblockRows(old(tasks[..]))
    ensures changed == CountChanged(old(tasks[..]), tasks[..])
  {
    changed := 0;
    ghost var was := tasks[..];
    for i := 0 to tasks.Length
      invariant forall j :: 0 <= j < i ==> tasks[j] == UnblockRow(was[j])
      invariant forall j :: i <= j < tasks.Length ==> tasks[j] == was[j]
      invariant changed == CountChanged(was[..i], tasks[..i])
    {
      ghost var before := tasks[..i];
      if tasks[i].assignee == BLOCKED_TASK_OWNER {
        tasks[i] := tasks[i].(assignee := tasks[i].previousAssignee, previousAssignee := "");
        changed := changed + 1;
      }
      assert was[..i + 1][..i] == was[..i] && tasks[..i + 1][..i] == tasks[..i] == before;
    }
    assert was[..tasks.Length] == was && tasks[..tasks.Length] == tasks[..];
  }
}
