/** Blocking on the simulator. Whatever goes wrong on the way, each portal stays in its state before the block
    or in its blocked state, and can still be moved between the two. Hence a block that is only refused
    before it changes anything never ends partially done, and a resumed block without failures completes. */
module Sc05Block {
  import opened Options
  import opened Sc05Portals
  import opened Sc05Saga

  predicate Unmarked(tasks: seq<TaskView>) {
    !HasMarker(tasks) && forall t <- tasks :: !IsBlank(t.assignee) && !IsBlank(t.reference)
  }

  /** What the portal shows once it is blocked. */
  function Target(b: PortalState): PortalState {
    match b
    case Account(_) => Account(true)
    case TaskList(active, tasks) => TaskList(active, BlockedViews(tasks))
  }

  predicate RowFree(row: TaskRow, t: TaskView) {
    ViewOf(row) == t
  }

  predicate RowTaken(row: TaskRow, t: TaskView) {
    if t.isOpen then row == TaskRow(t.reference, BLOCKED_TASK_OWNER, t.assignee, true) else ViewOf(row) == t
  }

  predicate RowsFree(rows: seq<TaskRow>, tasks: seq<TaskView>) {
    |rows| == |tasks| && forall i :: 0 <= i < |rows| ==> RowFree(rows[i], tasks[i])
  }

  predicate RowsTaken(rows: seq<TaskRow>, tasks: seq<TaskView>) {
    |rows| == |tasks| && forall i :: 0 <= i < |rows| ==> RowTaken(rows[i], tasks[i])
  }

  /** `b` can be a recorded state of portal `p` before a block. */
  predicate Blockable(p: Portal, b: PortalState) {
    if p == Tasks then b.TaskList? && b.clientActive && Unmarked(b.tasks) else b.Account?
  }

  predicate IsFree(w: World, p: Portal, b: PortalState) {
    if p == Tasks then b.TaskList? && w.clientActive == b.clientActive && RowsFree(w.rows, b.tasks) else View(w, p) == b
  }

  predicate IsTaken(w: World, p: Portal, b: PortalState) {
    if p == Tasks then b.TaskList? && w.clientActive == b.clientActive && RowsTaken(w.rows, b.tasks)
    else View(w, p) == Account(true)
  }

  /** The invariant of a portal during the life of a block. */
  predicate Sound(w: World, p: Portal, b: PortalState) {
    Blockable(p, b) && (IsFree(w, p, b) || IsTaken(w, p, b))
  }

  // ----- The simulator moves a portal between the two states -----

  lemma FreeShows(w: World, p: Portal, b: PortalState)
    requires Blockable(p, b) && IsFree(w, p, b)
    ensures View(w, p) == b && Read(w, p) == Some(b)
  {
    if p == Tasks {
      assert Views(w.rows) == b.tasks;
      forall row | row in w.rows
        ensures !IsBlank(row.assignee) && !IsBlank(row.reference)
      {
        var i :| 0 <= i < |w.rows| && w.rows[i] == row;
        assert b.tasks[i] in b.tasks;
      }
    }
  }

  lemma OwnerIsNotBlank()
    ensures !IsBlank(BLOCKED_TASK_OWNER)
  {
    assert BLOCKED_TASK_OWNER[0] in BLOCKED_TASK_OWNER;
  }

  lemma TakenShows(w: World, p: Portal, b: PortalState)
    requires Blockable(p, b) && IsTaken(w, p, b)
    ensures View(w, p) == Target(b) && Read(w, p) == Some(Target(b))
  {
    if p == Tasks {
      OwnerIsNotBlank();
      assert Views(w.rows) == BlockedViews(b.tasks);
      forall row | row in w.rows
        ensures !IsBlank(row.assignee) && !IsBlank(row.reference)
      {
        var i :| 0 <= i < |w.rows| && w.rows[i] == row;
        assert b.tasks[i] in b.tasks;
      }
    }
  }

  lemma BlockTakes(w: World, p: Portal, b: PortalState)
    requires Sound(w, p, b)
    ensures Act(w, p, Block).Some? && IsTaken(Act(w, p, Block).value, p, b)
  {
    if p == Tasks {
      var rows := BlockRows(w.rows);
      forall i | 0 <= i < |rows|
        ensures RowTaken(rows[i], b.tasks[i])
      {
        assert b.tasks[i] in b.tasks;
      }
    }
  }

  lemma UnblockFrees(w: World, b: PortalState)
    requires Sound(w, Tasks, b)
    ensures Act(w, Tasks, Unblock).Some? && IsFree(Act(w, Tasks, Unblock).value, Tasks, b)
  {
    forall row | row in w.rows
      ensures row.assignee == BLOCKED_TASK_OWNER ==> !IsBlank(row.previousAssignee)
    {
      var i :| 0 <= i < |w.rows| && w.rows[i] == row;
      assert b.tasks[i] in b.tasks;
    }
    var rows := UnblockRows(w.rows);
    forall i | 0 <= i < |rows|
      ensures RowFree(rows[i], b.tasks[i])
    {
      assert b.tasks[i] in b.tasks;
    }
  }

  /** A restore to the state before the block submits the command that leads back to it. */
  lemma RestoreFrees(w: World, p: Portal, b: PortalState)
    requires Sound(w, p, b)
    ensures RestoreAction(p, b).Some?
    ensures var action := RestoreAction(p, b).value;
            Act(w, p, action).Some? && IsFree(Act(w, p, action).value, p, b)
  {
    if p == Tasks {
      assert !AllMarked(b.tasks);
      UnblockFrees(w, b);
    }
  }

  /** No call that a block can issue breaks the invariant, whatever its outcome. */
  lemma ServeKeepsSound(w: World, p: Portal, b: PortalState, request: Request, scenario: Scenario, phase: Phase)
    requires Sound(w, p, b)
    requires request.Apply? ==> request.action == Block
    requires request.Restore? ==> request.target == b
    ensures Sound(Serve(w, p, request, scenario, phase).world, p, b)
  {
    BlockTakes(w, p, b);
    RestoreFrees(w, p, b);
  }

  lemma ServeBlocks(w: World, p: Portal, b: PortalState, scenario: Scenario, phase: Phase)
    requires Sound(w, p, b) && !HasFault(p, scenario, phase)
    ensures Serve(w, p, Apply(Block), scenario, phase).reply == Some(Target(b))
  {
    BlockTakes(w, p, b);
    TakenShows(Act(w, p, Block).value, p, b);
  }

  lemma ServeRestores(w: World, p: Portal, b: PortalState, scenario: Scenario, phase: Phase)
    requires Sound(w, p, b) && !HasFault(p, scenario, phase)
    ensures Serve(w, p, Restore(View(w, p), b), scenario, phase).reply == Some(b)
  {
    SoundShows(w, p, b);
    RestoreFrees(w, p, b);
    FreeShows(Act(w, p, RestoreAction(p, b).value).value, p, b);
  }

  lemma SoundShows(w: World, p: Portal, b: PortalState)
    requires Sound(w, p, b)
    ensures Read(w, p) == Some(View(w, p))
    ensures View(w, p) == b || View(w, p) == Target(b)
  {
    if IsFree(w, p, b) {
      FreeShows(w, p, b);
    } else {
      TakenShows(w, p, b);
    }
  }
}
