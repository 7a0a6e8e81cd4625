/** Unblocking undoes a block exactly, keeping what people did to the tasks in between. */
module Sc05Unblock {
  import opened Options
  import opened Sc05Portals
  import opened Sc05Saga
  import opened Sc05Operations
  import opened Sc05Compensation
  import opened Sc05Block
  import opened Sc05BlockRuns
  import Runs

  // ----- The assignees to give back -----

  /** Open tasks of the snapshot, and only they, have an entry, which is their assignee. */
  predicate IsBackOf(tasks: seq<TaskView>, back: map<string, string>) {
    && (forall t <- tasks :: t.isOpen ==> t.reference in back && back[t.reference] == t.assignee)
    && (forall r <- back :: exists t <- tasks :: t.isOpen && t.reference == r)
  }

  lemma {:induction false} RestoreAssigneesIs(tasks: seq<TaskView>)
    requires UniqueReferences(tasks) && forall t <- tasks :: t.reference != ""
    ensures RestoreAssignees(tasks).Some? && IsBackOf(tasks, RestoreAssignees(tasks).value)
    decreases |tasks|
  {
    if tasks != [] {
      var init, t := tasks[..|tasks| - 1], tasks[|tasks| - 1];
      RestoreAssigneesIs(init);
      var rest := RestoreAssignees(init).value;
      assert tasks == init + [t];
      forall t' | t' in init
        ensures t'.reference != t.reference
      {
        var k :| 0 <= k < |init| && init[k] == t';
        assert tasks[k] == t';
      }
      assert t.reference !in rest;
      var back := RestoreAssignees(tasks).value;
      forall t' | t' in tasks && t'.isOpen
        ensures t'.reference in back && back[t'.reference] == t'.assignee
      {
        if t' != t {
          assert t' in init;
        }
      }
      forall r | r in back
        ensures exists t' <- tasks :: t'.isOpen && t'.reference == r
      {
        if r in rest {
          var t' :| t' in init && t'.isOpen && t'.reference == r;
          assert t' in tasks;
        } else {
          assert t in tasks;
        }
      }
    }
  }

  // ----- What people may do between the block and the unblock -----

  predicate UniqueRows(rows: seq<TaskRow>) {
    forall i, j :: 0 <= i < j < |rows| ==> rows[i].reference != rows[j].reference
  }

  /** Row `after` is row `row`, possibly closed. */
  predicate KeptOrClosed(row: TaskRow, after: TaskRow) {
    after == row || after == row.(isOpen := false)
  }

  /** Tasks may be closed and unmarked tasks may be added, at any place. */
  predicate TasksEdited(rows: seq<TaskRow>, rows': seq<TaskRow>) {
    && UniqueRows(rows')
    && (forall row <- rows :: exists row' <- rows' :: KeptOrClosed(row, row'))
    && (forall row' <- rows' ::
          || (exists row <- rows :: KeptOrClosed(row, row'))
          || ((forall row <- rows :: row.reference != row'.reference)
              && row'.assignee != BLOCKED_TASK_OWNER && !IsBlank(row'.assignee) && !IsBlank(row'.reference)))
  }

  /** A row of the edited table against the snapshot: marked and returnable, or not to be touched. */
  predicate Returnable(row: TaskRow, back: map<string, string>) {
    && !IsBlank(row.assignee) && !IsBlank(row.reference)
    && (if row.reference in back
        then row.assignee == BLOCKED_TASK_OWNER && row.previousAssignee == back[row.reference] &&
            !IsBlank(back[row.reference])
        else row.assignee != BLOCKED_TASK_OWNER)
  }

  lemma BlockedRowsReturnable(rows: seq<TaskRow>, tasks: seq<TaskView>, back: map<string, string>, row: TaskRow)
    requires RowsTaken(rows, tasks) && Unmarked(tasks) && UniqueReferences(tasks) && IsBackOf(tasks, back)
    requires row in rows
    ensures Returnable(row, back)
  {
    OwnerIsNotBlank();
    var i :| 0 <= i < |rows| && rows[i] == row;
    var t := tasks[i];
    assert t in tasks && RowTaken(rows[i], t);
    if row.reference in back {
      var t' :| t' in tasks && t'.isOpen && t'.reference == row.reference;
      var k :| 0 <= k < |tasks| && tasks[k] == t';
      assert k == i;
    }
  }

  lemma NewRowNotInBack(rows: seq<TaskRow>, tasks: seq<TaskView>, back: map<string, string>, row: TaskRow)
    requires RowsTaken(rows, tasks) && IsBackOf(tasks, back)
    requires forall r <- rows :: r.reference != row.reference
    ensures row.reference !in back
  {
    forall t | t in tasks
      ensures t.reference != row.reference
    {
      var k :| 0 <= k < |tasks| && tasks[k] == t;
      assert RowTaken(rows[k], tasks[k]) && rows[k] in rows;
    }
  }

  lemma EditedRowsReturnable(rows: seq<TaskRow>, rows': seq<TaskRow>, tasks: seq<TaskView>, back: map<string, string>)
    requires RowsTaken(rows, tasks) && Unmarked(tasks) && UniqueReferences(tasks) && IsBackOf(tasks, back)
    requires TasksEdited(rows, rows')
    ensures forall row' <- rows' :: Returnable(row', back)
    ensures forall r <- back :: exists row' <- rows' :: row'.reference == r
  {
    forall row' | row' in rows'
      ensures Returnable(row', back)
    {
      if row :| row in rows && KeptOrClosed(row, row') {
        BlockedRowsReturnable(rows, tasks, back, row);
      } else {
        NewRowNotInBack(rows, tasks, back, row');
      }
    }
    forall r | r in back
      ensures exists row' <- rows' :: row'.reference == r
    {
      var t :| t in tasks && t.isOpen && t.reference == r;
      var k :| 0 <= k < |tasks| && tasks[k] == t;
      assert RowTaken(rows[k], tasks[k]) && rows[k] in rows;
      var row' :| row' in rows' && KeptOrClosed(rows[k], row');
    }
  }

  lemma UnblockedRowShows(row: TaskRow, back: map<string, string>)
    requires Returnable(row, back)
    ensures var t := ViewOf(UnblockRow(row));
            && t == (if row.reference in back then ViewOf(row).(assignee := back[row.reference]) else ViewOf(row))
            && !IsBlank(t.assignee) && !IsBlank(t.reference)
  {
  }

  /** The simulator accepts the command, and its rows then show the snapshot's assignees. */
  lemma UnblockProduces(w: World, back: map<string, string>)
    requires forall row <- w.rows :: Returnable(row, back)
    ensures Act(w, Tasks, Unblock) == Some(w.(rows := UnblockRows(w.rows)))
    ensures Views(UnblockRows(w.rows)) == Restored(Views(w.rows), back)
    ensures Read(w, Tasks).Some? && Read(w.(rows := UnblockRows(w.rows)), Tasks).Some?
  {
    var rows' := UnblockRows(w.rows);
    forall i | 0 <= i < |rows'|
      ensures ViewOf(rows'[i]) == Restored(Views(w.rows), back)[i]
      ensures !IsBlank(rows'[i].assignee) && !IsBlank(rows'[i].reference)
    {
      UnblockedRowShows(w.rows[i], back);
    }
    assert Views(rows') == Restored(Views(w.rows), back);
  }

  /** The saga's own computation of the desired state gives the same list. */
  lemma UnblockDesires(rows: seq<TaskRow>, snapshot: seq<TaskView>, back: map<string, string>)
    requires RestoreAssignees(snapshot) == Some(back) && UniqueRows(rows)
    requires forall row <- rows :: Returnable(row, back)
    requires forall r <- back :: exists row <- rows :: row.reference == r
    ensures TaskUnblockState(Some(TaskList(true, snapshot)), TaskList(true, Views(rows))) ==
            Some(TaskList(true, Restored(Views(rows), back)))
  {
    var tasks := Views(rows);
    forall t | t in tasks
      ensures t.reference != ""
      ensures t.assignee == BLOCKED_TASK_OWNER <==> t.reference in back
    {
      var i :| 0 <= i < |tasks| && tasks[i] == t;
      assert Returnable(rows[i], back);
    }
    forall r | r in back
      ensures exists t <- tasks :: t.reference == r
    {
      var row :| row in rows && row.reference == r;
      var i :| 0 <= i < |rows| && rows[i] == row;
      assert tasks[i] in tasks;
    }
    assert CanRestore(tasks, back);
  }

  // ----- A forward pass that meets no failure -----

  /** Portal `p` can be brought to `d` by this job. */
  predicate CanReach(job: Job, w: World, p: Portal, d: PortalState) {
    && Read(w, p) == Some(View(w, p))
    && InitialStateError(job, p, View(w, p)).None?
    && DesiredState(job, p, View(w, p)) == Some(d)
    && (View(w, p) == d || Submit(w, p, job.action, job.scenario, ApplyPhase).reply == Some(d))
  }

  lemma CanReachFrame(job: Job, w: World, w': World, p: Portal, d: PortalState)
    requires Same(w, w', p) && CanReach(job, w, p, d)
    ensures CanReach(job, w', p, d)
  {
    SubmitFrame(w, w', p, job.action, job.scenario, ApplyPhase);
  }

  /** What a command answers depends on its own portal only. */
  lemma SubmitFrame(w: World, w': World, p: Portal, action: Action, scenario: Scenario, phase: Phase)
    requires Same(w, w', p)
    ensures Submit(w', p, action, scenario, phase).reply == Submit(w, p, action, scenario, phase).reply
    ensures Read(w', p) == Read(w, p)
  {
    if p == Tasks && Act(w, p, action).Some? {
      var after, after' := Act(w, p, action).value, Act(w', p, action).value;
      assert after.rows == after'.rows && after.clientActive == after'.clientActive;
    }
  }

  lemma ApplyStepArrives(job: Job, plan: Plan, x: Exec, i: nat, d: PortalState)
    requires NoEdits(plan) && NoFaults(plan) && i < |x.steps| && x.steps[i].before.None?
    requires CanReach(job, x.world, x.steps[i].portal, d)
    ensures var (x', signal) := ApplyStep(job, plan, x, i);
            signal.Done? && x'.steps[i].desired == Some(d)
  {
    var p := x.steps[i].portal;
    var x0 := SetStatus(x, i, Running);
    assert plan(ApplyPhase, x0.tick).edit(x0.world) == x0.world;
    var x1 := Invoke(job, plan, x0, ApplyPhase, p, Inspect).0;
    var x2 := x1.(steps := x1.steps[i := x1.steps[i].(before := Some(View(x.world, p)), desired := Some(d))]);
    CheckpointEffect(plan, x2, ApplyPhase);
    var x3 := Checkpoint(plan, x2, ApplyPhase).0;
    assert plan(ApplyPhase, x3.tick).edit(x3.world) == x3.world;
  }

  /** All three portals arrive. */
  lemma {:induction false} RunForwardArrives(job: Job, plan: Plan, x: Exec, i: nat, goal: Portal -> PortalState)
    requires NoEdits(plan) && NoFaults(plan) && Shaped(job, x.steps) && i <= 3 && ReachedDesired(x, i)
    requires forall j :: 0 <= j < i ==> x.steps[j].desired == Some(goal(x.steps[j].portal))
    requires forall j :: i <= j < 3 ==>
             x.steps[j].before.None? && CanReach(job, x.world, x.steps[j].portal, goal(x.steps[j].portal))
    ensures var (x', forward) := RunForward(job, plan, x, i);
            forward.AllApplied? && forall p :: View(x'.world, p) == goal(p)
    decreases 3 - i
  {
    if i == 3 {
      forall p
        ensures View(x.world, p) == goal(p)
      {
        PortalHasStep(job, x.steps, p);
      }
      return;
    }
    CheckpointEffect(plan, x, ApplyPhase);
    var x0 := Checkpoint(plan, x, ApplyPhase).0;
    ApplyStepArrives(job, plan, x0, i, goal(x0.steps[i].portal));
    ApplyStepReaches(job, plan, x0, i);
    ApplyStepEffect(job, plan, x0, i);
    var x1 := ApplyStep(job, plan, x0, i).0;
    StepKeepsReached(job, x0, x1, i);
    forall j | i + 1 <= j < 3
      ensures x1.steps[j].before.None? && CanReach(job, x1.world, x1.steps[j].portal, goal(x1.steps[j].portal))
    {
      assert x1.steps[j] == x0.steps[j] && x0.steps[j].portal != x0.steps[i].portal;
      CanReachFrame(job, x0.world, x1.world, x0.steps[j].portal, goal(x0.steps[j].portal));
    }
    RunForwardArrives(job, plan, x1, i + 1, goal);
  }

  // ----- The round trip -----

  /** Row `after` of the final table against row `row` of the edited table: a task open before the block has
      the assignee it had before the block; any other task keeps the assignee it has now. */
  predicate GivesBackRow(before: seq<TaskRow>, row: TaskRow, after: TaskRow) {
    && after.reference == row.reference && after.isOpen == row.isOpen
    && (forall b <- before :: b.isOpen && b.reference == row.reference ==> after.assignee == b.assignee)
    && ((forall b <- before :: b.isOpen ==> b.reference != row.reference) ==> after.assignee == row.assignee)
  }

  predicate GivesBack(before: seq<TaskRow>, rows: seq<TaskRow>, after: seq<TaskRow>) {
    |after| == |rows| && forall i :: 0 <= i < |rows| ==> GivesBackRow(before, rows[i], after[i])
  }

  lemma RestoredGivesBack(before: seq<TaskRow>, rows: seq<TaskRow>, after: seq<TaskRow>, back: map<string, string>)
    requires IsBackOf(Views(before), back) && Views(after) == Restored(Views(rows), back)
    ensures GivesBack(before, rows, after)
  {
    assert |after| == |rows|;
    forall i | 0 <= i < |rows|
      ensures GivesBackRow(before, rows[i], after[i])
    {
      assert ViewOf(after[i]) == Views(after)[i] == Restored(Views(rows), back)[i];
      forall b | b in before && b.isOpen && b.reference == rows[i].reference
        ensures after[i].assignee == b.assignee
      {
        var k :| 0 <= k < |before| && before[k] == b;
        assert Views(before)[k] in Views(before);
      }
      if rows[i].reference in back {
        var t :| t in Views(before) && t.isOpen && t.reference == rows[i].reference;
        var k :| 0 <= k < |before| && Views(before)[k] == t;
        assert before[k] in before;
      }
    }
  }

  /** With nothing edited in between, giving back reproduces the table as it was. */
  lemma GivesBackEverything(before: seq<TaskRow>, blocked: seq<TaskRow>, after: seq<TaskRow>)
    requires RowsTaken(blocked, Views(before)) && GivesBack(before, blocked, after) && UniqueRows(before)
    ensures Views(after) == Views(before)
  {
    forall i | 0 <= i < |before|
      ensures ViewOf(after[i]) == ViewOf(before[i])
    {
      assert RowTaken(blocked[i], Views(before)[i]) && GivesBackRow(before, blocked[i], after[i]);
      assert before[i] in before;
      if !before[i].isOpen {
        forall b | b in before && b.isOpen
          ensures b.reference != blocked[i].reference
        {
          var k :| 0 <= k < |before| && before[k] == b;
        }
      }
    }
  }

  lemma {:induction false} PriorBlockStateIs(history: seq<Operation>, block: Operation, later: seq<Operation>,
                                             portal: Portal)
    requires block.action == Block && block.status == Runs.Succeeded && StepFor(block.steps, portal).Some?
    requires forall o <- later :: o.action != Block || o.status != Runs.Succeeded
    ensures PriorBlockState(history + [block] + later, portal) == StepFor(block.steps, portal).value.before
    decreases |later|
  {
    var all := history + [block] + later;
    if later == [] {
      assert all[|all| - 1] == block;
    } else {
      var init := later[..|later| - 1];
      assert all[|all| - 1] == later[|later| - 1] && later[|later| - 1] in later;
      assert all[..|all| - 1] == history + [block] + init;
      PriorBlockStateIs(history, block, init, portal);
    }
  }

  lemma StepForShaped(steps: seq<Step>, p: Portal, i: nat)
    requires |steps| == 3 && i < 3 && steps[i].portal == p
    requires forall j :: 0 <= j < i ==> steps[j].portal != p
    ensures StepFor(steps, p) == Some(steps[i])
  {
    assert steps[1..][1..] == steps[2..];
    assert steps[1..][0] == steps[1] && steps[2..][0] == steps[2];
    assert StepFor(steps[2..], p) == if steps[2].portal == p then Some(steps[2]) else StepFor(steps[2..][1..], p);
    assert StepFor(steps[1..], p) == if steps[1].portal == p then Some(steps[1]) else StepFor(steps[2..], p);
  }

  lemma SoundReachedIsTaken(w: World, p: Portal, b: PortalState)
    requires Sound(w, p, b) && View(w, p) == Target(b)
    ensures IsTaken(w, p, b)
  {
    if p == Tasks && IsFree(w, p, b) {
      FreeShows(w, p, b);
      assert b.tasks == BlockedViews(b.tasks);
      forall i | 0 <= i < |w.rows|
        ensures RowTaken(w.rows[i], b.tasks[i])
      {
        assert b.tasks[i] in b.tasks && RowFree(w.rows[i], b.tasks[i]);
      }
    }
  }

  /** What a succeeded block left behind, for the unblock to start from. */
  lemma AfterBlock(s: Saga, w: World)
    requires BlockLife(s, w) && s.operation.status == Runs.Succeeded && Blockable(Tasks, View(w, Tasks))
    ensures s.world.filesBlocked && s.world.accountingBlocked && s.world.clientActive
    ensures RowsTaken(s.world.rows, Views(w.rows))
    ensures StepFor(s.operation.steps, Files).Some? &&
            StepFor(s.operation.steps, Files).value.before == Some(Account(w.filesBlocked))
    ensures StepFor(s.operation.steps, Accounting).Some? &&
            StepFor(s.operation.steps, Accounting).value.before == Some(Account(w.accountingBlocked))
  {
    var x := Exec(s.world, s.operation.steps, 0, s.trace);
    assert forall i :: 0 <= i < 3 ==> x.steps[i].portal == BLOCK_ORDER[i];
    assert StepSound(x.steps[0], x.world) && StepSound(x.steps[1], x.world) && StepSound(x.steps[2], x.world);
    StepForShaped(x.steps, Files, 0);
    StepForShaped(x.steps, Accounting, 1);
    SoundReachedIsTaken(x.world, Tasks, x.steps[2].before.value);
  }

  /** The goal of the unblock. */
  function UndoneState(w: World, edited: World, back: map<string, string>): Portal -> PortalState {
    (p: Portal) => match p
      case Files => Account(w.filesBlocked)
      case Accounting => Account(w.accountingBlocked)
      case Tasks => TaskList(true, Restored(Views(edited.rows), back))
  }

  /** Nothing but the tasks was touched, and only as `TasksEdited` allows. */
  predicate OnlyTasksEdited(w: World, w': World) {
    w' == w.(rows := w'.rows) && TasksEdited(w.rows, w'.rows)
  }

  lemma TasksCanReach(job: Job, edited: World, snapshot: seq<TaskView>, back: map<string, string>)
    requires job.action == Unblock && job.scenario == HappyPath && job.snapshot == Some(TaskList(true, snapshot))
    requires RestoreAssignees(snapshot) == Some(back) && UniqueRows(edited.rows) && edited.clientActive
    requires forall row <- edited.rows :: Returnable(row, back)
    requires forall r <- back :: exists row <- edited.rows :: row.reference == r
    ensures CanReach(job, edited, Tasks, TaskList(true, Restored(Views(edited.rows), back)))
  {
    UnblockDesires(edited.rows, snapshot, back);
    UnblockProduces(edited, back);
  }

  lemma UnblockCanReach(job: Job, w: World, blocked: World, edited: World, back: map<string, string>)
    requires job == Job(Unblock, HappyPath, Some(View(w, Tasks)), Some(Account(w.filesBlocked)),
                        Some(Account(w.accountingBlocked)))
    requires blocked.filesBlocked && blocked.accountingBlocked && blocked.clientActive && w.clientActive
    requires RowsTaken(blocked.rows, Views(w.rows)) && Unmarked(Views(w.rows)) && UniqueReferences(Views(w.rows))
    requires OnlyTasksEdited(blocked, edited)
    requires RestoreAssignees(Views(w.rows)) == Some(back) && IsBackOf(Views(w.rows), back)
    ensures forall p :: CanReach(job, edited, p, UndoneState(w, edited, back)(p))
  {
    EditedRowsReturnable(blocked.rows, edited.rows, Views(w.rows), back);
    TasksCanReach(job, edited, Views(w.rows), back);
  }

  /** After a block that succeeded, however many attempts it took, and any closing of tasks and adding of
      unmarked tasks, an unblock whose calls all work succeeds: both accounts are as before the block, every
      task that was open then has its assignee back, every other task is untouched. */
  lemma UnblockUndoesBlock(history: seq<Operation>, s0: Saga, events: seq<Event>, later: seq<Operation>, edited: World,
                           plan: Plan)
    requires s0.operation == NewOperation(Block, s0.operation.scenario)
    requires Blockable(Tasks, View(s0.world, Tasks)) && UniqueRows(s0.world.rows) && WithoutEdits(events)
    requires Live(history, s0, events).operation.status == Runs.Succeeded
    requires OnlyTasksEdited(Live(history, s0, events).world, edited)
    requires forall o <- later :: o.action != Block || o.status != Runs.Succeeded
    requires NoEdits(plan) && NoFaults(plan)
    ensures var block := Live(history, s0, events);
            var u := Saga(NewOperation(Unblock, HappyPath), block.client, edited, []);
            var u' := ExecuteOperation(history + [block.operation] + later, u, plan, true);
            && u'.operation.status == Runs.Succeeded && u'.client == Client(Runs.Active, None)
            && u'.world.filesBlocked == s0.world.filesBlocked
            && u'.world.accountingBlocked == s0.world.accountingBlocked
            && GivesBack(s0.world.rows, edited.rows, u'.world.rows)
            && (edited == block.world ==> forall p :: View(u'.world, p) == View(s0.world, p))
  {
    var w := s0.world;
    LiveBlock(history, s0, events, w);
    var block := Live(history, s0, events);
    AfterBlock(block, w);
    PriorBlockStateIs(history, block.operation, later, Files);
    PriorBlockStateIs(history, block.operation, later, Accounting);
    UnblockRuns(history + [block.operation] + later, w, block.world, edited,
                Saga(NewOperation(Unblock, HappyPath), block.client, edited, []), plan);
  }

  lemma UnblockRuns(history: seq<Operation>, w: World, blocked: World, edited: World, u: Saga, plan: Plan)
    requires u == Saga(NewOperation(Unblock, HappyPath), Client(Runs.Blocked, Some(View(w, Tasks))), edited, [])
    requires PriorBlockState(history, Files) == Some(Account(w.filesBlocked))
    requires PriorBlockState(history, Accounting) == Some(Account(w.accountingBlocked))
    requires blocked.filesBlocked && blocked.accountingBlocked && blocked.clientActive
    requires Blockable(Tasks, View(w, Tasks)) && UniqueRows(w.rows)
    requires RowsTaken(blocked.rows, Views(w.rows)) && OnlyTasksEdited(blocked, edited)
    requires NoEdits(plan) && NoFaults(plan)
    ensures var u' := ExecuteOperation(history, u, plan, true);
            && u'.operation.status == Runs.Succeeded && u'.client == Client(Runs.Active, None)
            && u'.world.filesBlocked == w.filesBlocked
            && u'.world.accountingBlocked == w.accountingBlocked
            && GivesBack(w.rows, edited.rows, u'.world.rows)
            && (edited == blocked ==> forall p :: View(u'.world, p) == View(w, p))
  {
    NamesNotEmpty(Views(w.rows));
    RestoreAssigneesIs(Views(w.rows));
    var back := RestoreAssignees(Views(w.rows)).value;
    var job := JobOf(history, u.operation, u.client);
    UnblockCanReach(job, w, blocked, edited, back);
    var goal := UndoneState(w, edited, back);
    var x := Exec(edited, u.operation.steps, 0, []);
    RunForwardArrives(job, plan, x, 0, goal);
    var x1 := RunForward(job, plan, x, 0).0;
    CheckpointEffect(plan, x1, ApplyPhase);
    GoalReached(w, blocked, edited, back, x1.world);
  }

  lemma NamesNotEmpty(tasks: seq<TaskView>)
    requires Unmarked(tasks)
    ensures forall t <- tasks :: t.reference != ""
  {
    assert IsBlank("");
  }

  lemma GoalReached(w: World, blocked: World, edited: World, back: map<string, string>, w': World)
    requires IsBackOf(Views(w.rows), back) && UniqueRows(w.rows)
    requires RowsTaken(blocked.rows, Views(w.rows)) && w.clientActive
    requires forall p :: View(w', p) == UndoneState(w, edited, back)(p)
    ensures w'.filesBlocked == w.filesBlocked && w'.accountingBlocked == w.accountingBlocked
    ensures GivesBack(w.rows, edited.rows, w'.rows)
    ensures edited == blocked ==> forall p :: View(w', p) == View(w, p)
  {
    var goal := UndoneState(w, edited, back);
    assert View(w', Files) == goal(Files) && View(w', Accounting) == goal(Accounting) && View(w', Tasks) == goal(Tasks);
    RestoredGivesBack(w.rows, edited.rows, w'.rows, back);
    if edited == blocked {
      GivesBackEverything(w.rows, edited.rows, w'.rows);
    }
  }
}
