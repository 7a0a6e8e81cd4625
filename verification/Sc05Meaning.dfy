/** What the simulator, the gateway calls and the demonstration scenarios do, said of rows, portals and clients. */
module Sc05Meaning {
  import opened Options
  import opened Sc05Portals
  import opened Sc05Saga
  import opened Sc05Snapshots
  import opened Sc05Operations
  import opened Sc05Compensation
  import opened Sc05Block
  import opened Sc05BlockRuns
  import Texts
  import Runs

  // ----- Blank texts -----

  predicate IsSpace(c: char) {
    c in {' ', '\t', '\n', '\r'}
  }

  /** A text is blank exactly when nothing is left of it once trimmed. */
  lemma BlankMeans(s: string)
    ensures IsBlank(s) <==> Texts.Strip(IsSpace, s) == ""
  {
    Texts.StripTrims(IsSpace, s);
    var t := Texts.Strip(IsSpace, s);
    var a, b :| Texts.Around(IsSpace, s, a, t, b);
    if t != "" {
      assert s[|a|] == t[0] && s[|a|] in s && !IsSpace(t[0]);
    } else {
      forall c | c in s
        ensures IsSpace(c)
      {
        assert c in a || c in b;
      }
    }
  }

  // ----- Commands -----

  /** A block takes over the open rows, and each remembers whom it belonged to. */
  predicate TakesOver(row: TaskRow, after: TaskRow) {
    && after.reference == row.reference && after.isOpen == row.isOpen
    && (if !row.isOpen then after == row
        else after.assignee == "BLOQUEADO_INADIMPLENCIA" &&
             after.previousAssignee ==
                 (if row.assignee == "BLOQUEADO_INADIMPLENCIA" then row.previousAssignee else row.assignee))
  }

  /** An unblock gives the marked rows back, open or closed, and forgets to whom it gave them. */
  predicate GivesBack(row: TaskRow, after: TaskRow) {
    && after.reference == row.reference && after.isOpen == row.isOpen
    && (if row.assignee != "BLOQUEADO_INADIMPLENCIA" then after == row
        else after.assignee == row.previousAssignee && after.previousAssignee == "")
  }

  lemma TasksCommandMeans(w: World, action: Action)
    ensures var after := Act(w, Tasks, action);
            && (after.None? <==>
                  (action == Unblock && exists row <- w.rows ::
                     row.assignee == "BLOQUEADO_INADIMPLENCIA" && IsBlank(row.previousAssignee)))
            && (after.Some? ==>
                  && after.value == w.(rows := after.value.rows) && |after.value.rows| == |w.rows|
                  && forall i :: 0 <= i < |w.rows| ==>
                       if action == Block then TakesOver(w.rows[i], after.value.rows[i])
                       else GivesBack(w.rows[i], after.value.rows[i]))
  {
  }

  lemma AccountCommandMeans(w: World, p: Portal, action: Action)
    requires p != Tasks
    ensures var after := Act(w, p, action);
            && after.Some? && View(after.value, p) == Account(action == Block)
            && forall q :: q != p ==> View(after.value, q) == View(w, q)
  {
  }

  /** A restore acts only on the state it expects, only for a target of the portal's kind and of an active client, and
      never confirms another state. */
  lemma RestoreMeans(w: World, p: Portal, expected: PortalState, target: PortalState, scenario: Scenario, phase: Phase)
    ensures var served := Serve(w, p, Restore(expected, target), scenario, phase);
            && (Read(w, p) != Some(expected) ==> served == Served(w, None))
            && ((p == Tasks) != target.TaskList? ==> served == Served(w, None))
            && (target.TaskList? && !target.clientActive ==> served == Served(w, None))
            && (served.reply.Some? ==> served.reply == Some(target) && View(served.world, p) == target)
  {
  }

  // ----- One call, with what may go wrong around it -----

  /** What each fault means, for the portal, for the worker and for the log of calls. */
  lemma InvokeMeans(job: Job, plan: Plan, x: Exec, phase: Phase, p: Portal, request: Request)
    ensures var (x', signal) := Invoke(job, plan, x, phase, p, request);
            var now := plan(phase, x.tick);
            var w := now.edit(x.world);
            var served := Serve(w, p, request, job.scenario, phase);
            && x'.tick == x.tick + 1 && x'.steps == x.steps
            && (now.fault == DiedBefore ==> signal == Died && x'.world == w && x'.trace == x.trace)
            && (now.fault == Refused ==>
                  signal == Raised(CallFailed) && x'.world == w && x'.trace == x.trace + [CallRecord(p, request, None)])
            && (now.fault != DiedBefore && now.fault != Refused ==>
                  x'.world == served.world && x'.trace == x.trace + [CallRecord(p, request, served.reply)])
            && (now.fault == DiedAfter ==> signal == Died)
            && (now.fault == BrokeAfter || now.fault == StorageFailed ==> signal == Raised(CallFailed))
            && (now.fault == Fine ==>
                  signal == if served.reply.Some? then Done(served.reply.value) else Raised(CallFailed))
  {
  }

  lemma CheckpointMeans(plan: Plan, x: Exec, phase: Phase)
    ensures var (x', signal) := Checkpoint(plan, x, phase);
            var now := plan(phase, x.tick);
            && x' == x.(world := now.edit(x.world), tick := x.tick + 1)
            && (signal.Died? <==> now.fault == DiedBefore || now.fault == DiedAfter)
            && !signal.Raised?
  {
  }

  /** Nobody dies. */
  ghost predicate Alive(plan: Plan) {
    forall phase, n :: plan(phase, n).fault != DiedBefore && plan(phase, n).fault != DiedAfter
  }

  lemma RecordedStaysAlive(job: Job, plan: Plan, x: Exec, i: nat, prior: StepStatus, observed: PortalState,
                           desired: PortalState)
    requires Alive(plan) && i < |x.steps|
    ensures !ApplyRecorded(job, plan, x, i, prior, observed, desired).1.Died?
  {
  }

  lemma ObservedStaysAlive(job: Job, plan: Plan, x: Exec, i: nat, prior: StepStatus, observed: PortalState)
    requires Alive(plan) && i < |x.steps|
    ensures !ApplyObserved(job, plan, x, i, prior, observed).1.Died?
  {
    var step := x.steps[i];
    var desired := if step.before.Some? && step.desired.Some? then step.desired
                   else DesiredState(job, step.portal, observed);
    if desired.Some? {
      var before := if step.before.None? then observed else step.before.value;
      var x1 := x.(steps := x.steps[i := step.(before := Some(before), desired := desired)]);
      RecordedStaysAlive(job, plan, Checkpoint(plan, x1, ApplyPhase).0, i, prior, observed, desired.value);
    }
  }

  lemma StepStaysAlive(job: Job, plan: Plan, x: Exec, i: nat)
    requires Alive(plan) && i < |x.steps|
    ensures !ApplyStep(job, plan, x, i).1.Died?
  {
    var (x1, observed) :=
        Invoke(job, plan, SetStatus(x, i, Running), ApplyPhase, x.steps[i].portal, Inspect);
    if observed.Done? {
      ObservedStaysAlive(job, plan, x1, i, x.steps[i].status, observed.value);
    }
  }

  lemma {:induction false} ForwardStaysAlive(job: Job, plan: Plan, x: Exec, i: nat)
    requires Alive(plan) && i <= |x.steps|
    ensures !RunForward(job, plan, x, i).1.Lost?
    decreases |x.steps| - i
  {
    if i < |x.steps| {
      var x0 := Checkpoint(plan, x, ApplyPhase).0;
      var (x1, signal) := ApplyStep(job, plan, x0, i);
      StepStaysAlive(job, plan, x0, i);
      if signal.Done? {
        ForwardStaysAlive(job, plan, x1, i + 1);
        assert RunForward(job, plan, x, i) == RunForward(job, plan, x1, i + 1);
      } else {
        assert Checkpoint(plan, x1, ApplyPhase).1.Done?;
      }
    }
  }

  lemma {:induction false} UndoStaysAlive(job: Job, plan: Plan, x: Exec, n: nat)
    requires Alive(plan) && n <= |x.steps|
    ensures !Compensate(job, plan, x, n).1.Died?
    decreases n
  {
    if n > 0 {
      if x.steps[n - 1].before.None? || x.steps[n - 1].desired.None? {
        UndoStaysAlive(job, plan, x, n - 1);
      } else {
        UndoStaysAlive(job, plan, CompensateStep(job, plan, x, n - 1).0, n - 1);
      }
    }
  }

  /** An execution whose worker does not die comes to a verdict; without a session it fails at once, and changes
      nothing. */
  lemma AliveComesToVerdict(job: Job, plan: Plan, session: bool, x: Exec)
    requires Alive(plan)
    ensures Execute(job, plan, session, x).1 != WorkerLost
    ensures !session ==>
              && Execute(job, plan, session, x).0 == x && Execute(job, plan, session, x).1.Failure?
              && Execute(job, plan, session, x).1.code == SessionUnavailable
  {
    if session {
      ForwardStaysAlive(job, plan, x, 0);
      var (x1, forward) := RunForward(job, plan, x, 0);
      if forward.FailedAt? {
        UndoStaysAlive(job, plan, x1, forward.index + 1);
      }
    }
  }

  // ----- What is desired of a portal -----

  /** The assignees to give back exist exactly when the open tasks of the snapshot can be told apart. */
  lemma {:induction false} RestoreAssigneesExact(tasks: seq<TaskView>)
    ensures RestoreAssignees(tasks).Some? <==>
              && (forall t <- tasks :: t.isOpen ==> t.reference != "")
              && (forall i, j :: 0 <= i < j < |tasks| && tasks[i].isOpen && tasks[j].isOpen ==>
                    tasks[i].reference != tasks[j].reference)
    ensures RestoreAssignees(tasks).Some? ==>
              var back := RestoreAssignees(tasks).value;
              && (forall t <- tasks :: t.isOpen ==> t.reference in back && back[t.reference] == t.assignee)
              && (forall r <- back :: exists t <- tasks :: t.isOpen && t.reference == r)
    decreases |tasks|
  {
    if tasks != [] {
      var init, t := tasks[..|tasks| - 1], tasks[|tasks| - 1];
      RestoreAssigneesExact(init);
      assert tasks == init + [t];
      if RestoreAssignees(init).Some? && t.isOpen {
        ReferenceIsTaken(init, t, RestoreAssignees(init).value);
      }
      if RestoreAssignees(tasks).Some? {
        BackOfMore(init, t, RestoreAssignees(init).value, RestoreAssignees(tasks).value);
      }
    }
  }

  lemma ReferenceIsTaken(init: seq<TaskView>, t: TaskView, back: map<string, string>)
    requires (forall u <- init :: u.isOpen ==> u.reference in back) &&
             (forall r <- back :: exists u <- init :: u.isOpen && u.reference == r)
    ensures t.reference in back <==> exists i :: 0 <= i < |init| && init[i].isOpen && init[i].reference == t.reference
  {
    if t.reference in back {
      var u :| u in init && u.isOpen && u.reference == t.reference;
      var i :| 0 <= i < |init| && init[i] == u;
    }
  }

  lemma BackOfMore(init: seq<TaskView>, t: TaskView, back: map<string, string>, back': map<string, string>)
    requires (forall u <- init :: u.isOpen ==> u.reference in back && back[u.reference] == u.assignee)
    requires forall r <- back :: exists u <- init :: u.isOpen && u.reference == r
    requires back' == (if t.isOpen then back[t.reference := t.assignee] else back) &&
             (t.isOpen ==> t.reference !in back)
    ensures forall u <- init + [t] :: u.isOpen ==> u.reference in back' && back'[u.reference] == u.assignee
    ensures forall r <- back' :: exists u <- init + [t] :: u.isOpen && u.reference == r
  {
    forall r | r in back'
      ensures exists u <- init + [t] :: u.isOpen && u.reference == r
    {
      if r in back {
        var u :| u in init && u.isOpen && u.reference == r;
        assert u in init + [t];
      } else {
        assert t in init + [t];
      }
    }
  }

  /** Task `u` of the snapshot was open, and is the one that `t` is now. */
  predicate Remembers(u: TaskView, t: TaskView) {
    u.isOpen && u.reference == t.reference
  }

  /** The tasks can be given back: nobody lost, hid, reassigned or marked one behind the program's back. */
  ghost predicate CanGiveBack(snapshot: seq<TaskView>, tasks: seq<TaskView>) {
    && (forall i, j :: 0 <= i < j < |snapshot| && snapshot[i].isOpen && snapshot[j].isOpen ==>
          snapshot[i].reference != snapshot[j].reference)
    && (forall u <- snapshot :: u.isOpen ==> u.reference != "" && exists t <- tasks :: t.reference == u.reference)
    && (forall i, j :: 0 <= i < j < |tasks| ==> tasks[i].reference != tasks[j].reference)
    && (forall t <- tasks :: t.reference != "")
    && (forall t <- tasks :: t.assignee == "BLOQUEADO_INADIMPLENCIA" ==> exists u <- snapshot :: Remembers(u, t))
    && (forall t <- tasks, u <- snapshot :: Remembers(u, t) ==>
          t.assignee == "BLOQUEADO_INADIMPLENCIA" || t.assignee == u.assignee)
  }

  /** What an unblock wants of the tasks portal, and when it refuses. */
  lemma UnblockDesireMeans(snapshot: seq<TaskView>, tasks: seq<TaskView>)
    ensures var desired := TaskUnblockState(Some(TaskList(true, snapshot)), TaskList(true, tasks));
            && (desired.Some? <==> CanGiveBack(snapshot, tasks))
            && (desired.Some? ==>
                  && desired.value.TaskList? && desired.value.clientActive && |desired.value.tasks| == |tasks|
                  && forall i, u :: 0 <= i < |tasks| && u in snapshot && Remembers(u, tasks[i]) ==>
                       desired.value.tasks[i] == tasks[i].(assignee := u.assignee))
            && (desired.Some? ==>
                  forall i :: 0 <= i < |tasks| && (forall u <- snapshot :: !Remembers(u, tasks[i])) ==>
                    desired.value.tasks[i] == tasks[i])
  {
    RestoreAssigneesExact(snapshot);
    if RestoreAssignees(snapshot).Some? {
      var back := RestoreAssignees(snapshot).value;
      CanRestoreMeans(snapshot, tasks, back);
    }
  }

  lemma CanRestoreMeans(snapshot: seq<TaskView>, tasks: seq<TaskView>, back: map<string, string>)
    requires (forall u <- snapshot :: u.isOpen ==> u.reference in back && back[u.reference] == u.assignee)
    requires forall r <- back :: exists u <- snapshot :: u.isOpen && u.reference == r
    requires (forall u <- snapshot :: u.isOpen ==> u.reference != "")
    requires forall i, j :: 0 <= i < j < |snapshot| && snapshot[i].isOpen && snapshot[j].isOpen ==>
               snapshot[i].reference != snapshot[j].reference
    ensures CanRestore(tasks, back) <==> CanGiveBack(snapshot, tasks)
  {
    forall t | t in tasks
      ensures t.reference in back <==> exists u <- snapshot :: Remembers(u, t)
    {
      if t.reference in back {
        var u :| u in snapshot && u.isOpen && u.reference == t.reference;
        assert Remembers(u, t);
      }
    }
    if CanGiveBack(snapshot, tasks) {
      forall r | r in back
        ensures exists t <- tasks :: t.reference == r
      {
        var u :| u in snapshot && u.isOpen && u.reference == r;
      }
      forall t | t in tasks && t.reference in back
        ensures t.assignee == BLOCKED_TASK_OWNER || t.assignee == back[t.reference]
      {
        var u :| u in snapshot && Remembers(u, t);
      }
    }
    if CanRestore(tasks, back) {
      forall t, u | t in tasks && u in snapshot && Remembers(u, t)
        ensures t.assignee == BLOCKED_TASK_OWNER || t.assignee == u.assignee
      {
        assert t.reference in back;
      }
    }
  }

  /** Without an active client or a snapshot nothing can be given back. */
  lemma NoDesireWithoutClient(snapshot: Option<PortalState>, observed: PortalState)
    requires snapshot.None? || !snapshot.value.TaskList? || !snapshot.value.clientActive
             || !observed.TaskList? || !observed.clientActive
    ensures TaskUnblockState(snapshot, observed).None?
  {
  }

  /** What a block wants: both accounts blocked, every open task marked, the closed ones left alone; and it wants
      nothing of the tasks of an inactive client. */
  lemma BlockDesireMeans(job: Job, p: Portal, observed: PortalState)
    requires job.action == Block
    ensures var desired := DesiredState(job, p, observed);
            && (p != Tasks ==> desired == Some(Account(true)))
            && (p == Tasks ==> (desired.Some? <==> observed.TaskList? && observed.clientActive))
            && (p == Tasks && desired.Some? ==>
                  && desired.value.TaskList? && desired.value.clientActive && |desired.value.tasks| == |observed.tasks|
                  && forall i :: 0 <= i < |observed.tasks| ==>
                       desired.value.tasks[i] == if observed.tasks[i].isOpen
                                                 then observed.tasks[i].(assignee := "BLOQUEADO_INADIMPLENCIA")
                                                 else observed.tasks[i])
  {
  }

  /** What an unblock wants of an account: what its own portal showed before the latest block that succeeded. */
  lemma AccountDesireMeans(history: seq<Operation>, operation: Operation, client: Client, p: Portal,
                           observed: PortalState)
    requires operation.action == Unblock && p != Tasks
    ensures var desired := DesiredState(JobOf(history, operation, client), p, observed);
            desired.Some? ==>
              exists k ::
                && IsLatestBlock(history, k) && StepFor(history[k].steps, p).Some?
                && StepFor(history[k].steps, p).value.before == desired
    ensures forall k :: IsLatestBlock(history, k) && StepFor(history[k].steps, p).Some? &&
                        StepFor(history[k].steps, p).value.before.Some? &&
                            StepFor(history[k].steps, p).value.before.value.Account? ==>
              DesiredState(JobOf(history, operation, client), p, observed) == StepFor(history[k].steps, p).value.before
  {
    LatestBlockExact(history, p);
  }

  predicate IsLatestBlock(history: seq<Operation>, k: int) {
    && 0 <= k < |history| && history[k].action == Block && history[k].status == Runs.Succeeded
    && forall j :: k < j < |history| ==> !(history[j].action == Block && history[j].status == Runs.Succeeded)
  }

  lemma {:induction false} LatestBlockExact(history: seq<Operation>, p: Portal)
    ensures PriorBlockState(history, p).Some? ==>
              exists k ::
                && IsLatestBlock(history, k) && StepFor(history[k].steps, p).Some?
                && StepFor(history[k].steps, p).value.before == PriorBlockState(history, p)
    ensures forall k :: IsLatestBlock(history, k) ==>
              PriorBlockState(history, p) ==
                if StepFor(history[k].steps, p).Some? then StepFor(history[k].steps, p).value.before else None
    decreases |history|
  {
    if history != [] {
      var n := |history| - 1;
      var init := history[..n];
      LatestBlockExact(init, p);
      if !(history[n].action == Block && history[n].status == Runs.Succeeded) {
        forall k
          ensures IsLatestBlock(history, k) <==> IsLatestBlock(init, k)
        {
        }
      } else {
        assert IsLatestBlock(history, n);
      }
    }
  }
}
