/** The worker that runs one delivery: loops over step rows that it updates in place, against portals that
    change under its calls. Each method is proved to do what the specification of the saga says. */
module Sc05Worker {
  import opened Options
  import opened Sc05Portals
  import opened Sc05Saga
  import opened Sc05Snapshots

  class Worker {
    const job: Job
    const plan: Plan
    const portals: Simulator
    const steps: array<Step>
    var tick: nat
    ghost var trace: seq<CallRecord>

    ghost function State(): Exec
      reads this, portals, steps
    {
      Exec(portals.Stored(), steps[..], tick, trace)
    }

    constructor (job: Job, plan: Plan, portals: Simulator, steps: array<Step>, ghost earlier: seq<CallRecord>)
      ensures this.job == job && this.plan == plan && this.portals == portals && this.steps == steps
      ensures State() == Exec(portals.Stored(), steps[..], 0, earlier)
    {
      this.job, this.plan, this.portals, this.steps := job, plan, portals, steps;
      tick, trace := 0, earlier;
    }

    method Invoke(phase: Phase, portal: Portal, request: Request) returns (signal: Signal<PortalState>)
      modifies this, portals
      ensures (State(), signal) == Sc05Saga.Invoke(job, plan, old(State()), phase, portal, request)
    {
      var now := plan(phase, tick);
      tick := tick + 1;
      portals.Edit(now.edit);
      if now.fault == DiedBefore {
        return Died;
      }
      var reply := None;
      if now.fault != Refused {
        reply := portals.Call(portal, request, job.scenario, phase);
      }
      trace := trace + [CallRecord(portal, request, reply)];
      if now.fault == DiedAfter {
        return Died;
      }
      if now.fault != Fine || reply.None? {
        return Raised(CallFailed);
      }
      return Done(reply.value);
    }

    method Checkpoint(phase: Phase) returns (signal: Signal<()>)
      modifies this, portals
      ensures (State(), signal) == Sc05Saga.Checkpoint(plan, old(State()), phase)
    {
      var now := plan(phase, tick);
      tick := tick + 1;
      portals.Edit(now.edit);
      signal := if now.fault == DiedBefore || now.fault == DiedAfter then Died else Done(());
    }

    method SetStatus(i: nat, status: StepStatus)
      requires i < steps.Length
      modifies steps
      ensures State() == Sc05Saga.SetStatus(old(State()), i, status)
    {
      steps[i] := steps[i].(status := status);
    }

    method ApplyStep(i: nat) returns (signal: Signal<()>)
      requires i < steps.Length
      modifies this, portals, steps
      ensures (State(), signal) == Sc05Saga.ApplyStep(job, plan, old(State()), i)
    {
      var prior := steps[i].status;
      var portal := steps[i].portal;
      SetStatus(i, Running);
      var observed := Invoke(ApplyPhase, portal, Inspect);
      if observed.Died? {
        return Died;
      }
      if observed.Raised? {
        return Raised(observed.code);
      }
      signal := ApplyObserved(i, prior, observed.value);
    }

    method ApplyObserved(i: nat, prior: StepStatus, observed: PortalState) returns (signal: Signal<()>)
      requires i < steps.Length
      modifies this, portals, steps
      ensures (State(), signal) == Sc05Saga.ApplyObserved(job, plan, old(State()), i, prior, observed)
    {
      var step := steps[i];
      var first := step.before.None?;
      if first {
        var invalid := InitialStateError(job, step.portal, observed);
        if invalid.Some? {
          return Raised(invalid.value);
        }
      }
      var desired := step.desired;
      if first || desired.None? {
        desired := DesiredState(job, step.portal, observed);
      }
      if desired.None? {
        return Raised(StateConflict);
      }
      var before := if first then observed else step.before.value;
      steps[i] := step.(before := Some(before), desired := desired);
      if !first && observed != before && observed != desired.value {
        return Raised(StateConflict);
      }
      var alive := Checkpoint(ApplyPhase);
      if alive.Died? {
        return Died;
      }
      signal := ApplyRecorded(i, prior, observed, desired.value);
    }

    method ApplyRecorded(i: nat, prior: StepStatus, observed: PortalState, desired: PortalState)
        returns (signal: Signal<()>)
      requires i < steps.Length
      modifies this, portals, steps
      ensures (State(), signal) == Sc05Saga.ApplyRecorded(job, plan, old(State()), i, prior, observed, desired)
    {
      if observed == desired {
        SetStatus(i, if prior == Applied || prior == CompensationFailed then Applied else Unchanged);
        return Done(());
      }
      var changed := Invoke(ApplyPhase, steps[i].portal, Apply(job.action));
      if changed.Died? {
        return Died;
      }
      if changed.Raised? {
        return Raised(changed.code);
      }
      if changed.value != desired {
        return Raised(StateConflict);
      }
      SetStatus(i, Applied);
      return Done(());
    }

    /** One turn of the main loop; None to go on with the next step. */
    method ForwardOne(i: nat) returns (stop: Option<Forward>)
      requires i < steps.Length
      modifies this, portals, steps
      ensures Sc05Saga.RunForward(job, plan, old(State()), i) ==
              if stop.Some? then (State(), stop.value) else Sc05Saga.RunForward(job, plan, State(), i + 1)
    {
      var current := Checkpoint(ApplyPhase);
      if current.Died? {
        return Some(Lost);
      }
      var signal := ApplyStep(i);
      if signal.Died? {
        return Some(Lost);
      }
      if signal.Done? {
        return None;
      }
      var alive := Checkpoint(ApplyPhase);
      if alive.Died? {
        return Some(Lost);
      }
      SetStatus(i, StepFailed);
      return Some(FailedAt(i, signal.code));
    }

    method RunForward() returns (forward: Forward)
      modifies this, portals, steps
      ensures (State(), forward) == Sc05Saga.RunForward(job, plan, old(State()), 0)
    {
      for i := 0 to steps.Length
        invariant Sc05Saga.RunForward(job, plan, State(), i) == Sc05Saga.RunForward(job, plan, old(State()), 0)
      {
        var stop := ForwardOne(i);
        if stop.Some? {
          return stop.value;
        }
      }
      return AllApplied;
    }

    method CompensateStep(i: nat) returns (signal: Signal<bool>)
      requires i < steps.Length && steps[i].before.Some? && steps[i].desired.Some?
      modifies this, portals, steps
      ensures (State(), signal) == Sc05Saga.CompensateStep(job, plan, old(State()), i)
    {
      var step := steps[i];
      var current := Invoke(CompensationPhase, step.portal, Inspect);
      if current.Died? {
        return Died;
      }
      if current.Done? && current.value == step.before.value {
        if step.status != StepFailed {
          SetStatus(i, Compensated);
        }
        return Done(true);
      }
      var undone := false;
      if current.Done? && current.value == step.desired.value {
        var restored := Invoke(CompensationPhase, step.portal, Restore(current.value, step.before.value));
        if restored.Died? {
          return Died;
        }
        undone := restored.Done? && restored.value == step.before.value;
      }
      SetStatus(i, if undone then Compensated else CompensationFailed);
      return Done(undone);
    }

    /** Last position first; true when every candidate could be undone. */
    method Compensate(failed: nat) returns (signal: Signal<bool>)
      requires failed < steps.Length
      modifies this, portals, steps
      ensures (State(), signal) == Sc05Saga.Compensate(job, plan, old(State()), failed + 1)
    {
      ghost var (final, outcome) := Sc05Saga.Compensate(job, plan, State(), failed + 1);
      var ok := true;
      for i := failed + 1 downto 0
        invariant i <= steps.Length
        invariant var (x, rest) := Sc05Saga.Compensate(job, plan, State(), i);
                  x == final && outcome == if rest.Died? then Died else Done(ok && rest.value)
      {
        if steps[i].before.None? || steps[i].desired.None? {
          continue;
        }
        var undone := CompensateStep(i);
        if undone.Died? {
          return Died;
        }
        ok := ok && undone.value;
      }
      return Done(ok);
    }

    method Execute(session: bool) returns (verdict: Verdict)
      modifies this, portals, steps
      ensures (State(), verdict) == Sc05Saga.Execute(job, plan, session, old(State()))
      ensures Shaped(job, old(steps[..])) && (forall i :: 0 <= i < 3 ==> Paired(old(steps[..])[i])) ==>
                AllKept(old(steps[..]), steps[..]) && Guarded(steps[..], trace, |old(trace)|)
    {
      if Shaped(job, steps[..]) && forall i :: 0 <= i < 3 ==> Paired(steps[i]) {
        ExecutionKeepsSnapshots(job, plan, session, State());
      }
      if !session {
        return Failure(SessionUnavailable, HasResidualState(steps[..]), 0);
      }
      var forward := RunForward();
      if forward.Lost? {
        return WorkerLost;
      }
      if forward.AllApplied? {
        var alive := Checkpoint(ApplyPhase);
        return if alive.Died? then WorkerLost else Success;
      }
      verdict := AfterFailure(forward.index, forward.code);
    }

    method AfterFailure(failed: nat, code: ErrorCode) returns (verdict: Verdict)
      requires failed < steps.Length
      modifies this, portals, steps
      ensures (State(), verdict) == Sc05Saga.AfterFailure(job, plan, old(State()), failed, code)
    {
      var undone := Compensate(failed);
      if undone.Died? {
        return WorkerLost;
      }
      var alive := Checkpoint(CompensationPhase);
      return if alive.Died? then WorkerLost else Failure(code, !undone.value, failed + 1);
    }
  }

  // ----- The desired state of an unblock, computed with dictionaries and edits in place -----

  method BuildRestoreAssignees(tasks: seq<TaskView>) returns (restore: Option<map<string, string>>)
    ensures restore == RestoreAssignees(tasks)
  {
    var found: map<string, string> := map[];
    for i := 0 to |tasks|
      invariant RestoreAssignees(tasks[..i]) == Some(found)
    {
      assert tasks[..i + 1][..i] == tasks[..i];
      if tasks[i].isOpen {
        if tasks[i].reference == "" || tasks[i].reference in found {
          NoneStays(tasks, i + 1);
          return None;
        }
        found := found[tasks[i].reference := tasks[i].assignee];
      }
    }
    assert tasks[..|tasks|] == tasks;
    return Some(found);
  }

  lemma {:induction false} NoneStays(tasks: seq<TaskView>, n: nat)
    requires n <= |tasks| && RestoreAssignees(tasks[..n]).None?
    ensures RestoreAssignees(tasks).None?
    decreases |tasks| - n
  {
    if n == |tasks| {
      assert tasks[..n] == tasks;
    } else {
      assert tasks[..n + 1][..n] == tasks[..n];
      NoneStays(tasks, n + 1);
    }
  }

  /** `index` finds each reference of the first `n` tasks. */
  predicate Indexes(tasks: seq<TaskView>, n: nat, index: map<string, nat>) {
    && n <= |tasks|
    && (forall r <- index :: index[r] < n && tasks[index[r]].reference == r)
    && (forall i :: 0 <= i < n ==> tasks[i].reference in index && index[tasks[i].reference] == i)
  }

  method IndexTasks(tasks: seq<TaskView>) returns (index: Option<map<string, nat>>)
    ensures index.Some? ==> Indexes(tasks, |tasks|, index.value)
    ensures index.Some? <==> UniqueReferences(tasks) && forall t <- tasks :: t.reference != ""
  {
    var found: map<string, nat> := map[];
    for i := 0 to |tasks|
      invariant Indexes(tasks, i, found)
      invariant forall j :: 0 <= j < i ==> tasks[j].reference != ""
    {
      if tasks[i].reference == "" || tasks[i].reference in found {
        assert tasks[i] in tasks;
        return None;
      }
      found := found[tasks[i].reference := i];
    }
    return Some(found);
  }

  /** Give back one dictionary entry at a time, in any order, editing a copy of the task list. */
  method GiveBack(tasks: seq<TaskView>, index: map<string, nat>, restore: map<string, string>)
      returns (desired: Option<seq<TaskView>>)
    requires Indexes(tasks, |tasks|, index)
    ensures desired.Some? <==>
      forall r <- restore :: r in index &&
          (tasks[index[r]].assignee == BLOCKED_TASK_OWNER || tasks[index[r]].assignee == restore[r])
    ensures desired.Some? ==> desired.value == Restored(tasks, restore)
  {
    var copy := new TaskView[|tasks|](i requires 0 <= i < |tasks| => tasks[i]);
    var left := restore.Keys;
    while left != {}
      invariant left <= restore.Keys
      invariant forall r <- restore :: r !in left ==>
        r in index && (tasks[index[r]].assignee == BLOCKED_TASK_OWNER || tasks[index[r]].assignee == restore[r])
      invariant forall i :: 0 <= i < |tasks| ==>
        copy[i] == if tasks[i].reference in restore && tasks[i].reference !in left
                   then tasks[i].(assignee := restore[tasks[i].reference]) else tasks[i]
      decreases |left|
    {
      var r :| r in left;
      if r !in index {
        return None;
      }
      var current := copy[index[r]];
      if current.assignee != BLOCKED_TASK_OWNER && current.assignee != restore[r] {
        return None;
      }
      copy[index[r]] := current.(assignee := restore[r]);
      left := left - {r};
    }
    assert copy[..] == Restored(tasks, restore);
    return Some(copy[..]);
  }

  method ComputeTaskUnblockState(snapshot: Option<PortalState>, observed: PortalState)
      returns (desired: Option<PortalState>)
    ensures desired == TaskUnblockState(snapshot, observed)
  {
    if snapshot.None? || !snapshot.value.TaskList? || !snapshot.value.clientActive
       || !observed.TaskList? || !observed.clientActive {
      return None;
    }
    var restore := BuildRestoreAssignees(snapshot.value.tasks);
    if restore.None? {
      return None;
    }
    var tasks := observed.tasks;
    var index := IndexTasks(tasks);
    if index.None? {
      return None;
    }
    if exists t <- tasks :: t.assignee == BLOCKED_TASK_OWNER && t.reference !in restore.value {
      return None;
    }
    var given := GiveBack(tasks, index.value, restore.value);
    CanRestoreByIndex(tasks, index.value, restore.value);
    if given.None? {
      return None;
    }
    return Some(TaskList(true, given.value));
  }

  lemma CanRestoreByIndex(tasks: seq<TaskView>, index: map<string, nat>, restore: map<string, string>)
    requires Indexes(tasks, |tasks|, index) && UniqueReferences(tasks)
    requires forall t <- tasks :: t.reference != "" && (t.assignee == BLOCKED_TASK_OWNER ==> t.reference in restore)
    ensures CanRestore(tasks, restore) <==>
      forall r <- restore :: r in index &&
          (tasks[index[r]].assignee == BLOCKED_TASK_OWNER || tasks[index[r]].assignee == restore[r])
  {
    if CanRestore(tasks, restore) {
      forall r | r in restore
        ensures r in index && (tasks[index[r]].assignee == BLOCKED_TASK_OWNER || tasks[index[r]].assignee == restore[r])
      {
        var t :| t in tasks && t.reference == r;
        var i :| 0 <= i < |tasks| && tasks[i] == t;
      }
    }
    forall r | r in restore && r in index
      ensures exists t <- tasks :: t.reference == r
    {
      assert tasks[index[r]] in tasks;
    }
  }
}
