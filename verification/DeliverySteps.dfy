/** Every step of the world is a step of at most one run, so what a run keeps, all runs keep. */
module DeliverySteps {
  import opened Options
  import opened RunLog
  import opened DeliveryRuns
  import opened DeliveryHistories
  import opened DeliveryBounds
  import opened DeliveryWorld

  // ----- Every step of the world is a step of at most one run -----

  function RunEffect(w: World, step: Step): Option<(nat, RunStep)> {
    match step
    case Dispatch(p, r, resumed) =>
      if r in w.runs && p !in w.publications && (resumed ==> w.runs[r].resumes > 0) &&
          DispatchBegin(w.runs[r], w.next).Claimed?
      then Some((r, DoDispatch(w.next))) else None
    case NotePublication(p) =>
      if p in w.publications && w.publications[p].run in w.runs &&
          (w.publications[p].state == Sent || w.publications[p].state == Broken)
      then Some((w.publications[p].run, PublicationEffect(w.publications[p]))) else None
    case Deliver(id, r, t, redelivered) =>
      if id !in w.workers && r in w.runs && w.runs[r].code != SC04 && Message(r, t) in w.messages
          then Some((r, DoDeliver(t, redelivered))) else None
    case Reconcile(p, r) =>
      if r in w.runs && p !in w.publications then Some((r, DoReconcile(w.next, IsAmbiguous(w, r), false))) else None
    case Resume(r) =>
      if r in w.runs && ResumeStep(w, r) != w then Some((r, DoResume(w.next))) else None
    case Reschedule(r) =>
      if r in w.runs && w.runs[r].code == SC20 then Some((r, DoReschedule(w.next))) else None
    case _ => if WorkerEffect(w, step).Some? then WorkerEffect(w, step) else None
  }

  /** The guarded transactions of a worker. */
  function WorkerEffect(w: World, step: Step): Option<(nat, RunStep)> {
    match step
    case Prepare(id, a) =>
      if WorkerIsKnown(w, id) && w.workers[id].phase == Working && a !in w.attempts
          then Some((w.workers[id].run, DoStartAttempt(w.workers[id].token, a))) else None
    case Conclude(id, ok) =>
      if WorkerIsKnown(w, id) && w.workers[id].phase == Called && w.workers[id].attempt in w.attempts
      then Some((w.workers[id].run, DoFinishAttempt(w.workers[id].token, w.workers[id].attempt, ok))) else None
    case Finish(id, outcome) =>
      if WorkerIsKnown(w, id) && (w.workers[id].phase == Working || w.workers[id].phase == Called)
         && !(w.runs[w.workers[id].run].code == SC05 && outcome == Warnings)
      then Some((w.workers[id].run, DoFinish(w.workers[id].token, FinalStatus(outcome)))) else None
    case _ => None
  }

  /** The run that a step creates. */
  function NewlyCreated(w: World, step: Step): Option<(nat, Run)> {
    match step
    case CreateRpa(r, c, action) => if CreateRpaStep(w, r, c, action) != w then Some((r, NewRun(SC05, w.next, false)))
        else None
    case CreateScan(r, scheduled) => if r !in w.runs then Some((r, NewRun(SC20, w.next, scheduled))) else None
    case _ => None
  }

  predicate RunOk(run: Run, next: Token, max: nat) {
    Sound(run, next) && Bounded(run, max) && StartsCounted(run)
  }

  predicate RunsOk(w: World) {
    && w.max >= 1
    && forall r <- w.runs :: RunOk(w.runs[r], w.next, w.max)
  }

  /** What a step may do to the rows of the runs. */
  predicate RunsFollow(w: World, after: World, created: Option<(nat, Run)>, effect: Option<(nat, RunStep)>) {
    && after.max == w.max && w.next <= after.next
    && match (created, effect)
       case (Some(c), _) => c.0 !in w.runs && after.runs == w.runs[c.0 := c.1] && after.next == w.next + 1
       case (None, Some(e)) =>
         && e.0 in w.runs && after.runs == w.runs[e.0 := Apply(w.runs[e.0], e.1, w.max)]
         && (after.next >= NextToken(e.1, w.next) || after.runs == w.runs)
       case _ => after.runs == w.runs
  }

  lemma PutSame(w: World, r: nat)
    requires r in w.runs
    ensures w.runs[r := w.runs[r]] == w.runs
  {
  }

  lemma IsolateKeepsRuns(w: World, r: nat)
    requires r in w.runs
    ensures var after := IsolateRun(w, r);
            after.runs == w.runs && after.next == w.next && after.max == w.max && after.workers == w.workers
            && after.publications == w.publications && after.messages == w.messages && after.operations == w.operations
  {
  }

  lemma WebFollows(w: World, step: Step)
    requires step.AddClient? || step.CreateRpa? || step.CreateScan? || step.Reschedule? || step.Resume?
    ensures RunsFollow(w, Next(w, step), NewlyCreated(w, step), RunEffect(w, step))
  {
  }

  lemma DispatchFollows(w: World, step: Step)
    requires step.Dispatch? || step.Publish? || step.NotePublication?
    ensures RunsFollow(w, Next(w, step), None, RunEffect(w, step))
  {
  }

  lemma DeliverFollows(w: World, step: Step)
    requires step.Deliver?
    ensures RunsFollow(w, Next(w, step), None, RunEffect(w, step))
  {
    if RunEffect(w, step).Some? {
      IsolateKeepsRuns(Put(w, step.run, DoDeliver(step.token, step.redelivered)), step.run);
    }
  }

  lemma ReconcileFollows(w: World, step: Step)
    requires step.Reconcile?
    ensures RunsFollow(w, Next(w, step), None, RunEffect(w, step))
  {
    if RunEffect(w, step).Some? {
      PutSame(w, step.run);
      IsolateKeepsRuns(Put(w, step.run, DoReconcile(w.next, IsAmbiguous(w, step.run), false)), step.run);
    }
  }

  lemma FinishFollows(w: World, step: Step)
    requires step.Finish?
    ensures RunsFollow(w, Next(w, step), None, RunEffect(w, step))
  {
    if WorkerIsKnown(w, step.worker) {
      PutSame(w, w.workers[step.worker].run);
    }
  }

  lemma AttemptFollows(w: World, step: Step)
    requires step.Prepare? || step.Call? || step.Conclude?
    ensures RunsFollow(w, Next(w, step), None, RunEffect(w, step))
  {
    if WorkerIsKnown(w, step.worker) {
      PutSame(w, w.workers[step.worker].run);
    }
  }

  lemma StepFollows(w: World, step: Step)
    ensures RunsFollow(w, Next(w, step), NewlyCreated(w, step), RunEffect(w, step))
  {
    match step
    case Dispatch(_, _, _) => DispatchFollows(w, step);
    case Publish(_, _, _) => DispatchFollows(w, step);
    case NotePublication(_) => DispatchFollows(w, step);
    case Deliver(_, _, _, _) => DeliverFollows(w, step);
    case Reconcile(_, _) => ReconcileFollows(w, step);
    case Prepare(_, _) => AttemptFollows(w, step);
    case Call(_) => AttemptFollows(w, step);
    case Conclude(_, _) => AttemptFollows(w, step);
    case Finish(_, _) => FinishFollows(w, step);
    case _ => WebFollows(w, step);
  }

  lemma EffectEnabled(w: World, step: Step)
    requires RunsOk(w) && RunEffect(w, step).Some?
    ensures var (r, s) := RunEffect(w, step).value; r in w.runs && Enabled(w.runs[r], w.next, s)
  {
    if step.Resume? {
      ResumeEnabled(w, step.run);
    } else if WorkerEffect(w, step).Some? {
      WorkerEnabled(w, step);
    }
  }

  lemma ResumeEnabled(w: World, r: nat)
    requires r in w.runs && ResumeStep(w, r) != w
    ensures w.runs[r].code == SC05
  {
  }

  lemma WorkerEnabled(w: World, step: Step)
    requires RunsOk(w) && WorkerEffect(w, step).Some?
    ensures var (r, s) := WorkerEffect(w, step).value; r in w.runs && Enabled(w.runs[r], w.next, s)
  {
  }

  lemma NewRunOk(code: Module, token: Token, scheduled: bool, max: nat)
    requires code != SC04
    ensures RunOk(NewRun(code, token, scheduled), token + 1, max)
  {
    NewRunSound(code, token, scheduled);
    var log := FirstEvents(token, scheduled);
    assert log[..1] == [log[0]] && log[..1][..0] == [];
    assert Starts([]) == 0 && Starts([log[0]]) == 0 && Starts(log) == 0;
  }

  lemma ApplyOk(run: Run, step: RunStep, next: Token, max: nat, later: Token)
    requires RunOk(run, next, max) && max >= 1 && Enabled(run, next, step) && later >= NextToken(step, next)
    ensures RunOk(Apply(run, step, max), later, max)
  {
    ApplySound(run, step, next, max);
    SoundGrows(Apply(run, step, max), NextToken(step, next), later);
    ApplyBounded(run, step, next, max);
    ApplyCounted(run, step, next, max);
  }

  lemma OtherRunsOk(w: World, after: World, r: nat)
    requires RunsOk(w) && r in w.runs && w.next <= after.next && after.max == w.max
    ensures RunOk(w.runs[r], after.next, after.max)
  {
    SoundGrows(w.runs[r], w.next, after.next);
  }

  lemma CreatedOk(w: World, step: Step)
    requires NewlyCreated(w, step).Some?
    ensures RunOk(NewlyCreated(w, step).value.1, w.next + 1, w.max)
  {
    match step
    case CreateRpa(_, _, _) => NewRunOk(SC05, w.next, false, w.max);
    case CreateScan(_, scheduled) => NewRunOk(SC20, w.next, scheduled, w.max);
    case _ =>
  }

  lemma FollowsOk(w: World, after: World, created: Option<(nat, Run)>, effect: Option<(nat, RunStep)>, r: nat)
    requires RunsOk(w) && RunsFollow(w, after, created, effect) && r in after.runs
    requires created.Some? ==> RunOk(created.value.1, w.next + 1, w.max)
    requires effect.Some? ==> effect.value.0 in w.runs && Enabled(w.runs[effect.value.0], w.next, effect.value.1)
    ensures RunOk(after.runs[r], after.next, after.max)
  {
    if r in w.runs && after.runs[r] == w.runs[r] {
      OtherRunsOk(w, after, r);
    } else if created.None? {
      ApplyOk(w.runs[r], effect.value.1, w.next, w.max, after.next);
    }
  }

  lemma NextRunsOk(w: World, step: Step)
    requires RunsOk(w)
    ensures RunsOk(Next(w, step))
  {
    StepFollows(w, step);
    var after := Next(w, step);
    if NewlyCreated(w, step).Some? {
      CreatedOk(w, step);
    }
    if RunEffect(w, step).Some? {
      EffectEnabled(w, step);
    }
    forall r | r in after.runs
      ensures RunOk(after.runs[r], after.next, after.max)
    {
      FollowsOk(w, after, NewlyCreated(w, step), RunEffect(w, step), r);
    }
  }

  lemma {:induction false} ExecutionRunsOk(w: World, steps: seq<Step>)
    requires RunsOk(w)
    ensures RunsOk(Execution(w, steps)) && Execution(w, steps).max == w.max
    decreases |steps|
  {
    if steps != [] {
      ExecutionRunsOk(w, steps[..|steps| - 1]);
      NextRunsOk(Execution(w, steps[..|steps| - 1]), steps[|steps| - 1]);
      StepFollows(Execution(w, steps[..|steps| - 1]), steps[|steps| - 1]);
    }
  }

  /** In every reachable state of web, broker, workers and reconciler, each run's log accounts for its row, its
      recoveries are within bounds, and it was executed no more often than it was queued by a person. */
  lemma ReachableRunsAreAccounted(max: nat, steps: seq<Step>, r: nat)
    requires max >= 1 && r in Execution(Initial(max), steps).runs
    ensures var run := Execution(Initial(max), steps).runs[r];
            && Replay(run.log) == Some(run.status) && Chained(run.log) && Sequenced(run.log) && KeysOnce(run.log)
            && run.attempts <= max + 1 && (IsActive(run.status) ==> run.attempts <= max)
            && (run.code == SC20 ==> Starts(run.log) <= 1) && (run.code == SC05 ==> Starts(run.log) <= run.resumes + 1)
  {
    ExecutionRunsOk(Initial(max), steps);
    var w := Execution(Initial(max), steps);
    assert RunOk(w.runs[r], w.next, w.max);
  }
}
