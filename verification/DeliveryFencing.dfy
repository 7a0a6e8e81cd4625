/** Fencing: once a run's token has moved on, its old worker changes nothing any more. */
module DeliveryFencing {
  import opened Options
  import opened RunLog
  import opened DeliveryRuns
  import opened DeliveryHistories
  import opened DeliveryWorld
  import opened DeliverySteps
  import R = Runs

  // ----- Tokens only move forward, logs only grow -----

  predicate Extends(before: seq<Event<Key>>, after: seq<Event<Key>>) {
    after == before || (|after| == |before| + 1 && after[..|before|] == before)
  }

  /** The token is kept, dropped, or replaced by one that was never used. */
  predicate MovesOn(before: Option<Token>, after: Option<Token>, next: Token) {
    after == before || (after.Some? ==> after.value >= next)
  }

  lemma NoteFacts(row: Run, key: Key, previous: Option<RunStatus>, token: Option<Token>, attempt: Option<nat>,
                  facts: string)
    ensures var r := Note(row, key, previous, token, attempt, facts);
            r.Some? ==> Extends(row.log, r.value.log) && r.value.token == row.token && HasKey(r.value.log, key)
  {
    var content := Content(previous, Some(row.status), token, attempt, facts);
    if !HasKey(row.log, key) {
      Snoc(row.log, Event(LatestSequence(row.log) + 1, key, content, NO_CONTEXT, 0));
    }
  }

  predicate RunMoves(run: Run, after: Run, next: Token) {
    Extends(run.log, after.log) && MovesOn(run.token, after.token, next)
  }

  lemma DispatchMoves(run: Run, step: RunStep, next: Token, max: nat)
    requires Sound(run, next) && Enabled(run, next, step)
    requires step.DoDispatch? || step.DoDispatchFailure? || step.DoDispatchSuccess? || step.DoPublishFailure?
    ensures RunMoves(run, Apply(run, step, max), next)
  {
    match step
    case DoDispatch(t) =>
      var token := run.token.GetOr(t);
      NoteFacts(run.(token := Some(token), dispatchStarted := true), DispatchStarted(token), Some(R.Queued),
                Some(token), None, "started");
    case DoDispatchFailure(t, s) =>
      NoteFacts(run.(status := s, dispatchError := true), DispatchFailed(t), Some(R.Queued), Some(t), None, "failed");
    case DoDispatchSuccess(t) => NoteFacts(run.(published := true), BrokerPublished(t), None, Some(t), None,
                                           "published");
    case DoPublishFailure(t) => NoteFacts(run, PublishFailed(t), None, Some(t), Some(run.attempts), "publish_failed");
    case _ =>
  }

  lemma WorkerMoves(run: Run, step: RunStep, next: Token, max: nat)
    requires Enabled(run, next, step) && (step.DoStartAttempt? || step.DoFinishAttempt? || step.DoFinish?)
    ensures RunMoves(run, Apply(run, step, max), next)
  {
    match step
    case DoStartAttempt(t, id) => NoteFacts(run, AttemptStarted(id), None, Some(t), Some(id), "started");
    case DoFinishAttempt(t, id, ok) => NoteFacts(run, AttemptFinished(id), None, Some(t), Some(id),
                                                 if ok then "succeeded" else "failed");
    case DoFinish(t, s) => NoteFacts(run.(status := s), Terminal(t, s), Some(R.Running), Some(t), None, "finished");
    case _ =>
  }

  lemma QuarantineMoves(run: Run, byWorker: bool)
    ensures var r := Quarantine(run, byWorker); r.Some? ==> Extends(run.log, r.value.log) && r.value.token.None?
  {
    var isolated := run.(attempts := run.attempts + 1, token := None, status := R.PartiallyFailed);
    NoteFacts(isolated, Quarantined(run.token, byWorker), Some(run.status), run.token, Some(isolated.attempts),
              "quarantined");
  }

  lemma IgnoreMoves(run: Run, key: Key, token: Option<Token>, facts: string)
    ensures var start := Ignore(run, key, token, facts);
            !start.Execute? && Extends(run.log, StartedRun(start, run).log) && StartedRun(start, run).token == run.token
  {
    NoteFacts(run, key, None, token, None, facts);
  }

  /** A delivery executes only if its token was never started before. */
  lemma DeliverMoves(run: Run, token: Token, redelivered: bool, next: Token)
    requires Sound(run, next)
    ensures var start := StartExternal(run, token, redelivered);
            && RunMoves(run, StartedRun(start, run), next)
            && (start.Execute? ==>
                token < next && !HasKey(run.log, Started(token)) && HasKey(start.run.log, Started(token)))
  {
    if !DeliveryMatches(run, token) {
      IgnoreMoves(run, IgnoredSuperseded(token), Some(token), "superseded");
    } else if !IsActive(run.status) {
      IgnoreMoves(run, IgnoredTerminal(token, if run.code == SC05 then Some(run.status) else None), Some(token),
                  "terminal");
    } else {
      NoTokenNoMatch(run, next, token);
      var bound := BindDelivery(run, token).(dispatchStarted := true, published := true);
      if run.status == R.Queued {
        NoteFacts(bound.(status := R.Running, started := true), Started(token), Some(R.Queued), Some(token), None,
                  "started");
      } else if redelivered {
        QuarantineMoves(bound, true);
      } else {
        IgnoreMoves(run, IgnoredRunning(token), Some(token), "already_running");
      }
    }
  }

  lemma ClaimMoves(run: Run, newToken: Token)
    ensures var r := ClaimRecovery(run, newToken);
            r.Requeued? ==> Extends(run.log, r.run.log) && r.run.token == Some(newToken)
  {
    var queued := run.(status := R.Queued, token := Some(newToken), dispatchStarted := true, published := false,
                       attempts := run.attempts + 1);
    NoteFacts(queued, RecoveryClaimed(newToken), Some(run.status), Some(newToken), Some(queued.attempts), "requeued");
  }

  lemma FenceMoves(run: Run)
    ensures var r := Fence(run); r.Fails? ==> Extends(run.log, r.run.log) && r.run.token.None?
  {
    NoteFacts(run.(token := None, status := R.Failed), Fenced(run.token), Some(run.status), run.token,
              Some(run.attempts), "failed");
  }

  lemma ReconcileMoves(run: Run, newToken: Token, ambiguous: bool, newItems: bool, next: Token, max: nat)
    requires newToken >= next
    ensures RunMoves(run, ReconciledRun(ReconcileRun(run, newToken, max, ambiguous, newItems), run), next)
  {
    ClaimMoves(run, newToken);
    FenceMoves(run);
    QuarantineMoves(run, false);
  }

  lemma RequeueMoves(run: Run, newToken: Token, next: Token)
    requires newToken >= next
    ensures RunMoves(run, ResumeRun(run, newToken).GetOr(run), next) &&
            RunMoves(run, RescheduleRun(run, newToken).GetOr(run), next)
  {
    var queued := run.(status := R.Queued, token := Some(newToken), dispatchStarted := false, published := false,
                       attempts := 0);
    NoteFacts(queued.(resumes := run.resumes + 1), Resumed(newToken), Some(R.PartiallyFailed), Some(newToken),
              Some(run.resumes + 1), "queued");
    NoteFacts(queued.(dispatchError := false), Rescheduled(newToken), Some(R.Failed), Some(newToken), None, "requeued");
  }

  lemma ApplyMoves(run: Run, step: RunStep, next: Token, max: nat)
    requires Sound(run, next) && Enabled(run, next, step)
    ensures RunMoves(run, Apply(run, step, max), next)
  {
    match step
    case DoDeliver(t, redelivered) => DeliverMoves(run, t, redelivered, next);
    case DoReconcile(t, ambiguous, newItems) => ReconcileMoves(run, t, ambiguous, newItems, next, max);
    case DoResume(t) => RequeueMoves(run, t, next);
    case DoReschedule(t) => RequeueMoves(run, t, next);
    case DoStartAttempt(_, _) => WorkerMoves(run, step, next, max);
    case DoFinishAttempt(_, _, _) => WorkerMoves(run, step, next, max);
    case DoFinish(_, _) => WorkerMoves(run, step, next, max);
    case DoUpload(_) =>
    case DoRecompute(_) =>
    case _ => DispatchMoves(run, step, next, max);
  }

  lemma StepMoves(w: World, step: Step, r: nat)
    requires RunsOk(w) && r in w.runs
    ensures var after := Next(w, step);
            r in after.runs && RunMoves(w.runs[r], after.runs[r], w.next) && w.next <= after.next
  {
    StepFollows(w, step);
    if NewlyCreated(w, step).None? && RunEffect(w, step).Some? && RunEffect(w, step).value.0 == r {
      EffectEnabled(w, step);
      ApplyMoves(w.runs[r], RunEffect(w, step).value.1, w.next, w.max);
    }
  }

  // ----- The fence -----

  /** The run still belongs to this worker. */
  predicate Holds(w: World, id: nat)
    requires WorkerIsKnown(w, id)
  {
    w.runs[w.workers[id].run].token == Some(w.workers[id].token)
  }

  predicate IsGuardedBy(step: Step, id: nat) {
    && (step.Prepare? || step.Conclude? || step.Finish?)
    && step.worker == id
  }

  /** Nobody else's token opens the guard: an active run always has a token. */
  lemma GuardNeedsToken(w: World, id: nat)
    requires RunsOk(w) && WorkerIsKnown(w, id) && !Holds(w, id)
    ensures !Guarded(w.runs[w.workers[id].run], w.workers[id].token)
  {
    var run := w.runs[w.workers[id].run];
    if run.status == R.Running {
      NoTokenNoMatch(run, w.next, w.workers[id].token);
    }
  }

  lemma UnguardedIsInert(w: World, id: nat, step: Step)
    requires WorkerIsKnown(w, id) && !Guarded(w.runs[w.workers[id].run], w.workers[id].token) && IsGuardedBy(step, id)
    ensures Next(w, step) == w || Next(w, step) == SetWorker(w, id, w.workers[id].(phase := Stopped))
  {
  }

  /** A guarded transaction of a worker whose token has moved on changes no run, no client and no attempt; it can
      only stop the worker. */
  lemma FencedTransaction(w: World, id: nat, step: Step)
    requires RunsOk(w) && WorkerIsKnown(w, id) && !Holds(w, id) && IsGuardedBy(step, id)
    ensures var after := Next(w, step);
            && after.runs == w.runs && after.clients == w.clients && after.attempts == w.attempts
            && (after == w || after == SetWorker(w, id, w.workers[id].(phase := Stopped)))
  {
    GuardNeedsToken(w, id);
    UnguardedIsInert(w, id, step);
  }

  // ----- Workers -----

  /** What is known of a worker: it has started its token, and called at most once after losing it. */
  predicate WorkerOk(w: World, id: nat)
    requires id in w.workers
  {
    var worker := w.workers[id];
    && worker.run in w.runs && worker.token < w.next
    && HasKey(w.runs[worker.run].log, Started(worker.token))
    && worker.lateCalls <= 1
    && (worker.lateCalls == 1 ==> (worker.phase == Called || worker.phase == Stopped) && !Holds(w, id))
  }

  predicate OneWorkerPerToken(w: World) {
    forall i <- w.workers, j <- w.workers :: i != j && w.workers[i].run == w.workers[j].run ==>
        w.workers[i].token != w.workers[j].token
  }

  predicate WorkersOk(w: World) {
    RunsOk(w) && OneWorkerPerToken(w) && forall id <- w.workers :: WorkerOk(w, id)
  }

  /** What a step does to the workers. */
  predicate WorkersFollow(w: World, after: World, step: Step) {
    && (forall id <- w.workers ::
          id in after.workers && after.workers[id].run == w.workers[id].run &&
          after.workers[id].token == w.workers[id].token)
    && (forall id <- w.workers :: after.workers[id] != w.workers[id] ==> ActsFor(step) == Some(id))
    && (forall id <- after.workers :: id !in w.workers ==>
          && step.Deliver? && step.worker == id && step.run in w.runs && w.runs[step.run].code != SC04
          && StartExternal(w.runs[step.run], step.token, step.redelivered).Execute?
          && after.workers[id] == Worker(step.run, step.token, Working, 0, 0, 0))
  }

  function ActsFor(step: Step): Option<nat> {
    match step
    case Prepare(id, _) => Some(id)
    case Call(id) => Some(id)
    case Conclude(id, _) => Some(id)
    case Finish(id, _) => Some(id)
    case _ => None
  }

  lemma WebWorkers(w: World, step: Step)
    requires ActsFor(step).None? && !step.Deliver?
    ensures Next(w, step).workers == w.workers
  {
    if step.Reconcile? && RunEffect(w, step).Some? {
      IsolateKeepsRuns(Put(w, step.run, DoReconcile(w.next, IsAmbiguous(w, step.run), false)), step.run);
    }
  }

  lemma DeliverWorkers(w: World, step: Step)
    requires step.Deliver?
    ensures WorkersFollow(w, Next(w, step), step)
  {
    if RunEffect(w, step).Some? {
      IsolateKeepsRuns(Put(w, step.run, DoDeliver(step.token, step.redelivered)), step.run);
    }
  }

  lemma OneWorkerSet(w: World, after: World, step: Step, id: nat)
    requires ActsFor(step) == Some(id) && id in w.workers && id in after.workers
    requires after.workers == w.workers[id := after.workers[id]]
    requires after.workers[id].run == w.workers[id].run && after.workers[id].token == w.workers[id].token
    ensures WorkersFollow(w, after, step)
  {
  }

  lemma OwnWorkers(w: World, step: Step, id: nat)
    requires ActsFor(step) == Some(id) && WorkerIsKnown(w, id)
    ensures var after := Next(w, step);
            && id in after.workers && after.workers == w.workers[id := after.workers[id]]
            && after.workers[id].run == w.workers[id].run && after.workers[id].token == w.workers[id].token
  {
    assert w.workers[id := w.workers[id]] == w.workers;
  }

  lemma StepWorkers(w: World, step: Step)
    ensures WorkersFollow(w, Next(w, step), step)
  {
    if ActsFor(step).Some? {
      if WorkerIsKnown(w, ActsFor(step).value) {
        OwnWorkers(w, step, ActsFor(step).value);
        OneWorkerSet(w, Next(w, step), step, ActsFor(step).value);
      }
    } else if step.Deliver? {
      DeliverWorkers(w, step);
    } else {
      WebWorkers(w, step);
    }
  }

  /** A worker's own step: only the call counts, and a call is late exactly when the token has moved on. */
  lemma OwnStep(w: World, step: Step, id: nat)
    requires ActsFor(step) == Some(id) && WorkerIsKnown(w, id)
    ensures var before, after := w.workers[id], Next(w, step).workers[id];
            if step.Call? && before.phase == Prepared then
              after == before.(phase := Called, calls := before.calls + 1,
                               lateCalls := before.lateCalls + (if Holds(w, id) then 0 else 1))
            else after.calls == before.calls && after.lateCalls == before.lateCalls
                 && (after != before ==> after.phase == Stopped || Guarded(w.runs[before.run], before.token))
                 && (before.phase == Stopped ==> after == before)
  {
  }

  lemma OffForGood(w: World, step: Step, id: nat)
    requires RunsOk(w) && WorkerIsKnown(w, id) && w.workers[id].token < w.next && !Holds(w, id)
    ensures WorkerIsKnown(Next(w, step), id) && !Holds(Next(w, step), id)
  {
    StepMoves(w, step, w.workers[id].run);
    StepWorkers(w, step);
  }

  /** What may become of a worker in one step. */
  predicate WorkerFollows(w: World, after: World, id: nat)
    requires WorkerIsKnown(w, id) && WorkerIsKnown(after, id)
  {
    var was, now := w.workers[id], after.workers[id];
    && now.run == was.run && now.token == was.token
    && (if now.calls == was.calls then
          now.lateCalls == was.lateCalls && (now == was || now.phase == Stopped || Holds(w, id))
        else
          && was.phase == Prepared && now.phase == Called && now.calls == was.calls + 1
          && now.lateCalls == was.lateCalls + (if Holds(w, id) then 0 else 1) && after.runs == w.runs)
  }

  lemma StepWorker(w: World, step: Step, id: nat)
    requires RunsOk(w) && WorkerIsKnown(w, id)
    ensures WorkerIsKnown(Next(w, step), id) && WorkerFollows(w, Next(w, step), id)
  {
    StepMoves(w, step, w.workers[id].run);
    StepWorkers(w, step);
    if ActsFor(step) == Some(id) {
      OwnStep(w, step, id);
      if !Holds(w, id) {
        GuardNeedsToken(w, id);
      }
      CallRuns(w, step);
    }
  }

  lemma CallRuns(w: World, step: Step)
    ensures step.Call? ==> Next(w, step).runs == w.runs
  {
  }

  lemma WorkerPersists(w: World, after: World, id: nat)
    requires id in w.workers && WorkerOk(w, id) && WorkerIsKnown(after, id) && WorkerFollows(w, after, id)
    requires w.workers[id].run in after.runs &&
             RunMoves(w.runs[w.workers[id].run], after.runs[w.workers[id].run], w.next) && w.next <= after.next
    ensures WorkerOk(after, id)
  {
  }

  lemma OldWorkerOk(w: World, step: Step, id: nat)
    requires RunsOk(w) && id in w.workers && WorkerOk(w, id)
    ensures id in Next(w, step).workers && WorkerOk(Next(w, step), id)
  {
    StepMoves(w, step, w.workers[id].run);
    StepWorker(w, step, id);
    WorkerPersists(w, Next(w, step), id);
  }

  /** A new worker took a token that nobody had started. */
  lemma NewWorkerOk(w: World, step: Step, id: nat)
    requires RunsOk(w) && id in Next(w, step).workers && id !in w.workers
    ensures var worker := Next(w, step).workers[id];
            && worker.run in w.runs && !HasKey(w.runs[worker.run].log, Started(worker.token))
            && WorkerOk(Next(w, step), id)
  {
    StepWorkers(w, step);
    DeliverMoves(w.runs[step.run], step.token, step.redelivered, w.next);
    StepFollows(w, step);
    DeliveredRun(w, step, id);
  }

  lemma DeliveredRun(w: World, step: Step, id: nat)
    requires step.Deliver? && id in Next(w, step).workers && id !in w.workers
    ensures step.run in Next(w, step).runs && Next(w, step).next == w.next
    ensures step.run in w.runs && w.runs[step.run].code != SC04
    ensures Next(w, step).runs[step.run] ==
            StartedRun(StartExternal(w.runs[step.run], step.token, step.redelivered), w.runs[step.run])
  {
    if RunEffect(w, step).Some? {
      IsolateKeepsRuns(Put(w, step.run, DoDeliver(step.token, step.redelivered)), step.run);
    }
  }

  lemma NextOnePerToken(w: World, after: World, step: Step)
    requires after == Next(w, step) && WorkersFollow(w, after, step) && OneWorkerPerToken(w)
    requires forall id <- w.workers :: WorkerOk(w, id)
    requires forall id <- after.workers :: id !in w.workers ==>
               after.workers[id].run in w.runs &&
                   !HasKey(w.runs[after.workers[id].run].log, Started(after.workers[id].token))
    ensures OneWorkerPerToken(after)
  {
    forall i, j | i in after.workers && j in after.workers && i != j && after.workers[i].run == after.workers[j].run
      ensures after.workers[i].token != after.workers[j].token
    {
      if i in w.workers {
        assert WorkerOk(w, i);
      }
      if j in w.workers {
        assert WorkerOk(w, j);
      }
    }
  }

  lemma NextWorkersOk(w: World, step: Step)
    requires WorkersOk(w)
    ensures WorkersOk(Next(w, step))
  {
    var after := Next(w, step);
    NextRunsOk(w, step);
    StepWorkers(w, step);
    forall id | id in after.workers
      ensures WorkerOk(after, id)
      ensures id !in w.workers ==>
                after.workers[id].run in w.runs &&
                    !HasKey(w.runs[after.workers[id].run].log, Started(after.workers[id].token))
    {
      if id in w.workers {
        OldWorkerOk(w, step, id);
      } else {
        NewWorkerOk(w, step, id);
      }
    }
    NextOnePerToken(w, after, step);
  }

  lemma {:induction false} ExecutionWorkersOk(w: World, steps: seq<Step>)
    requires WorkersOk(w)
    ensures WorkersOk(Execution(w, steps))
    decreases |steps|
  {
    if steps != [] {
      ExecutionWorkersOk(w, steps[..|steps| - 1]);
      NextWorkersOk(Execution(w, steps[..|steps| - 1]), steps[|steps| - 1]);
    }
  }

  /** In every reachable state a queued or running run has a token, no two workers hold the same token of a run,
      and each worker has made at most one gateway call after its token moved on. */
  lemma ReachableIsFenced(max: nat, steps: seq<Step>)
    requires max >= 1
    ensures var w := Execution(Initial(max), steps);
            && (forall r <- w.runs :: IsActive(w.runs[r].status) ==> w.runs[r].token.Some?)
            && (forall id <- w.workers :: w.workers[id].lateCalls <= 1)
            && OneWorkerPerToken(w)
  {
    ExecutionWorkersOk(Initial(max), steps);
    var w := Execution(Initial(max), steps);
    forall r | r in w.runs && IsActive(w.runs[r].status)
      ensures w.runs[r].token.Some?
    {
      assert RunOk(w.runs[r], w.next, w.max);
    }
    forall id | id in w.workers
      ensures w.workers[id].lateCalls <= 1
    {
      assert WorkerOk(w, id);
    }
  }

  function CallsLeft(worker: Worker): nat {
    if worker.phase == Prepared then 1 else 0
  }

  /** Fencing. Once the run's token has moved off the worker's, it never comes back, whatever happens: the worker
      makes at most the one call it had already prepared, and none of its transactions changes a run, a client or
      an attempt any more. */
  lemma {:induction false} FencedForGood(w: World, steps: seq<Step>, id: nat)
    requires WorkersOk(w) && WorkerIsKnown(w, id) && !Holds(w, id)
    ensures var after := Execution(w, steps);
            && WorkersOk(after) && WorkerIsKnown(after, id) && !Holds(after, id)
            && after.workers[id].calls + CallsLeft(after.workers[id]) <= w.workers[id].calls + CallsLeft(w.workers[id])
            && forall step :: IsGuardedBy(step, id) ==>
                 Next(after, step).runs == after.runs && Next(after, step).clients == after.clients &&
                     Next(after, step).attempts == after.attempts
    decreases |steps|
  {
    var after := Execution(w, steps);
    if steps != [] {
      var before := Execution(w, steps[..|steps| - 1]);
      FencedForGood(w, steps[..|steps| - 1], id);
      FencedStep(before, steps[|steps| - 1], id);
    }
    forall step | IsGuardedBy(step, id)
      ensures Next(after, step).runs == after.runs && Next(after, step).clients == after.clients &&
              Next(after, step).attempts == after.attempts
    {
      FencedTransaction(after, id, step);
    }
  }

  lemma FencedStep(w: World, step: Step, id: nat)
    requires WorkersOk(w) && WorkerIsKnown(w, id) && !Holds(w, id)
    ensures var after := Next(w, step);
            && WorkersOk(after) && WorkerIsKnown(after, id) && !Holds(after, id)
            && after.workers[id].calls + CallsLeft(after.workers[id]) <= w.workers[id].calls + CallsLeft(w.workers[id])
  {
    NextWorkersOk(w, step);
    assert WorkerOk(w, id);
    OffForGood(w, step, id);
    StepWorker(w, step, id);
  }
}
