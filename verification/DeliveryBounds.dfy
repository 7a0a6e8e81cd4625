/** How often a run can be recovered and executed. */
module DeliveryBounds {
  import opened Options
  import opened RunLog
  import opened DeliveryRuns
  import opened DeliveryHistories
  import R = Runs

  // ----- Recovery -----

  /** `max` is the configured number of recoveries, at least one. */
  predicate Bounded(run: Run, max: nat) {
    && run.attempts <= (if run.code == SC04 then max else max + 1)
    && (IsActive(run.status) ==> run.attempts <= max)
    && (run.status == R.Pending ==> run.attempts == 0)
  }

  function Measure(run: Run, max: nat): nat {
    if IsActive(run.status) && run.attempts <= max then max + 1 - run.attempts else 0
  }

  /** The step requeued the run, or resumed it after an interruption. */
  predicate Recovers(run: Run, step: RunStep, max: nat) {
    match step
    case DoReconcile(t, ambiguous, newItems) => ReconcileRun(run, t, max, ambiguous, newItems).Requeued?
    case DoDeliver(t, redelivered) => run.status == R.Running && Deliver(run, t, redelivered, max).Execute?
    case _ => false
  }

  /** A person resumed the run, or its scheduler put it back. */
  predicate Resets(step: RunStep) {
    step.DoResume? || step.DoReschedule?
  }

  /** What one step does to the recovery columns. */
  predicate Progress(run: Run, after: Run, recovered: bool, max: nat) {
    && after.code == run.code
    && (recovered ==> after.attempts == run.attempts + 1 <= max && IsActive(after.status))
    && (!recovered && after.attempts != run.attempts ==>
        after.attempts == run.attempts + 1 && IsActive(run.status) && !IsActive(after.status) && run.code != SC04)
    && (after.status == R.Pending ==> run.status == R.Pending && after.attempts == run.attempts)
    && (IsActive(after.status) && !recovered ==> IsActive(run.status) || run.code == SC04)
  }

  lemma ProgressBounded(run: Run, after: Run, recovered: bool, max: nat)
    requires Bounded(run, max) && Progress(run, after, recovered, max)
    ensures Bounded(after, max)
  {
  }

  lemma StartProgress(run: Run, token: Token, redelivered: bool, max: nat)
    requires max >= 1 && Bounded(run, max)
    ensures var start := Deliver(run, token, redelivered, max);
            Progress(run, StartedRun(start, run), run.status == R.Running && start.Execute?, max)
  {
    if run.code == SC04 {
      TriageProgress(run, token, redelivered, max);
    } else {
      ExternalProgress(run, token, redelivered, max);
    }
  }

  lemma IgnoreColumns(run: Run, key: Key, token: Option<Token>, facts: string)
    ensures var start := Ignore(run, key, token, facts);
            !start.Execute? && StartedRun(start, run) == run.(log := StartedRun(start, run).log)
  {
  }

  lemma ExternalBegins(run: Run, token: Token, redelivered: bool, max: nat)
    requires Bounded(run, max) && run.code != SC04 && DeliveryMatches(run, token) && IsActive(run.status) &&
             run.status != R.Running
    ensures Progress(run, StartedRun(StartExternal(run, token, redelivered), run), false, max)
  {
  }

  lemma ExternalInterrupted(run: Run, token: Token, max: nat)
    requires Bounded(run, max) && run.code != SC04 && DeliveryMatches(run, token) && run.status == R.Running
    ensures var start := StartExternal(run, token, true);
            !start.Execute? && Progress(run, StartedRun(start, run), false, max)
  {
    QuarantineColumns(BindDelivery(run, token).(dispatchStarted := true, published := true), true);
  }

  lemma QuarantineColumns(run: Run, byWorker: bool)
    ensures var r := Quarantine(run, byWorker);
            r.Some? ==>
              r.value == run.(attempts := run.attempts + 1, token := None, status := R.PartiallyFailed,
                              log := r.value.log)
  {
  }

  lemma FenceColumns(run: Run)
    ensures var r := Fence(run);
            && (r.Fails? || r.Rejected?)
            && (r.Fails? ==> r.run == run.(token := None, status := R.Failed, log := r.run.log))
  {
  }

  lemma ExternalProgress(run: Run, token: Token, redelivered: bool, max: nat)
    requires max >= 1 && Bounded(run, max) && run.code != SC04
    ensures var start := StartExternal(run, token, redelivered);
            Progress(run, StartedRun(start, run), run.status == R.Running && start.Execute?, max)
  {
    if !DeliveryMatches(run, token) {
      IgnoreColumns(run, IgnoredSuperseded(token), Some(token), "superseded");
    } else if !IsActive(run.status) {
      IgnoreColumns(run, IgnoredTerminal(token, if run.code == SC05 then Some(run.status) else None), Some(token),
                    "terminal");
    } else if run.status != R.Running {
      ExternalBegins(run, token, redelivered, max);
    } else if redelivered {
      ExternalInterrupted(run, token, max);
    } else {
      IgnoreColumns(run, IgnoredRunning(token), Some(token), "already_running");
    }
  }

  lemma TriageProgress(run: Run, token: Token, redelivered: bool, max: nat)
    requires max >= 1 && Bounded(run, max) && run.code == SC04
    ensures var start := StartTriage(run, token, redelivered, max);
            Progress(run, StartedRun(start, run), run.status == R.Running && start.Execute?, max)
  {
    if !DeliveryMatches(run, token) {
      IgnoreColumns(run, IgnoredSuperseded(token), Some(token), "superseded");
    } else if run.status == R.Running && redelivered {
      TriageInterrupted(run, token, max);
    } else if run.status == R.Pending || run.status == R.Queued {
      TriageBegins(run, token, redelivered, max);
    } else {
      IgnoreColumns(run, IgnoredTerminal(token, Some(run.status)), Some(token), "not_executable");
    }
  }

  lemma TriageInterrupted(run: Run, token: Token, max: nat)
    requires Bounded(run, max) && run.code == SC04 && DeliveryMatches(run, token) && run.status == R.Running
    ensures var start := StartTriage(run, token, true, max);
            Progress(run, StartedRun(start, run), start.Execute?, max)
  {
  }

  lemma TriageBegins(run: Run, token: Token, redelivered: bool, max: nat)
    requires Bounded(run, max) && run.code == SC04 && DeliveryMatches(run, token) &&
             (run.status == R.Pending || run.status == R.Queued)
    ensures var start := StartTriage(run, token, redelivered, max);
            Progress(run, StartedRun(start, run), false, max)
  {
  }

  lemma ReconcileProgress(run: Run, newToken: Token, ambiguous: bool, newItems: bool, max: nat)
    requires max >= 1 && Bounded(run, max)
    ensures var r := ReconcileRun(run, newToken, max, ambiguous, newItems);
            Progress(run, ReconciledRun(r, run), r.Requeued?, max)
  {
    if IsStale(run) {
      if run.status == R.Pending {
        StalePending(run, newToken, ambiguous, newItems, max);
      } else if run.status == R.Queued {
        StaleQueue(run, newToken, ambiguous, newItems, max);
      } else {
        StaleWorker(run, newToken, ambiguous, newItems, max);
      }
    }
  }

  lemma StalePending(run: Run, newToken: Token, ambiguous: bool, newItems: bool, max: nat)
    requires max >= 1 && Bounded(run, max) && run.status == R.Pending && run.code == SC04
    ensures var r := ReconcileRun(run, newToken, max, ambiguous, newItems);
            Progress(run, ReconciledRun(r, run), r.Requeued?, max)
  {
    ClaimColumns(run, newToken);
    FenceColumns(run);
  }

  lemma StaleQueue(run: Run, newToken: Token, ambiguous: bool, newItems: bool, max: nat)
    requires Bounded(run, max) && run.status == R.Queued && !run.published
    ensures var r := ReconcileRun(run, newToken, max, ambiguous, newItems);
            Progress(run, ReconciledRun(r, run), r.Requeued?, max)
  {
    if run.attempts < max {
      ClaimColumns(run, newToken);
    } else if run.code == SC05 && ambiguous {
      QuarantineColumns(run, false);
    } else {
      FenceColumns(run);
    }
  }

  lemma StaleWorker(run: Run, newToken: Token, ambiguous: bool, newItems: bool, max: nat)
    requires Bounded(run, max) && run.status == R.Running
    ensures var r := ReconcileRun(run, newToken, max, ambiguous, newItems);
            Progress(run, ReconciledRun(r, run), r.Requeued?, max)
  {
    if run.code != SC04 {
      QuarantineColumns(run, false);
    } else if run.attempts >= max {
      FenceColumns(run);
    } else {
      ClaimColumns(run, newToken);
    }
  }

  lemma WorkerProgress(run: Run, step: RunStep, next: Token, max: nat)
    requires Enabled(run, next, step) && (step.DoStartAttempt? || step.DoFinishAttempt? || step.DoFinish?)
    ensures Progress(run, Apply(run, step, max), false, max)
  {
  }

  lemma DispatchProgress(run: Run, step: RunStep, next: Token, max: nat)
    requires Enabled(run, next, step)
    requires step.DoDispatch? || step.DoDispatchFailure? || step.DoDispatchSuccess? || step.DoPublishFailure?
    ensures Progress(run, Apply(run, step, max), false, max)
  {
  }

  /** Every step but a reset. */
  lemma ApplyProgress(run: Run, step: RunStep, next: Token, max: nat)
    requires max >= 1 && Bounded(run, max) && Enabled(run, next, step) && !Resets(step)
    ensures Progress(run, Apply(run, step, max), Recovers(run, step, max), max)
  {
    match step
    case DoDeliver(t, redelivered) => StartProgress(run, t, redelivered, max);
    case DoReconcile(t, ambiguous, newItems) => ReconcileProgress(run, t, ambiguous, newItems, max);
    case DoUpload(_) =>
    case DoRecompute(_) =>
    case DoResume(_) =>
    case DoReschedule(_) =>
    case DoStartAttempt(_, _) => WorkerProgress(run, step, next, max);
    case DoFinishAttempt(_, _, _) => WorkerProgress(run, step, next, max);
    case DoFinish(_, _) => WorkerProgress(run, step, next, max);
    case _ => DispatchProgress(run, step, next, max);
  }

  lemma ResetBounded(run: Run, step: RunStep, next: Token, max: nat)
    requires Bounded(run, max) && Resets(step)
    ensures Bounded(Apply(run, step, max), max) && Apply(run, step, max).code == run.code && !Recovers(run, step, max)
  {
  }

  lemma ApplyBounded(run: Run, step: RunStep, next: Token, max: nat)
    requires max >= 1 && Bounded(run, max) && Enabled(run, next, step)
    ensures var after := Apply(run, step, max);
            && Bounded(after, max) && after.code == run.code
            && (!Resets(step) ==> Progress(run, after, Recovers(run, step, max), max))
  {
    if Resets(step) {
      ResetBounded(run, step, next, max);
    } else {
      ApplyProgress(run, step, next, max);
      ProgressBounded(run, Apply(run, step, max), Recovers(run, step, max), max);
    }
  }

  function Recoveries(run: Run, next: Token, steps: seq<RunStep>, max: nat): nat {
    if steps == [] then 0
    else
      var before := History(run, next, steps[..|steps| - 1], max);
      Recoveries(run, next, steps[..|steps| - 1], max) +
      (if before.Some? && Recovers(before.value.0, steps[|steps| - 1], max) then 1 else 0)
  }

  /** Bounded recovery, for all three modules: attempts never exceed the maximum for SC-04, or the maximum plus one
      for the others; and between resets a run is requeued or resumed at most as often as attempts were left. */
  lemma {:induction false} RecoveryIsBounded(run: Run, next: Token, steps: seq<RunStep>, max: nat)
    requires max >= 1 && Bounded(run, max) && History(run, next, steps, max).Some?
    ensures var after := History(run, next, steps, max).value.0;
            && Bounded(after, max) && after.code == run.code
            && ((forall step <- steps :: !Resets(step)) ==>
                  && run.attempts + Recoveries(run, next, steps, max) <= after.attempts
                  && (Recoveries(run, next, steps, max) > 0 ==>
                      run.attempts + Recoveries(run, next, steps, max) <= max))
    decreases |steps|
  {
    if steps != [] {
      var init, last := steps[..|steps| - 1], steps[|steps| - 1];
      RecoveryIsBounded(run, next, init, max);
      var (before, n) := History(run, next, init, max).value;
      ApplyBounded(before, last, n, max);
      assert (forall step <- steps :: !Resets(step)) ==> !Resets(last) && forall step <- init :: !Resets(step) by {
        assert last in steps;
        assert forall step <- init :: step in steps;
      }
    }
  }

  /** Only a reset gives a SC-05 or SC-20 run more recoveries; and every reconciliation that finds it stale,
      and every redelivery that finds it running, uses one up. */
  lemma RecoveryTerminates(run: Run, step: RunStep, next: Token, max: nat)
    requires max >= 1 && Sound(run, next) && Bounded(run, max) && Enabled(run, next, step)
    ensures !Resets(step) ==> Measure(Apply(run, step, max), max) <= Measure(run, max)
    ensures step.DoReconcile? && IsStale(run) ==> Measure(Apply(run, step, max), max) < Measure(run, max)
    ensures step.DoDeliver? && step.redelivered && run.status == R.Running && run.token == Some(step.token) ==>
              Measure(Apply(run, step, max), max) < Measure(run, max)
  {
    if !Resets(step) {
      ApplyProgress(run, step, next, max);
      if step.DoReconcile? && IsStale(run) {
        StaleMoves(run, step.newToken, step.ambiguous, step.newItems, next, max);
      } else if step.DoDeliver? && step.redelivered && run.status == R.Running && run.token == Some(step.token) {
        StartSound(run, step.token, step.redelivered, next);
      }
    }
  }

  lemma StaleMoves(run: Run, newToken: Token, ambiguous: bool, newItems: bool, next: Token, max: nat)
    requires Sound(run, next) && IsStale(run) && newToken >= next
    ensures var r := ReconcileRun(run, newToken, max, ambiguous, newItems);
            r.Requeued? || !IsActive(ReconciledRun(r, run).status)
  {
    ReconcileSound(run, newToken, max, ambiguous, newItems, next);
  }

  /** A SC-04 run interrupted again and again is failed once its attempts are used up. */
  lemma TriageTerminates(run: Run, token: Token, max: nat)
    requires run.code == SC04 && run.status == R.Running && run.token == Some(token) && Bounded(run, max)
    ensures var start := StartTriage(run, token, true, max);
            && (start.Execute? ==> Measure(start.run, max) < Measure(run, max) && start.run.status == R.Running)
            && (start.Exhausted? ==> run.attempts == max && start.run.status == R.Failed && start.run.token.None?)
            && (start.Execute? || start.Exhausted? || start.Raised?)
  {
  }

  // ----- Execution -----

  /** A SC-20 run is never queued again once it started; a SC-05 run starts at most once for each time it was
      queued by a person. */
  predicate StartsCounted(run: Run) {
    match run.code
    case SC20 => Starts(run.log) == (if run.started then 1 else 0) && (run.status == R.Queued ==> !run.started)
    case SC05 => Starts(run.log) <= run.resumes + (if run.status == R.Queued then 0 else 1)
    case SC04 => true
  }

  predicate Executes(run: Run, step: RunStep, max: nat) {
    step.DoDeliver? && Deliver(run, step.token, step.redelivered, max).Execute?
  }

  lemma NoteStarts(run: Run, key: Key, previous: Option<RunStatus>, token: Option<Token>, attempt: Option<nat>,
                   facts: string)
    ensures var r := Note(run, key, previous, token, attempt, facts);
            && (r.Some? ==> r.value == run.(log := r.value.log))
            && (r.Some? && !key.Started? ==> Starts(r.value.log) == Starts(run.log))
            && (r.Some? && key.Started? ==>
                Starts(r.value.log) == Starts(run.log) + (if HasKey(run.log, key) then 0 else 1))
  {
    if !HasKey(run.log, key) {
      Snoc(run.log, Event(LatestSequence(run.log) + 1, key, Content(previous, Some(run.status), token, attempt, facts),
                          NO_CONTEXT, 0));
    }
  }

  lemma IgnoreStarts(run: Run, key: Key, token: Option<Token>, facts: string)
    requires !key.Started?
    ensures var start := Ignore(run, key, token, facts);
            var after := StartedRun(start, run);
            !start.Execute? && after == run.(log := after.log) && Starts(after.log) == Starts(run.log)
  {
    NoteStarts(run, key, None, token, None, facts);
  }

  lemma ExecuteStarts(run: Run, token: Token)
    requires run.status == R.Queued && DeliveryMatches(run, token) && run.code != SC04 &&
             !HasKey(run.log, Started(token))
    ensures var start := StartExternal(run, token, false);
            && start == StartExternal(run, token, true)
            && start.Execute? && Starts(start.run.log) == Starts(run.log) + 1
            && start.run.status == R.Running && start.run.started && start.run.resumes == run.resumes
            && start.run.code == run.code
  {
    var running := BindDelivery(run, token).(dispatchStarted := true, published := true, status := R.Running,
                                             started := true);
    NoteStarts(running, Started(token), Some(R.Queued), Some(token), None, "started");
  }

  lemma QueueStartCounted(run: Run, token: Token, redelivered: bool, next: Token)
    requires run.code != SC04 && Owned(run, next) && StartsCounted(run)
    ensures var start := StartExternal(run, token, redelivered);
            && StartsCounted(StartedRun(start, run))
            && Starts(StartedRun(start, run).log) == Starts(run.log) + (if start.Execute? then 1 else 0)
  {
    if !DeliveryMatches(run, token) {
      IgnoreStarts(run, IgnoredSuperseded(token), Some(token), "superseded");
    } else if !IsActive(run.status) {
      IgnoreStarts(run, IgnoredTerminal(token, if run.code == SC05 then Some(run.status) else None), Some(token),
                   "terminal");
    } else if run.status == R.Queued {
      ExecuteStarts(run, token);
    } else if redelivered {
      QuarantineStarts(BindDelivery(run, token).(dispatchStarted := true, published := true), true);
    } else {
      IgnoreStarts(run, IgnoredRunning(token), Some(token), "already_running");
    }
  }

  lemma QuarantineStarts(run: Run, byWorker: bool)
    ensures var r := Quarantine(run, byWorker);
            r.Some? ==> Starts(r.value.log) == Starts(run.log) && r.value.status == R.PartiallyFailed
                        && r.value.started == run.started && r.value.resumes == run.resumes && r.value.code == run.code
  {
    var isolated := run.(attempts := run.attempts + 1, token := None, status := R.PartiallyFailed);
    NoteStarts(isolated, Quarantined(run.token, byWorker), Some(run.status), run.token, Some(isolated.attempts),
               "quarantined");
  }

  lemma ClaimStarts(run: Run, newToken: Token)
    ensures var r := ClaimRecovery(run, newToken);
            r.Requeued? ==>
              && Starts(r.run.log) == Starts(run.log) && r.run.started == run.started
              && r.run.resumes == run.resumes && r.run.code == run.code
  {
    var queued := run.(status := R.Queued, token := Some(newToken), dispatchStarted := true, published := false,
                       attempts := run.attempts + 1);
    NoteStarts(queued, RecoveryClaimed(newToken), Some(run.status), Some(newToken), Some(queued.attempts), "requeued");
  }

  lemma FenceStarts(run: Run)
    ensures var r := Fence(run);
            r.Fails? ==>
              && Starts(r.run.log) == Starts(run.log) && r.run.status == R.Failed && r.run.started == run.started
              && r.run.resumes == run.resumes && r.run.code == run.code
  {
    NoteStarts(run.(token := None, status := R.Failed), Fenced(run.token), Some(run.status), run.token,
               Some(run.attempts), "failed");
  }

  lemma ReconcileCounted(run: Run, newToken: Token, ambiguous: bool, newItems: bool, next: Token, max: nat)
    requires run.code != SC04 && run.status != R.Pending && StartsCounted(run)
    ensures var after := ReconciledRun(ReconcileRun(run, newToken, max, ambiguous, newItems), run);
            StartsCounted(after) && Starts(after.log) == Starts(run.log)
  {
    QuarantineStarts(run, false);
    ClaimStarts(run, newToken);
    FenceStarts(run);
  }

  lemma ResumeCounted(run: Run, newToken: Token, next: Token)
    requires Sound(run, next) && StartsCounted(run) && run.code == SC05
    ensures var after := ResumeRun(run, newToken).GetOr(run);
            StartsCounted(after) && Starts(after.log) == Starts(run.log)
  {
    var queued := run.(status := R.Queued, token := Some(newToken), dispatchStarted := false, published := false,
                       attempts := 0, resumes := run.resumes + 1);
    NoteStarts(queued, Resumed(newToken), Some(R.PartiallyFailed), Some(newToken), Some(queued.resumes), "queued");
  }

  lemma RescheduleCounted(run: Run, newToken: Token, next: Token)
    requires Sound(run, next) && StartsCounted(run) && run.code == SC20
    ensures var after := RescheduleRun(run, newToken).GetOr(run);
            StartsCounted(after) && Starts(after.log) == Starts(run.log)
  {
    var queued := run.(status := R.Queued, token := Some(newToken), dispatchStarted := false, published := false,
                       attempts := 0, dispatchError := false);
    NoteStarts(queued, Rescheduled(newToken), Some(R.Failed), Some(newToken), None, "requeued");
  }

  lemma DispatchCounted(run: Run, step: RunStep, next: Token, max: nat)
    requires run.code != SC04 && StartsCounted(run) && Enabled(run, next, step)
    requires step.DoDispatch? || step.DoDispatchFailure? || step.DoDispatchSuccess? || step.DoPublishFailure?
    ensures StartsCounted(Apply(run, step, max)) && Starts(Apply(run, step, max).log) == Starts(run.log)
  {
    match step
    case DoDispatch(t) =>
      var token := run.token.GetOr(t);
      NoteStarts(run.(token := Some(token), dispatchStarted := true), DispatchStarted(token), Some(R.Queued),
                 Some(token), None, "started");
    case DoDispatchFailure(t, s) =>
      NoteStarts(run.(status := s, dispatchError := true), DispatchFailed(t), Some(R.Queued), Some(t), None, "failed");
    case DoDispatchSuccess(t) => NoteStarts(run.(published := true), BrokerPublished(t), None, Some(t), None,
                                            "published");
    case DoPublishFailure(t) => NoteStarts(run, PublishFailed(t), None, Some(t), Some(run.attempts), "publish_failed");
    case _ =>
  }

  lemma AttemptStarts(run: Run, token: Token, id: nat, ok: bool)
    ensures var a, b := StartAttempt(run, token, id).GetOr(run), FinishAttempt(run, token, id, ok).GetOr(run);
            && a == run.(log := a.log) && Starts(a.log) == Starts(run.log)
            && b == run.(log := b.log) && Starts(b.log) == Starts(run.log)
  {
    NoteStarts(run, AttemptStarted(id), None, Some(token), Some(id), "started");
    NoteStarts(run, AttemptFinished(id), None, Some(token), Some(id), if ok then "succeeded" else "failed");
  }

  lemma FinishCounted(run: Run, token: Token, status: RunStatus)
    requires run.code != SC04 && StartsCounted(run) && IsFinal(status)
    ensures var after := FinishRun(run, token, status).GetOr(run);
            StartsCounted(after) && Starts(after.log) == Starts(run.log)
  {
    NoteStarts(run.(status := status), Terminal(token, status), Some(R.Running), Some(token), None, "finished");
  }

  lemma ApplyCounted(run: Run, step: RunStep, next: Token, max: nat)
    requires Sound(run, next) && StartsCounted(run) && Enabled(run, next, step)
    ensures StartsCounted(Apply(run, step, max))
    ensures Starts(Apply(run, step, max).log) == Starts(run.log) + (if Executes(run, step, max) then 1 else 0)
  {
    match step
    case DoDeliver(t, redelivered) => QueueStartCounted(run, t, redelivered, next);
    case DoReconcile(t, ambiguous, newItems) => ReconcileCounted(run, t, ambiguous, newItems, next, max);
    case DoResume(t) => ResumeCounted(run, t, next);
    case DoReschedule(t) => RescheduleCounted(run, t, next);
    case DoStartAttempt(t, id) => AttemptStarts(run, t, id, true);
    case DoFinishAttempt(t, id, ok) => AttemptStarts(run, t, id, ok);
    case DoFinish(t, s) => FinishCounted(run, t, s);
    case DoUpload(_) =>
    case DoRecompute(_) =>
    case _ => DispatchCounted(run, step, next, max);
  }

  function Executions(run: Run, next: Token, steps: seq<RunStep>, max: nat): nat {
    if steps == [] then 0
    else
      var before := History(run, next, steps[..|steps| - 1], max);
      Executions(run, next, steps[..|steps| - 1], max) +
      (if before.Some? && Executes(before.value.0, steps[|steps| - 1], max) then 1 else 0)
  }

  lemma {:induction false} HistoryCounted(run: Run, next: Token, steps: seq<RunStep>, max: nat)
    requires Sound(run, next) && StartsCounted(run) && History(run, next, steps, max).Some?
    ensures var (after, later) := History(run, next, steps, max).value;
            && Sound(after, later) && StartsCounted(after)
            && (max >= 1 && Bounded(run, max) ==> after.code == run.code && Bounded(after, max))
            && Starts(after.log) == Starts(run.log) + Executions(run, next, steps, max)
    decreases |steps|
  {
    if steps != [] {
      var init, last := steps[..|steps| - 1], steps[|steps| - 1];
      HistoryCounted(run, next, init, max);
      var (before, n) := History(run, next, init, max).value;
      ApplySound(before, last, n, max);
      ApplyCounted(before, last, n, max);
      if max >= 1 && Bounded(run, max) {
        ApplyBounded(before, last, n, max);
      }
    }
  }

  /** Over every interleaving of deliveries, redeliveries, rescheduling and reconciliation, a SC-20 run is executed
      at most once, and a SC-05 run at most once more than it was resumed. */
  lemma ExecutedAtMostOnce(code: Module, token: Token, scheduled: bool, steps: seq<RunStep>, max: nat)
    requires code != SC04 && max >= 1 && History(NewRun(code, token, scheduled), token + 1, steps, max).Some?
    ensures var run := History(NewRun(code, token, scheduled), token + 1, steps, max).value.0;
            var executed := Executions(NewRun(code, token, scheduled), token + 1, steps, max);
            && executed == Starts(run.log)
            && (code == SC20 ==> executed <= 1 && (run.status == R.Queued ==> executed == 0))
            && (code == SC05 ==> executed <= run.resumes + 1)
  {
    NewRunSound(code, token, scheduled);
    var log := FirstEvents(token, scheduled);
    assert log[..1] == [log[0]] && log[..1][..0] == [];
    assert Starts([]) == 0 && Starts([log[0]]) == 0 && Starts(log) == 0;
    HistoryCounted(NewRun(code, token, scheduled), token + 1, steps, max);
  }
}
