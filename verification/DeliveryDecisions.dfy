/** What each transaction on a SC-05 or SC-20 run decides, and what it leaves in the row and in the log: one table for
    each, over every state that such a run can reach. */
module DeliveryDecisions {
  import opened Options
  import opened RunLog
  import opened DeliveryRuns
  import opened DeliveryHistories
  import opened DeliveryBounds
  import R = Runs

  /** Exactly one event was added, about the new status. */
  predicate OneMoreEvent(before: Run, after: Run, key: Key) {
    && |after.log| == |before.log| + 1 && before.log <= after.log
    && var e := after.log[|before.log|];
       && e.key == key && e.sequence == |before.log| + 1 && e.content.current == Some(after.status)
       && (after.status != before.status ==> e.content.previous == Some(before.status))
  }

  lemma NoteRecords(run: Run, row: Run, key: Key, previous: Option<RunStatus>, token: Option<Token>,
                    attempt: Option<nat>, facts: string)
    requires Sequenced(run.log) && row.log == run.log && !HasKey(run.log, key)
    requires row.status != run.status ==> previous == Some(run.status)
    ensures var noted := Note(row, key, previous, token, attempt, facts);
            noted.Some? && noted.value == row.(log := noted.value.log) && OneMoreEvent(run, noted.value, key)
  {
    LatestIsLength(run.log);
  }

  // ----- Attempts -----

  lemma AttemptsMean(run: Run, token: Token, id: nat, ok: bool, next: Token)
    requires Sound(run, next)
    ensures var begun := StartAttempt(run, token, id);
            && (begun.Some? ==> run.status == R.Running && run.token == Some(token))
            && (!HasKey(run.log, AttemptStarted(id)) ==>
                  && (begun.Some? <==> run.status == R.Running && run.token == Some(token))
                  && (begun.Some? ==>
                      begun.value == run.(log := begun.value.log) &&
                      OneMoreEvent(run, begun.value, AttemptStarted(id))))
    ensures var ended := FinishAttempt(run, token, id, ok);
            && (ended.Some? ==> run.status == R.Running && run.token == Some(token))
            && (!HasKey(run.log, AttemptFinished(id)) ==>
                  && (ended.Some? <==> run.status == R.Running && run.token == Some(token))
                  && (ended.Some? ==>
                        && ended.value == run.(log := ended.value.log)
                        && OneMoreEvent(run, ended.value, AttemptFinished(id))
                        && ended.value.log[|run.log|].content.facts == (if ok then "succeeded" else "failed")))
  {
    if run.status == R.Running {
      NoTokenNoMatch(run, next, token);
      if !HasKey(run.log, AttemptStarted(id)) {
        NoteRecords(run, run, AttemptStarted(id), None, Some(token), Some(id), "started");
      }
      if !HasKey(run.log, AttemptFinished(id)) {
        NoteRecords(run, run, AttemptFinished(id), None, Some(token), Some(id), if ok then "succeeded" else "failed");
      }
    }
  }

  // ----- Deliveries -----

  lemma ExecutesHere(run: Run, token: Token, redelivered: bool, next: Token)
    requires Sound(run, next) && run.status == R.Queued && run.token == Some(token)
    ensures var start := StartExternal(run, token, redelivered);
            && start.Execute? && OneMoreEvent(run, start.run, Started(token))
            && start.run == run.(status := R.Running, started := true, dispatchStarted := true, published := true,
                                 log := start.run.log)
  {
    var row := run.(status := R.Running, started := true, dispatchStarted := true, published := true);
    NoteRecords(run, row, Started(token), Some(R.Queued), Some(token), None, "started");
    assert row == BindDelivery(run, token).(dispatchStarted := true, published := true, status := R.Running,
                                            started := true);
  }

  lemma IsolatesHere(run: Run, token: Token, next: Token)
    requires Sound(run, next) && run.status == R.Running && run.token == Some(token)
    ensures var start := StartExternal(run, token, true);
            && start.Isolated? && OneMoreEvent(run, start.run, Quarantined(Some(token), true))
            && start.run == run.(status := R.PartiallyFailed, token := None, attempts := run.attempts + 1,
                                 dispatchStarted := true, published := true, log := start.run.log)
  {
    var bound := BindDelivery(run, token).(dispatchStarted := true, published := true);
    UnspentHasNoKey(run.log, Quarantined(Some(token), true), token);
    NoteRecords(run, bound.(attempts := run.attempts + 1, token := None, status := R.PartiallyFailed),
                Quarantined(Some(token), true), Some(R.Running), Some(token), Some(run.attempts + 1), "quarantined");
  }

  lemma StartMeans(run: Run, token: Token, redelivered: bool, next: Token)
    requires Sound(run, next)
    ensures var start := StartExternal(run, token, redelivered);
            var after := StartedRun(start, run);
            if run.status == R.Queued && run.token == Some(token) then
              && start.Execute? && OneMoreEvent(run, after, Started(token))
              && after == run.(status := R.Running, started := true, dispatchStarted := true, published := true,
                               log := after.log)
            else if run.status == R.Running && run.token == Some(token) && redelivered then
              && start.Isolated? && OneMoreEvent(run, after, Quarantined(Some(token), true))
              && after == run.(status := R.PartiallyFailed, token := None, attempts := run.attempts + 1,
                               dispatchStarted := true, published := true, log := after.log)
            else (start.Ignored? || start.Raised?) && after == run.(log := after.log)
  {
    if run.status == R.Queued && run.token == Some(token) {
      ExecutesHere(run, token, redelivered, next);
    } else if run.status == R.Running && run.token == Some(token) && redelivered {
      IsolatesHere(run, token, next);
    } else {
      OtherwiseIgnored(run, token, redelivered, next);
    }
  }

  lemma OtherwiseIgnored(run: Run, token: Token, redelivered: bool, next: Token)
    requires Sound(run, next) && !(run.status == R.Queued && run.token == Some(token))
    requires !(run.status == R.Running && run.token == Some(token) && redelivered)
    ensures var start := StartExternal(run, token, redelivered);
            (start.Ignored? || start.Raised?) && StartedRun(start, run) == run.(log := StartedRun(start, run).log)
  {
    if !DeliveryMatches(run, token) {
      IgnoreColumns(run, IgnoredSuperseded(token), Some(token), "superseded");
    } else if !IsActive(run.status) {
      IgnoreColumns(run, IgnoredTerminal(token, if run.code == SC05 then Some(run.status) else None), Some(token),
                    "terminal");
    } else {
      NoTokenNoMatch(run, next, token);
      IgnoreColumns(run, IgnoredRunning(token), Some(token), "already_running");
    }
  }

  /** A SC-04 delivery. Its log may refuse any transaction, because an upload writes the row without one. */
  lemma TriageMeans(run: Run, token: Token, redelivered: bool, max: nat)
    requires run.code == SC04
    ensures var start := StartTriage(run, token, redelivered, max);
            var after := StartedRun(start, run);
            var mine := run.token.None? || run.token == Some(token);
            if start.Raised? then after == run
            else if mine && run.status == R.Running && redelivered && run.attempts >= max then
              && start.Exhausted?
              && after == run.(status := R.Failed, token := None, dispatchStarted := true, published := true,
                               log := after.log)
            else if mine && run.status == R.Running && redelivered then
              && start.Execute?
              && after == run.(token := Some(token), attempts := run.attempts + 1, dispatchStarted := true,
                               published := true,
                               log := after.log)
            else if mine && (run.status == R.Pending || run.status == R.Queued) then
              && start.Execute?
              && after == run.(status := R.Running, started := true, token := Some(token), dispatchStarted := true,
                               published := true, log := after.log)
            else start.Ignored? && after == run.(log := after.log)
    ensures var mine := run.token.None? || run.token == Some(token);
            mine && (run.status == R.Pending || run.status == R.Queued) && Sequenced(run.log) &&
                !HasKey(run.log, Started(token)) ==>
              StartTriage(run, token, redelivered, max).Execute?
    ensures var mine := run.token.None? || run.token == Some(token);
            mine && run.status == R.Running && redelivered && run.attempts < max && Sequenced(run.log) &&
            !HasKey(run.log, RedeliveryResumed(token, run.attempts + 1)) ==>
              StartTriage(run, token, redelivered, max).Execute?
  {
  }

  // ----- Dispatch -----

  lemma DispatchMeans(run: Run, newToken: Token, next: Token)
    requires Sound(run, next) && newToken >= next
    ensures var d := DispatchBegin(run, newToken);
            if run.status != R.Queued then d == Refused
            else if run.published || run.dispatchStarted then Some(d) == Some(AlreadyDispatched(run.token.value))
            else d.Claimed? && Some(d.token) == run.token && OneMoreEvent(run, d.run, DispatchStarted(d.token)) &&
                 d.run == run.(dispatchStarted := true, log := d.run.log)
  {
    if run.status == R.Queued && !run.published && !run.dispatchStarted {
      NoteRecords(run, run.(dispatchStarted := true), DispatchStarted(run.token.value), Some(R.Queued), run.token,
                  None, "started");
    }
  }

  lemma DispatchFailureMeans(run: Run, token: Token, status: RunStatus, next: Token)
    requires Sound(run, next) && (status == R.Failed || status == R.PartiallyFailed)
    ensures var failed := DispatchFailure(run, token, status);
            && (failed.Some? <==> run.status == R.Queued && run.token == Some(token))
            && (failed.Some? ==>
                failed.value == run.(status := status, dispatchError := true, log := failed.value.log) &&
                                 OneMoreEvent(run, failed.value, DispatchFailed(token)))
  {
    DispatchFailureSound(run, token, status, next);
    if run.status == R.Queued && run.token == Some(token) {
      UnspentHasNoKey(run.log, DispatchFailed(token), token);
      NoteRecords(run, run.(status := status, dispatchError := true), DispatchFailed(token), Some(R.Queued),
                  Some(token), None, "failed");
    }
  }

  lemma DispatchSuccessMeans(run: Run, token: Token)
    requires Sequenced(run.log)
    ensures var confirmed := DispatchSuccess(run, token);
            && (confirmed.Some? ==>
                run.token == Some(token) && confirmed.value == run.(published := true, log := confirmed.value.log))
            && (run.token == Some(token) && !HasKey(run.log, BrokerPublished(token)) ==>
                  confirmed.Some? && OneMoreEvent(run, confirmed.value, BrokerPublished(token)))
  {
    if run.token == Some(token) && !HasKey(run.log, BrokerPublished(token)) {
      NoteRecords(run, run.(published := true), BrokerPublished(token), None, Some(token), None, "published");
    }
  }

  lemma PublishFailureMeans(run: Run, token: Token)
    requires Sequenced(run.log)
    ensures var noted := RecoveryPublishFailure(run, token);
            && (noted.Some? ==>
                run.status == R.Queued && run.token == Some(token) && noted.value == run.(log := noted.value.log))
            && (run.status == R.Queued && run.token == Some(token) && !HasKey(run.log, PublishFailed(token)) ==>
                  noted.Some? && OneMoreEvent(run, noted.value, PublishFailed(token)))
  {
    if run.token == Some(token) && !HasKey(run.log, PublishFailed(token)) {
      NoteRecords(run, run, PublishFailed(token), None, Some(token), Some(run.attempts), "publish_failed");
    }
  }

  // ----- The end, and a new beginning -----

  lemma FinishMeans(run: Run, token: Token, status: RunStatus, next: Token)
    requires Sound(run, next) && IsFinal(status)
    ensures var finished := FinishRun(run, token, status);
            && (finished.Some? <==> run.status == R.Running && run.token == Some(token))
            && (finished.Some? ==> finished.value == run.(status := status, log := finished.value.log) &&
                                   OneMoreEvent(run, finished.value, Terminal(token, status)))
  {
    FinishSound(run, token, status, next);
    if run.status == R.Running && run.token == Some(token) {
      UnspentHasNoKey(run.log, Terminal(token, status), token);
      NoteRecords(run, run.(status := status), Terminal(token, status), Some(R.Running), Some(token), None, "finished");
    }
  }

  lemma ResumeMeans(run: Run, newToken: Token, next: Token)
    requires Sound(run, next) && newToken >= next
    ensures var resumed := ResumeRun(run, newToken);
            && (resumed.Some? <==> run.status == R.PartiallyFailed)
            && (resumed.Some? ==>
                  && resumed.value == run.(status := R.Queued, token := Some(newToken), dispatchStarted := false,
                                           published := false, attempts := 0, resumes := run.resumes + 1,
                                           log := resumed.value.log)
                  && OneMoreEvent(run, resumed.value, Resumed(newToken)))
  {
    NewTokenIsUnused(run.log, next, newToken);
    if run.status == R.PartiallyFailed {
      ResumeIsNote(run, newToken);
      NoteRecords(run, ResumedRow(run, newToken), Resumed(newToken), Some(R.PartiallyFailed), Some(newToken),
                  Some(run.resumes + 1), "queued");
    }
  }

  lemma RescheduleMeans(run: Run, newToken: Token, next: Token)
    requires Sound(run, next) && newToken >= next
    ensures var queued := RescheduleRun(run, newToken);
            && (queued.Some? <==> run.status == R.Failed && run.dispatchError && !run.started)
            && (queued.Some? ==>
                  && queued.value == run.(status := R.Queued, token := Some(newToken), dispatchStarted := false,
                                          published := false, attempts := 0, dispatchError := false,
                                          log := queued.value.log)
                  && OneMoreEvent(run, queued.value, Rescheduled(newToken)))
  {
    NewTokenIsUnused(run.log, next, newToken);
    if run.status == R.Failed {
      NoteRecords(run, run.(status := R.Queued, token := Some(newToken), dispatchStarted := false, published := false,
                            attempts := 0, dispatchError := false),
                  Rescheduled(newToken), Some(R.Failed), Some(newToken), None, "requeued");
    }
  }

  // ----- Reconciliation -----

  /** The row that a recovery leaves. */
  predicate RequeuedAs(run: Run, after: Run, newToken: Token) {
    after == run.(status := R.Queued, token := Some(newToken), dispatchStarted := true, published := false,
                  attempts := run.attempts + 1, log := after.log)
  }

  predicate IsolatedAs(run: Run, after: Run) {
    after == run.(status := R.PartiallyFailed, token := None, attempts := run.attempts + 1, log := after.log)
  }

  predicate FailedAs(run: Run, after: Run) {
    after == run.(status := R.Failed, token := None, log := after.log)
  }

  /** A queue that was never confirmed is recovered while attempts are left; then isolated, if it is a SC-05 queue
      that may hide external changes, and failed otherwise. A running worker is isolated. All else is left alone. */
  lemma ReconcileMeans(run: Run, newToken: Token, max: nat, ambiguous: bool, newItems: bool, next: Token)
    requires Sound(run, next) && newToken >= next
    ensures var result := ReconcileRun(run, newToken, max, ambiguous, newItems);
            if run.status == R.Running then result.Isolates? && IsolatedAs(run, result.run)
            else if run.status != R.Queued || run.published then result == Skipped
            else if run.attempts < max
                then result.Requeued? && result.token == newToken && RequeuedAs(run, result.run, newToken)
            else if run.code == SC05 && ambiguous then result.Isolates? && IsolatedAs(run, result.run)
            else result.Fails? && FailedAs(run, result.run)
  {
    ReconcileSound(run, newToken, max, ambiguous, newItems, next);
    if IsStale(run) {
      ClaimColumns(run, newToken);
      QuarantineColumns(run, false);
      FenceColumns(run);
    }
  }

  /** A SC-04 run: one that never got its upload in is failed, one that did is recovered; and an interrupted worker is
      recovered until the attempts are used up. */
  lemma ReconcileTriageMeans(run: Run, newToken: Token, max: nat, ambiguous: bool, newItems: bool, next: Token)
    requires run.code == SC04 && Sequenced(run.log) && Below(run.log, next) && newToken >= next
    requires !HasKey(run.log, Fenced(run.token))
    ensures var result := ReconcileRun(run, newToken, max, ambiguous, newItems);
            var recovers := if run.status == R.Pending then newItems else run.attempts < max;
            if run.status != R.Pending && run.status != R.Running && (run.status != R.Queued || run.published)
                then result == Skipped
            else if recovers then result.Requeued? && result.token == newToken && RequeuedAs(run, result.run, newToken)
            else result.Fails? && FailedAs(run, result.run)
  {
    NewTokenIsUnused(run.log, next, newToken);
    ClaimColumns(run, newToken);
    FenceColumns(run);
  }

  /** A new run. */
  lemma NewRunMeans(code: Module, token: Token, scheduled: bool)
    ensures var run := NewRun(code, token, scheduled);
            && run.code == code && run.status == R.Queued && run.token == Some(token)
            && !run.dispatchStarted && !run.published && !run.started && !run.dispatchError
            && run.attempts == 0 && run.resumes == 0
            && |run.log| == 2 && run.log[0].key == Created && run.log[1].key == QueuedFirst(token)
            && forall i :: 0 <= i < 2 ==> run.log[i].sequence == i + 1 && run.log[i].content.current == Some(R.Queued)
  {
  }
}
