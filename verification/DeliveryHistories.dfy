/** Everything that can happen to one run, in any order, and what its row and its log keep. */
module DeliveryHistories {
  import opened Options
  import opened RunLog
  import opened DeliveryRuns
  import R = Runs

  datatype RunStep =
    | DoDispatch(newToken: Token)
    | DoDispatchFailure(token: Token, failure: RunStatus)
    | DoDispatchSuccess(token: Token)
    | DoPublishFailure(token: Token)
    | DoDeliver(token: Token, redelivered: bool)
    | DoStartAttempt(token: Token, id: nat)
    | DoFinishAttempt(token: Token, id: nat, ok: bool)
    | DoFinish(token: Token, outcome: RunStatus)
    | DoReconcile(newToken: Token, ambiguous: bool, newItems: bool)
    | DoResume(newToken: Token)
    | DoReschedule(newToken: Token)
    | DoUpload(newToken: Token)
    | DoRecompute(status: RunStatus)

  /** A new identifier differs from all those used before. */
  predicate Enabled(run: Run, next: Token, step: RunStep) {
    match step
    case DoDispatch(t) => t >= next
    case DoDispatchFailure(_, s) => s == R.Failed || s == R.PartiallyFailed
    case DoFinish(_, s) => run.code != SC04 && IsFinal(s)
    case DoReconcile(t, _, _) => t >= next
    case DoResume(t) => t >= next && run.code == SC05
    case DoReschedule(t) => t >= next && run.code != SC05
    case DoUpload(t) => t >= next && run.code == SC04
    case DoRecompute(s) => run.code == SC04 && s != R.Pending
    case _ => true
  }

  function StartedRun(start: Start, run: Run): Run {
    match start
    case Raised => run
    case Ignored(r) => r
    case Isolated(r) => r
    case Exhausted(r) => r
    case Execute(r) => r
  }

  function ReconciledRun(result: Reconciled, run: Run): Run {
    match result
    case Skipped => run
    case Rejected => run
    case Requeued(r, _) => r
    case Isolates(r) => r
    case Fails(r) => r
  }

  function Deliver(run: Run, token: Token, redelivered: bool, max: nat): Start {
    if run.code == SC04 then StartTriage(run, token, redelivered, max) else StartExternal(run, token, redelivered)
  }

  function Apply(run: Run, step: RunStep, max: nat): Run {
    match step
    case DoDispatch(t) => (match DispatchBegin(run, t) case Claimed(r, _) => r case _ => run)
    case DoDispatchFailure(t, s) => DispatchFailure(run, t, s).GetOr(run)
    case DoDispatchSuccess(t) => DispatchSuccess(run, t).GetOr(run)
    case DoPublishFailure(t) => RecoveryPublishFailure(run, t).GetOr(run)
    case DoDeliver(t, redelivered) => StartedRun(Deliver(run, t, redelivered, max), run)
    case DoStartAttempt(t, id) => StartAttempt(run, t, id).GetOr(run)
    case DoFinishAttempt(t, id, ok) => FinishAttempt(run, t, id, ok).GetOr(run)
    case DoFinish(t, s) => FinishRun(run, t, s).GetOr(run)
    case DoReconcile(t, ambiguous, newItems) => ReconciledRun(ReconcileRun(run, t, max, ambiguous, newItems), run)
    case DoResume(t) => ResumeRun(run, t).GetOr(run)
    case DoReschedule(t) => RescheduleRun(run, t).GetOr(run)
    case DoUpload(t) => run.(status := R.Queued, token := Some(t))
    case DoRecompute(s) => run.(status := s)
  }

  function NextToken(step: RunStep, next: Token): Token {
    match step
    case DoDispatch(t) => t + 1
    case DoReconcile(t, _, _) => t + 1
    case DoResume(t) => t + 1
    case DoReschedule(t) => t + 1
    case DoUpload(t) => t + 1
    case _ => next
  }

  // ----- Keys and tokens -----

  /** After this event no delivery of the token may change the run again. */
  predicate Spends(key: Key, token: Token) {
    || key == DispatchFailed(token)
    || (key.Quarantined? && key.previous == Some(token))
    || (key.Fenced? && key.previous == Some(token))
    || (key.Terminal? && key.token == token)
  }

  predicate Spent(log: seq<Event<Key>>, token: Token) {
    log != [] && (Spends(log[|log| - 1].key, token) || Spent(log[..|log| - 1], token))
  }

  predicate KeyBelow(key: Key, next: Token) {
    match key
    case Created => true
    case Quarantined(t, _) => t.Some? ==> t.value < next
    case Fenced(t) => t.Some? ==> t.value < next
    case AttemptStarted(_) => true
    case AttemptFinished(_) => true
    case IgnoredSuperseded(_) => true
    case IgnoredTerminal(_, _) => true
    case IgnoredRunning(_) => true
    case _ => key.token < next
  }

  /** The log only knows tokens that were issued, except for foreign deliveries that were ignored. */
  predicate Below(log: seq<Event<Key>>, next: Token) {
    log != [] ==> KeyBelow(log[|log| - 1].key, next) && Below(log[..|log| - 1], next)
  }

  lemma {:induction false} BelowGrows(log: seq<Event<Key>>, next: Token, later: Token)
    requires Below(log, next) && next <= later
    ensures Below(log, later)
    decreases |log|
  {
    if log != [] {
      BelowGrows(log[..|log| - 1], next, later);
    }
  }

  /** A new token is in no key, and not spent. */
  lemma {:induction false} NewTokenIsUnused(log: seq<Event<Key>>, next: Token, t: Token)
    requires Below(log, next) && next <= t
    ensures !Spent(log, t) && !HasKey(log, Started(t))
    ensures !HasKey(log, DispatchStarted(t)) && !HasKey(log, RecoveryClaimed(t)) && !HasKey(log, Resumed(t)) &&
            !HasKey(log, Rescheduled(t))
    decreases |log|
  {
    if log != [] {
      NewTokenIsUnused(log[..|log| - 1], next, t);
    }
  }

  lemma {:induction false} UnspentHasNoKey(log: seq<Event<Key>>, key: Key, token: Token)
    requires !Spent(log, token) && Spends(key, token)
    ensures !HasKey(log, key)
    decreases |log|
  {
    if log != [] {
      UnspentHasNoKey(log[..|log| - 1], key, token);
    }
  }

  lemma Snoc(log: seq<Event<Key>>, e: Event<Key>)
    ensures forall t :: Spent(log + [e], t) <==> Spends(e.key, t) || Spent(log, t)
    ensures forall k :: HasKey(log + [e], k) <==> e.key == k || HasKey(log, k)
    ensures forall n :: Below(log + [e], n) <==> KeyBelow(e.key, n) && Below(log, n)
    ensures Starts(log + [e]) == Starts(log) + (if e.key.Started? then 1 else 0)
  {
    assert (log + [e])[..|log|] == log;
  }

  /** How many deliveries began to execute. */
  function Starts(log: seq<Event<Key>>): nat {
    if log == [] then 0 else Starts(log[..|log| - 1]) + (if log[|log| - 1].key.Started? then 1 else 0)
  }

  // ----- What every SC-05 and SC-20 run keeps -----

  predicate Traced(run: Run, next: Token) {
    && Sequenced(run.log) && KeysOnce(run.log) && Chained(run.log) && Below(run.log, next)
    && Replay(run.log) == Some(run.status)
  }

  predicate Owned(run: Run, next: Token) {
    && run.status != R.Pending
    && (run.token.Some? ==> run.token.value < next)
    && (IsActive(run.status) ==> run.token.Some? && !Spent(run.log, run.token.value))
    && (run.status == R.Queued ==> !HasKey(run.log, Started(run.token.value)))
    && (run.status == R.Queued && !run.dispatchStarted ==> !HasKey(run.log, DispatchStarted(run.token.value)))
  }

  predicate Sound(run: Run, next: Token) {
    run.code != SC04 && Traced(run, next) && Owned(run, next)
  }

  lemma NoteTraced(run: Run, row: Run, next: Token, next': Token, key: Key, previous: Option<RunStatus>,
                   token: Option<Token>, attempt: Option<nat>, facts: string)
    requires Traced(run, next) && row.log == run.log && next <= next' && KeyBelow(key, next')
    requires previous.Some? ==> previous == Some(run.status)
    requires row.status == run.status || !HasKey(run.log, key)
    ensures var r := Note(row, key, previous, token, attempt, facts);
            && (r.Some? ==> Traced(r.value, next'))
            && (!HasKey(run.log, key) ==> r.Some?)
  {
    BelowGrows(run.log, next, next');
    var content := Content(previous, Some(row.status), token, attempt, facts);
    RecordKeepsLog(run.log, key, content, NO_CONTEXT, None, 0);
    var recorded := Record(run.log, key, content, NO_CONTEXT, None, 0);
    if recorded.Appended? {
      var e := Event(LatestSequence(run.log) + 1, key, content, NO_CONTEXT, 0);
      assert recorded.log == run.log + [e];
      ChainedSnoc(run.log, e);
      Snoc(run.log, e);
    }
  }

  /** What recording does to the facts about the owner. */
  lemma NoteOwned(row: Run, next: Token, key: Key, previous: Option<RunStatus>, token: Option<Token>,
                  attempt: Option<nat>, facts: string)
    requires Owned(row, next)
    requires IsActive(row.status) ==> !Spends(key, row.token.value)
    requires row.status == R.Queued ==>
             key != Started(row.token.value) && (row.dispatchStarted || key != DispatchStarted(row.token.value))
    ensures var r := Note(row, key, previous, token, attempt, facts); r.Some? ==> Owned(r.value, next)
  {
    var content := Content(previous, Some(row.status), token, attempt, facts);
    if !HasKey(row.log, key) {
      Snoc(row.log, Event(LatestSequence(row.log) + 1, key, content, NO_CONTEXT, 0));
    }
  }

  /** The shape of every recording transaction: the row changes, then one event is noted. */
  lemma NoteSound(run: Run, row: Run, next: Token, next': Token, key: Key, previous: Option<RunStatus>,
                  token: Option<Token>, attempt: Option<nat>, facts: string)
    requires Sound(run, next) && row.log == run.log && row.code == run.code && next <= next' && KeyBelow(key, next')
    requires previous.Some? ==> previous == Some(run.status)
    requires row.status == run.status || !HasKey(run.log, key)
    requires Owned(row, next')
    requires IsActive(row.status) ==> !Spends(key, row.token.value)
    requires row.status == R.Queued ==>
             key != Started(row.token.value) && (row.dispatchStarted || key != DispatchStarted(row.token.value))
    ensures var r := Note(row, key, previous, token, attempt, facts);
            && (r.Some? ==> Sound(r.value, next'))
            && (!HasKey(run.log, key) ==> r.Some?)
  {
    NoteTraced(run, row, next, next', key, previous, token, attempt, facts);
    NoteOwned(row, next', key, previous, token, attempt, facts);
  }

  lemma SoundGrows(run: Run, next: Token, next': Token)
    requires Sound(run, next) && next <= next'
    ensures Sound(run, next')
  {
    BelowGrows(run.log, next, next');
  }

  /** A queued or running run always has a token, so a delivery of another token never matches it. */
  lemma NoTokenNoMatch(run: Run, next: Token, token: Token)
    requires Sound(run, next) && IsActive(run.status)
    ensures DeliveryMatches(run, token) <==> run.token == Some(token)
  {
  }

  lemma DispatchSound(run: Run, newToken: Token, next: Token)
    requires Sound(run, next) && newToken >= next
    ensures var d := DispatchBegin(run, newToken);
            && (d.Claimed? <==> run.status == R.Queued && !run.published && !run.dispatchStarted)
            && (d.Claimed? ==> Sound(d.run, newToken + 1) && Some(d.token) == run.token == d.run.token)
  {
    SoundGrows(run, next, newToken + 1);
    if run.status == R.Queued && !run.published && !run.dispatchStarted {
      var token := run.token.value;
      NoteSound(run, run.(dispatchStarted := true), newToken + 1, newToken + 1, DispatchStarted(token), Some(R.Queued),
                Some(token), None, "started");
    }
  }

  lemma DispatchFailureSound(run: Run, token: Token, status: RunStatus, next: Token)
    requires Sound(run, next) && !IsActive(status)
    ensures run.token == Some(token) && run.status == R.Queued <==> DispatchFailure(run, token, status).Some?
    ensures Sound(DispatchFailure(run, token, status).GetOr(run), next)
  {
    if run.token == Some(token) && run.status == R.Queued {
      UnspentHasNoKey(run.log, DispatchFailed(token), token);
      NoteSound(run, run.(status := status, dispatchError := true), next, next, DispatchFailed(token), Some(R.Queued),
                Some(token), None, "failed");
    }
  }

  lemma ConfirmSound(run: Run, token: Token, next: Token)
    requires Sound(run, next)
    ensures Sound(DispatchSuccess(run, token).GetOr(run), next) &&
            Sound(RecoveryPublishFailure(run, token).GetOr(run), next)
  {
    if run.token == Some(token) {
      NoteSound(run, run.(published := true), next, next, BrokerPublished(token), None, Some(token), None, "published");
      NoteSound(run, run, next, next, PublishFailed(token), None, Some(token), Some(run.attempts), "publish_failed");
    }
  }

  lemma IgnoreSound(run: Run, key: Key, token: Option<Token>, facts: string, next: Token)
    requires Sound(run, next) && (key.IgnoredSuperseded? || key.IgnoredTerminal? || key.IgnoredRunning?)
    ensures Sound(StartedRun(Ignore(run, key, token, facts), run), next)
  {
    NoteSound(run, run, next, next, key, None, token, None, facts);
  }

  lemma QuarantineSound(run: Run, row: Run, byWorker: bool, next: Token)
    requires Sound(run, next) && IsActive(run.status)
    requires row.log == run.log && row.code == run.code && row.token == run.token && row.status == run.status
    ensures Quarantine(row, byWorker).Some? && Sound(Quarantine(row, byWorker).value, next)
  {
    var t := run.token.value;
    UnspentHasNoKey(run.log, Quarantined(Some(t), byWorker), t);
    var isolated := row.(attempts := row.attempts + 1, token := None, status := R.PartiallyFailed);
    NoteSound(run, isolated, next, next, Quarantined(Some(t), byWorker), Some(run.status), Some(t),
              Some(isolated.attempts), "quarantined");
  }

  lemma StartSound(run: Run, token: Token, redelivered: bool, next: Token)
    requires Sound(run, next)
    ensures Sound(StartedRun(StartExternal(run, token, redelivered), run), next)
    ensures StartExternal(run, token, redelivered).Execute? <==> run.status == R.Queued && run.token == Some(token)
    ensures StartExternal(run, token, redelivered).Isolated? <==>
            run.status == R.Running && run.token == Some(token) && redelivered
  {
    if !DeliveryMatches(run, token) {
      IgnoreSound(run, IgnoredSuperseded(token), Some(token), "superseded", next);
    } else if !IsActive(run.status) {
      IgnoreSound(run, IgnoredTerminal(token, if run.code == SC05 then Some(run.status) else None), Some(token),
                  "terminal", next);
    } else {
      NoTokenNoMatch(run, next, token);
      var bound := BindDelivery(run, token).(dispatchStarted := true, published := true);
      if run.status == R.Running {
        if redelivered {
          QuarantineSound(run, bound, true, next);
        } else {
          IgnoreSound(run, IgnoredRunning(token), Some(token), "already_running", next);
        }
      } else {
        var running := bound.(status := R.Running, started := true);
        NoteSound(run, running, next, next, Started(token), Some(run.status), Some(token), None, "started");
      }
    }
  }

  lemma AttemptSound(run: Run, token: Token, id: nat, ok: bool, next: Token)
    requires Sound(run, next)
    ensures Sound(StartAttempt(run, token, id).GetOr(run), next) &&
            Sound(FinishAttempt(run, token, id, ok).GetOr(run), next)
  {
    if Guarded(run, token) {
      NoteSound(run, run, next, next, AttemptStarted(id), None, Some(token), Some(id), "started");
      NoteSound(run, run, next, next, AttemptFinished(id), None, Some(token), Some(id),
                if ok then "succeeded" else "failed");
    }
  }

  lemma FinishSound(run: Run, token: Token, status: RunStatus, next: Token)
    requires Sound(run, next) && IsFinal(status)
    ensures FinishRun(run, token, status).Some? <==> run.status == R.Running && run.token == Some(token)
    ensures Sound(FinishRun(run, token, status).GetOr(run), next)
  {
    if Guarded(run, token) {
      NoTokenNoMatch(run, next, token);
      UnspentHasNoKey(run.log, Terminal(token, status), token);
      NoteSound(run, run.(status := status), next, next, Terminal(token, status), Some(R.Running), Some(token), None,
                "finished");
    }
  }

  lemma ClaimSound(run: Run, newToken: Token, next: Token)
    requires Sound(run, next) && run.status == R.Queued && newToken >= next
    ensures ClaimRecovery(run, newToken).Requeued? && Sound(ClaimRecovery(run, newToken).run, newToken + 1)
  {
    NewTokenIsUnused(run.log, next, newToken);
    var queued := run.(status := R.Queued, token := Some(newToken), dispatchStarted := true, published := false,
                       attempts := run.attempts + 1);
    NoteSound(run, queued, next, newToken + 1, RecoveryClaimed(newToken), Some(run.status), Some(newToken),
              Some(queued.attempts), "requeued");
  }

  lemma FenceSound(run: Run, next: Token)
    requires Sound(run, next) && IsActive(run.status)
    ensures Fence(run).Fails? && Sound(Fence(run).run, next)
  {
    var t := run.token.value;
    UnspentHasNoKey(run.log, Fenced(Some(t)), t);
    NoteSound(run, run.(token := None, status := R.Failed), next, next, Fenced(Some(t)), Some(run.status), Some(t),
              Some(run.attempts), "failed");
  }

  predicate ReconciledSoundly(r: Reconciled, run: Run, newToken: Token) {
    && Sound(ReconciledRun(r, run), newToken + 1)
    && (r.Skipped? <==> !IsStale(run)) && !r.Rejected?
    && (r.Requeued? ==> r.token == newToken && r.run.token == Some(newToken))
  }

  lemma StaleQueueSound(run: Run, newToken: Token, max: nat, ambiguous: bool, newItems: bool, next: Token)
    requires Sound(run, next) && newToken >= next && run.status == R.Queued && !run.published
    ensures ReconciledSoundly(ReconcileRun(run, newToken, max, ambiguous, newItems), run, newToken)
  {
    if run.attempts < max {
      ClaimSound(run, newToken, next);
    } else {
      SoundGrows(run, next, newToken + 1);
      if run.code == SC05 && ambiguous {
        QuarantineSound(run, run, false, newToken + 1);
      } else {
        FenceSound(run, newToken + 1);
      }
    }
  }

  lemma StaleWorkerSound(run: Run, newToken: Token, max: nat, ambiguous: bool, newItems: bool, next: Token)
    requires Sound(run, next) && newToken >= next && run.status == R.Running
    ensures ReconciledSoundly(ReconcileRun(run, newToken, max, ambiguous, newItems), run, newToken)
  {
    SoundGrows(run, next, newToken + 1);
    QuarantineSound(run, run, false, newToken + 1);
  }

  lemma ReconcileSound(run: Run, newToken: Token, max: nat, ambiguous: bool, newItems: bool, next: Token)
    requires Sound(run, next) && newToken >= next
    ensures ReconciledSoundly(ReconcileRun(run, newToken, max, ambiguous, newItems), run, newToken)
  {
    if !IsStale(run) {
      SoundGrows(run, next, newToken + 1);
    } else if run.status == R.Queued {
      StaleQueueSound(run, newToken, max, ambiguous, newItems, next);
    } else {
      StaleWorkerSound(run, newToken, max, ambiguous, newItems, next);
    }
  }

  function ResumedRow(run: Run, newToken: Token): Run {
    run.(status := R.Queued, token := Some(newToken), dispatchStarted := false, published := false,
         attempts := 0, resumes := run.resumes + 1)
  }

  lemma ResumeIsNote(run: Run, newToken: Token)
    requires run.status == R.PartiallyFailed
    ensures ResumeRun(run, newToken) ==
            Note(ResumedRow(run, newToken), Resumed(newToken), Some(R.PartiallyFailed), Some(newToken),
                 Some(run.resumes + 1), "queued")
  {
  }

  lemma ResumedRowOwned(run: Run, newToken: Token, next: Token)
    requires Below(run.log, next) && newToken >= next
    ensures Owned(ResumedRow(run, newToken), newToken + 1) && !HasKey(run.log, Resumed(newToken))
  {
    NewTokenIsUnused(run.log, next, newToken);
  }

  lemma ResumeSound(run: Run, newToken: Token, next: Token)
    requires Sound(run, next) && newToken >= next && run.status == R.PartiallyFailed
    ensures ResumeRun(run, newToken).Some? && Sound(ResumeRun(run, newToken).value, newToken + 1)
  {
    ResumeIsNote(run, newToken);
    ResumedRowOwned(run, newToken, next);
    ResumedSound(run, ResumedRow(run, newToken), newToken, next);
  }

  lemma ResumedSound(run: Run, queued: Run, newToken: Token, next: Token)
    requires Sound(run, next) && newToken >= next && run.status == R.PartiallyFailed
    requires queued.log == run.log && queued.code == run.code && queued.status == R.Queued &&
             queued.token == Some(newToken)
    requires Owned(queued, newToken + 1) && !HasKey(run.log, Resumed(newToken))
    ensures var r := Note(queued, Resumed(newToken), Some(R.PartiallyFailed), Some(newToken), Some(queued.resumes),
                          "queued");
            r.Some? && Sound(r.value, newToken + 1)
  {
    NoteSound(run, queued, next, newToken + 1, Resumed(newToken), Some(R.PartiallyFailed), Some(newToken),
              Some(queued.resumes), "queued");
  }

  lemma RescheduleSound(run: Run, newToken: Token, next: Token)
    requires Sound(run, next) && newToken >= next
    ensures Sound(RescheduleRun(run, newToken).GetOr(run), newToken + 1)
    ensures run.status == R.Failed && !run.started && run.dispatchError <==> RescheduleRun(run, newToken).Some?
  {
    NewTokenIsUnused(run.log, next, newToken);
    SoundGrows(run, next, newToken + 1);
    if run.status == R.Failed {
      var queued := run.(status := R.Queued, token := Some(newToken), dispatchStarted := false, published := false,
                         attempts := 0, dispatchError := false);
      assert Owned(queued, newToken + 1);
      assert !HasKey(run.log, Rescheduled(newToken)) && KeyBelow(Rescheduled(newToken), newToken + 1);
      NoteSound(run, queued, next, newToken + 1, Rescheduled(newToken), Some(R.Failed), Some(newToken), None,
                "requeued");
    }
  }

  lemma CreatedSound(code: Module, token: Token, source: string)
    requires code != SC04
    ensures var e := Event(1, Created, Content(None, Some(R.Queued), Some(token), None, source), NO_CONTEXT, 0);
            Sound(Run(code, R.Queued, Some(token), false, false, false, false, 0, 0, [e]), token + 1)
  {
    var e := Event(1, Created, Content(None, Some(R.Queued), Some(token), None, source), NO_CONTEXT, 0);
    var log: seq<Event<Key>> := [];
    assert log + [e] == [e];
    Snoc(log, e);
    ChainedSnoc(log, e);
    assert !HasKey(log, Started(token)) && !HasKey(log, DispatchStarted(token)) && !Spent(log, token);
  }

  lemma NewRunSound(code: Module, token: Token, scheduled: bool)
    requires code != SC04
    ensures Sound(NewRun(code, token, scheduled), token + 1)
  {
    var source := if scheduled then "scheduler" else "web";
    var run := NewRun(code, token, scheduled);
    var one := run.(log := [run.log[0]]);
    CreatedSound(code, token, source);
    assert one.log[..0] == [];
    assert LatestSequence(one.log) == 1 && !HasKey(one.log, QueuedFirst(token));
    assert run.log == one.log + [run.log[1]];
    assert Note(one, QueuedFirst(token), None, Some(token), None, source) == Some(run);
    NoteSound(one, one, token + 1, token + 1, QueuedFirst(token), None, Some(token), None, source);
  }

  lemma DispatchStepSound(run: Run, step: RunStep, next: Token, max: nat)
    requires Sound(run, next) && Enabled(run, next, step)
    requires step.DoDispatch? || step.DoDispatchFailure? || step.DoDispatchSuccess? || step.DoPublishFailure?
    ensures Sound(Apply(run, step, max), NextToken(step, next))
  {
    match step
    case DoDispatch(t) => DispatchSound(run, t, next); SoundGrows(run, next, t + 1);
    case DoDispatchFailure(t, s) => DispatchFailureSound(run, t, s, next);
    case DoDispatchSuccess(t) => ConfirmSound(run, t, next);
    case DoPublishFailure(t) => ConfirmSound(run, t, next);
    case _ =>
  }

  lemma WorkerStepSound(run: Run, step: RunStep, next: Token, max: nat)
    requires Sound(run, next) && Enabled(run, next, step)
    requires step.DoDeliver? || step.DoStartAttempt? || step.DoFinishAttempt? || step.DoFinish?
    ensures Sound(Apply(run, step, max), next)
  {
    match step
    case DoDeliver(t, redelivered) => StartSound(run, t, redelivered, next);
    case DoStartAttempt(t, id) => AttemptSound(run, t, id, true, next);
    case DoFinishAttempt(t, id, ok) => AttemptSound(run, t, id, ok, next);
    case DoFinish(t, s) => FinishSound(run, t, s, next);
    case _ =>
  }

  lemma ResumeStepSound(run: Run, newToken: Token, next: Token)
    requires Sound(run, next) && newToken >= next
    ensures Sound(ResumeRun(run, newToken).GetOr(run), newToken + 1)
  {
    if run.status == R.PartiallyFailed {
      ResumeSound(run, newToken, next);
    } else {
      SoundGrows(run, next, newToken + 1);
    }
  }

  lemma ReconcileStepSound(run: Run, step: RunStep, next: Token, max: nat)
    requires Sound(run, next) && Enabled(run, next, step) && step.DoReconcile?
    ensures Sound(Apply(run, step, max), NextToken(step, next))
  {
    ReconcileSound(run, step.newToken, max, step.ambiguous, step.newItems, next);
  }

  lemma RequeueStepSound(run: Run, step: RunStep, next: Token, max: nat)
    requires Sound(run, next) && Enabled(run, next, step) && (step.DoResume? || step.DoReschedule?)
    ensures Sound(Apply(run, step, max), NextToken(step, next))
  {
    if step.DoResume? {
      ResumeStepSound(run, step.newToken, next);
    } else {
      RescheduleSound(run, step.newToken, next);
    }
  }

  /** Whatever happens to a SC-05 or SC-20 run, its log stays a correct account of its row, and while it is
      queued or running it has a token that has not been spent. */
  lemma ApplySound(run: Run, step: RunStep, next: Token, max: nat)
    requires Sound(run, next) && Enabled(run, next, step)
    ensures Sound(Apply(run, step, max), NextToken(step, next)) && NextToken(step, next) >= next
  {
    if step.DoDispatch? || step.DoDispatchFailure? || step.DoDispatchSuccess? || step.DoPublishFailure? {
      DispatchStepSound(run, step, next, max);
    } else if step.DoDeliver? || step.DoStartAttempt? || step.DoFinishAttempt? || step.DoFinish? {
      WorkerStepSound(run, step, next, max);
    } else if step.DoReconcile? {
      ReconcileStepSound(run, step, next, max);
    } else if step.DoResume? || step.DoReschedule? {
      RequeueStepSound(run, step, next, max);
    }
  }

  // ----- Handing a run over -----

  /** The new token executes, and no token issued before does. */
  ghost predicate HandedOver(after: Run, newToken: Token, next: Token)
    requires after.code != SC04
  {
    && (forall redelivered :: StartExternal(after, newToken, redelivered).Execute?)
    && (forall earlier: Token, redelivered :: earlier < next ==> !StartExternal(after, earlier, redelivered).Execute?)
  }

  lemma QueuedIsHandedOver(after: Run, bound: Token, newToken: Token, next: Token)
    requires Sound(after, bound) && newToken >= next && after.status == R.Queued && after.token == Some(newToken)
    ensures HandedOver(after, newToken, next)
  {
    forall redelivered
      ensures StartExternal(after, newToken, redelivered).Execute?
    {
      StartSound(after, newToken, redelivered, bound);
    }
    forall earlier: Token, redelivered | earlier < next
      ensures !StartExternal(after, earlier, redelivered).Execute?
    {
      StartSound(after, earlier, redelivered, bound);
    }
  }

  /** Recovering a queued run hands it over to the new token, one attempt later. */
  lemma RecoveryHandsOver(run: Run, newToken: Token, next: Token)
    requires Sound(run, next) && newToken >= next && run.status == R.Queued
    ensures var r := ClaimRecovery(run, newToken);
            && r.Requeued? && r.run.code == run.code && r.run.attempts == run.attempts + 1 && !r.run.published
            && r.run.dispatchStarted
            && HandedOver(r.run, newToken, next)
  {
    ClaimSound(run, newToken, next);
    ClaimColumns(run, newToken);
    QueuedIsHandedOver(ClaimRecovery(run, newToken).run, newToken + 1, newToken, next);
  }

  lemma ClaimColumns(run: Run, newToken: Token)
    ensures var r := ClaimRecovery(run, newToken);
            && (r.Requeued? || r.Rejected?)
            && (r.Requeued? ==>
                r.run == run.(status := R.Queued, token := Some(newToken), dispatchStarted := true, published := false,
                                              attempts := run.attempts + 1, log := r.run.log))
  {
  }

  /** Resuming hands the run over to the new token, with all recoveries available again, and it can be dispatched. */
  lemma ResumptionHandsOver(run: Run, newToken: Token, next: Token)
    requires Sound(run, next) && newToken >= next && run.status == R.PartiallyFailed
    ensures var r := ResumeRun(run, newToken);
            && r.Some? && r.value.code == run.code && r.value.attempts == 0 && r.value.resumes == run.resumes + 1
            && HandedOver(r.value, newToken, next)
            && var d := DispatchBegin(r.value, newToken + 1);
            && d.Claimed? && d.token == newToken && d.run.code == run.code && HandedOver(d.run, newToken, next)
  {
    ResumeSound(run, newToken, next);
    ResumedColumns(run, newToken);
    ResumedIsDispatched(ResumeRun(run, newToken).value, newToken, next);
  }

  lemma ResumedIsDispatched(after: Run, newToken: Token, next: Token)
    requires Sound(after, newToken + 1) && newToken >= next
    requires after.status == R.Queued && after.token == Some(newToken) && !after.published && !after.dispatchStarted
    ensures HandedOver(after, newToken, next)
    ensures var d := DispatchBegin(after, newToken + 1);
            d.Claimed? && d.token == newToken && d.run.code == after.code && HandedOver(d.run, newToken, next)
  {
    QueuedIsHandedOver(after, newToken + 1, newToken, next);
    DispatchSound(after, newToken + 1, newToken + 1);
    NewTokenStaysQueued(after, newToken);
    QueuedIsHandedOver(DispatchBegin(after, newToken + 1).run, newToken + 2, newToken, next);
  }

  lemma ResumedColumns(run: Run, newToken: Token)
    requires ResumeRun(run, newToken).Some?
    ensures ResumeRun(run, newToken).value == ResumedRow(run, newToken).(log := ResumeRun(run, newToken).value.log)
  {
  }

  lemma NewTokenStaysQueued(run: Run, token: Token)
    requires run.status == R.Queued && run.token == Some(token)
    ensures var d := DispatchBegin(run, token + 1);
            d.Claimed? ==> d.run.status == R.Queued && d.run.token == Some(token) && d.run.code == run.code
  {
  }

  /** A queue whose publication was confirmed is left to the broker. */
  lemma ConfirmedIsLeftAlone(run: Run, token: Token, newToken: Token, max: nat, ambiguous: bool, newItems: bool)
    requires run.status == R.Queued && DispatchSuccess(run, token).Some?
    ensures ReconcileRun(DispatchSuccess(run, token).value, newToken, max, ambiguous, newItems) == Skipped
  {
  }

  // ----- Histories -----

  /** The run after these steps, or None if some step was not possible when it came. */
  function History(run: Run, next: Token, steps: seq<RunStep>, max: nat): Option<(Run, Token)> {
    if steps == [] then Some((run, next))
    else
      var before := History(run, next, steps[..|steps| - 1], max);
      var step := steps[|steps| - 1];
      if before.None? || !Enabled(before.value.0, before.value.1, step) then None
      else Some((Apply(before.value.0, step, max), NextToken(step, before.value.1)))
  }

  lemma {:induction false} HistorySound(run: Run, next: Token, steps: seq<RunStep>, max: nat)
    requires Sound(run, next) && History(run, next, steps, max).Some?
    ensures var (after, later) := History(run, next, steps, max).value; Sound(after, later) && later >= next
    decreases |steps|
  {
    if steps != [] {
      HistorySound(run, next, steps[..|steps| - 1], max);
      var (before, n) := History(run, next, steps[..|steps| - 1], max).value;
      ApplySound(before, steps[|steps| - 1], n, max);
    }
  }

  /** Log replay. Whatever happened since creation: the stored status is the last status in the log, every stated
      previous status is the status logged before it, and sequences are exactly 1..n. */
  lemma LogReplaysStatus(code: Module, token: Token, scheduled: bool, steps: seq<RunStep>, max: nat)
    requires code != SC04 && History(NewRun(code, token, scheduled), token + 1, steps, max).Some?
    ensures var run := History(NewRun(code, token, scheduled), token + 1, steps, max).value.0;
            && Replay(run.log) == Some(run.status)
            && (forall i :: 0 <= i < |run.log| && run.log[i].content.previous.Some? ==>
                run.log[i].content.previous == Replay(run.log[..i]))
            && (forall i :: 0 <= i < |run.log| ==> run.log[i].sequence == i + 1)
            && (forall i, j :: 0 <= i < j < |run.log| ==> run.log[i].key != run.log[j].key)
  {
    NewRunSound(code, token, scheduled);
    HistorySound(NewRun(code, token, scheduled), token + 1, steps, max);
  }
}
