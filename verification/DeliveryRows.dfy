/** The run row as the transactions see it: columns that are assigned one by one under a row lock, and a log. Every
    method is one transaction. It does what the corresponding function on `Run` says, keeps the log a correct
    account of the columns, and what it decides is stated in the columns it found. */
module DeliveryRows {
  import opened Options
  import opened RunLog
  import opened DeliveryRuns
  import opened DeliveryHistories
  import opened DeliveryBounds
  import opened DeliveryDecisions
  import R = Runs

  /** What a row keeps: its attempts are bounded and, for SC-05 and SC-20, its log accounts for its columns and an
      active run has a token that is not spent. All tokens below `issued` may have been given out. */
  ghost predicate Kept(run: Run, issued: Token, max: nat) {
    max >= 1 && Bounded(run, max) && (run.code != SC04 ==> Sound(run, issued))
  }

  lemma StepKept(run: Run, step: RunStep, issued: Token, max: nat)
    requires Kept(run, issued, max) && Enabled(run, issued, step)
    ensures Kept(Apply(run, step, max), NextToken(step, issued), max)
  {
    ApplyBounded(run, step, issued, max);
    if run.code != SC04 {
      ApplySound(run, step, issued, max);
    }
  }

  lemma FirstRecords(token: Token, content: Content)
    ensures var one := [Event(1, Key.Created, content, NO_CONTEXT, 0)];
            && Record([], Key.Created, content, NO_CONTEXT, None, 0) == Appended(one)
            && Record(one, QueuedFirst(token), content, NO_CONTEXT, None, 0) ==
                 Appended(one + [Event(2, QueuedFirst(token), content, NO_CONTEXT, 0)])
  {
    var one := [Event(1, Key.Created, content, NO_CONTEXT, 0)];
    assert one[..0] == [];
    assert !HasKey(one, QueuedFirst(token)) && LatestSequence(one) == 1;
  }

  lemma QuarantinedColumns(run: Run, token: Token)
    requires run.code != SC04 && DeliveryMatches(run, token) && run.status == R.Running
    ensures var start := StartExternal(run, token, true);
            && (start.Isolated? || start.Raised?)
            && (start.Isolated? ==>
                start.run.status == R.PartiallyFailed && start.run.token == None &&
                start.run.attempts == run.attempts + 1)
  {
    QuarantineColumns(BindDelivery(run, token).(dispatchStarted := true, published := true), true);
  }

  /** What a delivery of SC-05 or SC-20 leaves in the columns. */
  lemma StartColumns(run: Run, token: Token, redelivered: bool)
    requires run.code != SC04
    ensures match StartExternal(run, token, redelivered)
            case Execute(r) => r.status == R.Running && r.token == Some(token) && r.attempts == run.attempts
            case Isolated(r) => r.status == R.PartiallyFailed && r.token == None && r.attempts == run.attempts + 1
            case Ignored(r) => r == run.(log := r.log)
            case Exhausted(_) => false
            case Raised => true
  {
    if !DeliveryMatches(run, token) {
      IgnoreColumns(run, IgnoredSuperseded(token), Some(token), "superseded");
    } else if !IsActive(run.status) {
      IgnoreColumns(run, IgnoredTerminal(token, if run.code == SC05 then Some(run.status) else None), Some(token),
                    "terminal");
    } else if run.status == R.Running && redelivered {
      QuarantinedColumns(run, token);
    } else if run.status == R.Running {
      IgnoreColumns(run, IgnoredRunning(token), Some(token), "already_running");
    }
  }

  lemma ReconcileColumns(run: Run, newToken: Token, ambiguous: bool, newItems: bool, max: nat)
    ensures match ReconcileRun(run, newToken, max, ambiguous, newItems)
            case Requeued(r, t) => t == newToken && r.status == R.Queued && r.token == Some(newToken)
            case Isolates(r) => r.status == R.PartiallyFailed && r.token == None
            case Fails(r) => r.status == R.Failed && r.token == None
            case _ => true
  {
    ClaimColumns(run, newToken);
    FenceColumns(run);
    QuarantineColumns(run, false);
  }

  // ----- What each transaction decides and leaves, in terms of the row it found -----

  /** The run waits under a new token, and no delivery of an earlier one matches it. */
  ghost predicate WaitsUnder(after: Run, newToken: Token, issued: Token) {
    after.status == R.Queued && after.token == Some(newToken) &&
        forall earlier: Token :: earlier < issued ==> !DeliveryMatches(after, earlier)
  }

  /** A delivery executes a queued run of its token, isolates a running one when it is a redelivery, and otherwise
      leaves all columns alone. */
  predicate Takes(before: Run, after: Run, execute: bool, task: Token, redelivered: bool) {
    var interrupted := before.status == R.Running && before.token == Some(task) && redelivered;
    && (execute <==> before.status == R.Queued && before.token == Some(task))
    && (execute ==> after.status == R.Running && after.token == Some(task) && after.attempts == before.attempts)
    && (interrupted ==>
        after.status == R.PartiallyFailed && after.token == None && after.attempts == before.attempts + 1)
    && (!execute && !interrupted ==> after == before.(log := after.log))
  }

  lemma StartKept(run: Run, task: Token, redelivered: bool, issued: Token, max: nat)
    requires Kept(run, issued, max) && run.code != SC04
    ensures Kept(StartedRun(StartExternal(run, task, redelivered), run), issued, max)
    ensures StartedRun(StartExternal(run, task, redelivered), run).code == run.code
  {
    StartSound(run, task, redelivered, issued);
    ExternalProgress(run, task, redelivered, max);
    ProgressBounded(run, StartedRun(StartExternal(run, task, redelivered), run),
                    run.status == R.Running && StartExternal(run, task, redelivered).Execute?, max);
  }

  lemma StartFacts(run: Run, task: Token, redelivered: bool, issued: Token, max: nat)
    requires Kept(run, issued, max) && run.code != SC04
    ensures var start := StartExternal(run, task, redelivered);
            Kept(StartedRun(start, run), issued, max) &&
                Takes(run, StartedRun(start, run), start.Execute?, task, redelivered)
  {
    StartKept(run, task, redelivered, issued, max);
    StartSound(run, task, redelivered, issued);
    StartColumns(run, task, redelivered);
  }

  /** A SC-04 delivery executes only a run that is its own or nobody's; a running one only as a redelivery, one attempt
      later and while attempts are left. */
  predicate TriageStarts(before: Run, after: Run, execute: bool, task: Token, redelivered: bool, max: nat) {
    execute ==>
      && after.status == R.Running && after.token == Some(task) && DeliveryMatches(before, task)
      && (before.status == R.Running ==> redelivered && after.attempts == before.attempts + 1 <= max)
  }

  lemma TriageFacts(run: Run, task: Token, redelivered: bool, issued: Token, max: nat)
    requires Kept(run, issued, max) && run.code == SC04
    ensures var start := StartTriage(run, task, redelivered, max);
            Kept(StartedRun(start, run), issued, max) &&
                TriageStarts(run, StartedRun(start, run), start.Execute?, task, redelivered, max)
  {
    StepKept(run, DoDeliver(task, redelivered), issued, max);
  }

  /** A queued run is dispatched once, under the token it has. */
  predicate Dispatches(before: Run, after: Run, claimed: bool) {
    && (claimed <==> before.status == R.Queued && !before.published && !before.dispatchStarted)
    && (claimed ==> after.token == before.token && after.token.Some? && after.dispatchStarted)
  }

  function DispatchedRun(d: Dispatch, run: Run): Run {
    if d.Claimed? then d.run else run
  }

  lemma DispatchFacts(run: Run, newToken: Token, issued: Token, max: nat)
    requires Kept(run, issued, max) && newToken >= issued
    ensures var d := DispatchBegin(run, newToken);
            && Kept(DispatchedRun(d, run), newToken + 1, max)
            && (run.code != SC04 ==> Dispatches(run, DispatchedRun(d, run), d.Claimed?))
  {
    StepKept(run, DoDispatch(newToken), issued, max);
    if run.code != SC04 {
      DispatchSound(run, newToken, issued);
      SoundGrows(run, issued, newToken + 1);
    }
  }

  /** A failed dispatch ends the run only while it is queued with that token. */
  predicate FailsDispatch(before: Run, after: Run, task: Token, failure: RunStatus) {
    if before.status == R.Queued && before.token == Some(task)
    then after == before.(status := failure, dispatchError := true, log := after.log)
    else after == before
  }

  lemma DispatchFailureFacts(run: Run, task: Token, failure: RunStatus, issued: Token, max: nat)
    requires Kept(run, issued, max) && (failure == R.Failed || failure == R.PartiallyFailed)
    ensures var after := DispatchFailure(run, task, failure).GetOr(run);
            Kept(after, issued, max) && (run.code != SC04 ==> FailsDispatch(run, after, task, failure))
  {
    StepKept(run, DoDispatchFailure(task, failure), issued, max);
    if run.code != SC04 {
      DispatchFailureSound(run, task, failure, issued);
    }
  }

  /** A worker finishes the run exactly when it still has it. */
  predicate Concludes(before: Run, after: Run, ok: bool, task: Token, outcome: RunStatus) {
    && (ok <==> before.status == R.Running && before.token == Some(task))
    && after == (if ok then before.(status := outcome, log := after.log) else before)
  }

  lemma ConcludeFacts(run: Run, task: Token, outcome: RunStatus, issued: Token, max: nat)
    requires Kept(run, issued, max) && run.code != SC04 && IsFinal(outcome)
    ensures var finished := FinishRun(run, task, outcome);
            Kept(finished.GetOr(run), issued, max) && Concludes(run, finished.GetOr(run), finished.Some?, task, outcome)
  {
    StepKept(run, DoFinish(task, outcome), issued, max);
    FinishSound(run, task, outcome, issued);
  }

  /** A partially failed run, and no other, is queued again with all its attempts. */
  ghost predicate Resumes(before: Run, after: Run, ok: bool, newToken: Token, issued: Token) {
    && (ok <==> before.status == R.PartiallyFailed)
    && (ok ==> WaitsUnder(after, newToken, issued) && after.attempts == 0 && after.resumes == before.resumes + 1)
  }

  lemma ResumeFacts(run: Run, newToken: Token, issued: Token, max: nat)
    requires Kept(run, issued, max) && newToken >= issued && run.code == SC05
    ensures var resumed := ResumeRun(run, newToken);
            Kept(resumed.GetOr(run), newToken + 1, max) &&
                Resumes(run, resumed.GetOr(run), resumed.Some?, newToken, issued)
  {
    StepKept(run, DoResume(newToken), issued, max);
    if run.status == R.PartiallyFailed {
      ResumeSound(run, newToken, issued);
      ResumedColumns(run, newToken);
    }
  }

  /** A run whose dispatch failed before any start, and no other, is queued again. */
  ghost predicate Reschedules(before: Run, after: Run, ok: bool, newToken: Token, issued: Token) {
    && (ok ==>
          before.status == R.Failed && !before.started && before.dispatchError &&
          WaitsUnder(after, newToken, issued) && after.attempts == 0)
    && (before.code != SC04 && before.status == R.Failed && !before.started && before.dispatchError ==> ok)
  }

  lemma RescheduleFacts(run: Run, newToken: Token, issued: Token, max: nat)
    requires Kept(run, issued, max) && newToken >= issued && run.code != SC05
    ensures var queued := RescheduleRun(run, newToken);
            Kept(queued.GetOr(run), newToken + 1, max) &&
                Reschedules(run, queued.GetOr(run), queued.Some?, newToken, issued)
  {
    StepKept(run, DoReschedule(newToken), issued, max);
    if run.code != SC04 {
      RescheduleSound(run, newToken, issued);
    }
  }

  /** A claim puts the run under a token that no earlier delivery has, one attempt later; a stale run that is not
      claimed ends without a token; and a run that is not stale is left alone. */
  ghost predicate Reconciles(before: Run, after: Run, claim: Option<Token>, newToken: Token, issued: Token, max: nat) {
    && (claim.Some? ==>
        claim == Some(newToken) && WaitsUnder(after, newToken, issued) && after.attempts == before.attempts + 1 <= max)
    && (before.code != SC04 && IsStale(before) && claim.None? ==> after.token == None && !IsActive(after.status))
    && (!IsStale(before) ==> claim.None? && after == before)
  }

  function ClaimOf(result: Reconciled): Option<Token> {
    if result.Requeued? then Some(result.token) else None
  }

  lemma ReconcileFacts(run: Run, newToken: Token, ambiguous: bool, newItems: bool, issued: Token, max: nat)
    requires Kept(run, issued, max) && newToken >= issued
    ensures var result := ReconcileRun(run, newToken, max, ambiguous, newItems);
            && Kept(ReconciledRun(result, run), newToken + 1, max)
            && Reconciles(run, ReconciledRun(result, run), ClaimOf(result), newToken, issued, max)
  {
    StepKept(run, DoReconcile(newToken, ambiguous, newItems), issued, max);
    ReconcileProgress(run, newToken, ambiguous, newItems, max);
    ReconcileColumns(run, newToken, ambiguous, newItems, max);
    if run.code != SC04 {
      ReconcileSound(run, newToken, max, ambiguous, newItems, issued);
    }
  }

  class RunRow {
    const code: Module
    var status: RunStatus
    var token: Option<Token>
    var dispatchStarted: bool
    var published: bool
    var started: bool
    var dispatchError: bool
    var attempts: nat
    var resumes: nat
    const events: Log<Key>
    const max: nat
    ghost var issued: Token

    ghost predicate Logged()
      reads this, events
    {
      Sequenced(events.events) && KeysOnce(events.events)
    }

    ghost predicate Valid()
      reads this, events
    {
      Logged() && Kept(Value(), issued, max)
    }

    function Value(): Run
      reads this, events
    {
      Run(code, status, token, dispatchStarted, published, started, dispatchError, attempts, resumes, events.events)
    }

    /** A new run is queued with a token, and its first two events are recorded. */
    constructor (code: Module, newToken: Token, scheduled: bool, max: nat)
      requires max >= 1
      ensures Valid() && Value() == NewRun(code, newToken, scheduled) && fresh(events)
      ensures this.max == max && issued == newToken + 1
    {
      this.code, status, token, this.max := code, R.Queued, Some(newToken), max;
      dispatchStarted, published, started, dispatchError, attempts, resumes := false, false, false, false, 0, 0;
      events := new Log<Key>();
      issued := newToken + 1;
      new;
      RecordCreation(newToken, scheduled);
      if code != SC04 {
        NewRunSound(code, newToken, scheduled);
      }
    }

    method RecordCreation(newToken: Token, scheduled: bool)
      requires events.events == []
      modifies events
      ensures Logged() && events.events == FirstEvents(newToken, scheduled)
    {
      var content := Content(None, Some(R.Queued), Some(newToken), None, if scheduled then "scheduler" else "web");
      FirstRecords(newToken, content);
      var _, _ := events.RecordRunEvent(Key.Created, content, NO_CONTEXT, None, 0);
      assert events.events == [Event(1, Key.Created, content, NO_CONTEXT, 0)];
      var _, _ := events.RecordRunEvent(QueuedFirst(newToken), content, NO_CONTEXT, None, 0);
    }

    /** Roll the columns back. */
    method Restore(before: Run)
      requires Logged() && before.code == code && before.log == events.events
      modifies this
      ensures issued == old(issued)
      ensures Logged() && Value() == before && events.events == old(events.events)
    {
      status, token, dispatchStarted, published :=
          before.status, before.token, before.dispatchStarted, before.published;
      started, dispatchError, attempts, resumes :=
          before.started, before.dispatchError, before.attempts, before.resumes;
    }

    /** Record an event; a conflict raises, and the transaction that began with `before` is rolled back. */
    method Record(key: Key, previous: Option<RunStatus>, task: Option<Token>, attempt: Option<nat>, facts: string,
                  before: Run)
      returns (ok: bool)
      requires Logged() && before.code == code && before.log == events.events
      modifies this, events
      ensures issued == old(issued)
      ensures Logged()
      ensures var noted := Note(old(Value()), key, previous, task, attempt, facts);
              ok == noted.Some? && Value() == (if ok then noted.value else before)
    {
      var result, created :=
          events.RecordRunEvent(key, Content(previous, Some(status), task, attempt, facts), NO_CONTEXT, None, 0);
      ok := result.Some?;
      if !ok {
        Restore(before);
      }
    }

    // ----- Dispatch -----

    method DispatchRun(newToken: Token) returns (token': Option<Token>, claimed: bool)
      requires Valid() && newToken >= issued
      modifies this, events
      ensures Valid() && issued == newToken + 1
      ensures var d := DispatchBegin(old(Value()), newToken);
              && claimed == d.Claimed? && Value() == DispatchedRun(d, old(Value()))
              && token' == (if d.Refused? then None else Some(d.token))
      ensures code != SC04 ==> Dispatches(old(Value()), Value(), claimed)
    {
      DispatchFacts(Value(), newToken, issued, max);
      issued := newToken + 1;
      var before := Value();
      if status != R.Queued {
        return None, false;
      }
      if published || dispatchStarted {
        return token, false;
      }
      var task := if token.Some? then token.value else newToken;
      token := Some(task);
      dispatchStarted := true;
      claimed := Record(DispatchStarted(task), Some(R.Queued), Some(task), None, "started", before);
      token' := if claimed then Some(task) else None;
    }

    method RecordDispatchFailure(task: Token, failure: RunStatus)
      requires Valid() && (failure == R.Failed || failure == R.PartiallyFailed)
      modifies this, events
      ensures Valid() && issued == old(issued)
      ensures Value() == DispatchFailure(old(Value()), task, failure).GetOr(old(Value()))
      ensures code != SC04 ==> FailsDispatch(old(Value()), Value(), task, failure)
    {
      DispatchFailureFacts(Value(), task, failure, issued, max);
      FailQueued(task, failure);
    }

    method FailQueued(task: Token, failure: RunStatus)
      requires Logged()
      modifies this, events
      ensures Logged() && issued == old(issued)
      ensures Value() == DispatchFailure(old(Value()), task, failure).GetOr(old(Value()))
    {
      var before := Value();
      if token != Some(task) || status != R.Queued {
        return;
      }
      status := failure;
      dispatchError := true;
      var _ := Record(DispatchFailed(task), Some(R.Queued), Some(task), None, "failed", before);
    }

    method RecordDispatchSuccess(task: Token)
      requires Valid()
      modifies this, events
      ensures Valid() && issued == old(issued)
      ensures Value() == DispatchSuccess(old(Value()), task).GetOr(old(Value()))
      ensures published && !old(published) ==> old(token) == Some(task) && token == old(token)
    {
      StepKept(Value(), DoDispatchSuccess(task), issued, max);
      var before := Value();
      if token != Some(task) {
        return;
      }
      if !published {
        published := true;
      }
      var _ := Record(BrokerPublished(task), None, Some(task), None, "published", before);
    }

    method RecordRecoveryPublishFailure(task: Token)
      requires Valid()
      modifies this, events
      ensures Valid() && issued == old(issued)
      ensures Value() == RecoveryPublishFailure(old(Value()), task).GetOr(old(Value()))
    {
      StepKept(Value(), DoPublishFailure(task), issued, max);
      if token != Some(task) || status != R.Queued {
        return;
      }
      var _ := Record(PublishFailed(task), None, Some(task), Some(attempts), "publish_failed", Value());
    }

    // ----- Deliveries -----

    method Ignoring(key: Key, task: Token, facts: string)
      requires Logged()
      modifies this, events
      ensures issued == old(issued)
      ensures Logged() && !Ignore(old(Value()), key, Some(task), facts).Execute?
      ensures Value() == StartedRun(Ignore(old(Value()), key, Some(task), facts), old(Value()))
    {
      var _ := Record(key, None, Some(task), None, facts, Value());
    }

    method Quarantining(byWorker: bool, before: Run) returns (ok: bool)
      requires Logged() && before.code == code && before.log == events.events
      modifies this, events
      ensures issued == old(issued)
      ensures Logged()
      ensures ok == Quarantine(old(Value()), byWorker).Some?
      ensures Value() == Quarantine(old(Value()), byWorker).GetOr(before)
    {
      var previousStatus, previousToken := status, token;
      attempts := attempts + 1;
      token := None;
      status := R.PartiallyFailed;
      ok := Record(Quarantined(previousToken, byWorker), Some(previousStatus), previousToken, Some(attempts),
                   "quarantined", before);
    }

    /** The delivery takes the run. */
    method Begin(task: Token) returns (execute: bool)
      requires Logged()
      modifies this, events
      ensures issued == old(issued)
      ensures Logged()
      ensures var running :=
              old(Value()).(token := Some(task), dispatchStarted := true, published := true, status := R.Running,
                            started := true);
              var noted := Note(running, Started(task), Some(old(status)), Some(task), None, "started");
              execute == noted.Some? && Value() == noted.GetOr(old(Value()))
    {
      var before := Value();
      var previous := status;
      token, dispatchStarted, published := Some(task), true, true;
      status, started := R.Running, true;
      execute := Record(Started(task), Some(previous), Some(task), None, "started", before);
    }

    /** The start of a SC-05 or SC-20 worker; the result is whether it executes. */
    method PrepareOperation(task: Token, redelivered: bool) returns (execute: bool)
      requires Valid() && code != SC04
      modifies this, events
      ensures Valid() && issued == old(issued)
      ensures execute == StartExternal(old(Value()), task, redelivered).Execute?
      ensures Value() == StartedRun(StartExternal(old(Value()), task, redelivered), old(Value()))
      ensures Takes(old(Value()), Value(), execute, task, redelivered)
    {
      StartFacts(Value(), task, redelivered, issued, max);
      execute := TakeDelivery(task, redelivered);
    }

    method TakeDelivery(task: Token, redelivered: bool) returns (execute: bool)
      requires Logged() && code != SC04
      modifies this, events
      ensures Logged() && issued == old(issued)
      ensures execute == StartExternal(old(Value()), task, redelivered).Execute?
      ensures Value() == StartedRun(StartExternal(old(Value()), task, redelivered), old(Value()))
    {
      execute := false;
      if token.Some? && token != Some(task) {
        Ignoring(IgnoredSuperseded(task), task, "superseded");
        return;
      }
      if !IsActive(status) {
        Ignoring(IgnoredTerminal(task, if code == SC05 then Some(status) else None), task, "terminal");
        return;
      }
      if status != R.Running {
        execute := Begin(task);
      } else if redelivered {
        Interrupted(task);
      } else {
        Ignoring(IgnoredRunning(task), task, "already_running");
      }
    }

    /** A redelivery that finds its run still running. */
    method Interrupted(task: Token)
      requires Logged()
      modifies this, events
      ensures Logged() && issued == old(issued)
      ensures Value() ==
              Quarantine(old(Value()).(token := Some(task), dispatchStarted := true, published := true),
                         true).GetOr(old(Value()))
    {
      var before := Value();
      token, dispatchStarted, published := Some(task), true, true;
      var _ := Quarantining(true, before);
    }

    /** The start of a SC-04 worker, which takes up an interrupted run until its attempts are used up. */
    method StartTriageRun(task: Token, redelivered: bool) returns (execute: bool)
      requires Valid() && code == SC04
      modifies this, events
      ensures Valid() && issued == old(issued)
      ensures execute == StartTriage(old(Value()), task, redelivered, max).Execute?
      ensures Value() == StartedRun(StartTriage(old(Value()), task, redelivered, max), old(Value()))
      ensures TriageStarts(old(Value()), Value(), execute, task, redelivered, max)
    {
      TriageFacts(Value(), task, redelivered, issued, max);
      execute := false;
      if token.Some? && token != Some(task) {
        Ignoring(IgnoredSuperseded(task), task, "superseded");
        return;
      }
      if status == R.Running && redelivered {
        execute := TakeUpRun(task);
      } else if status != R.Pending && status != R.Queued {
        Ignoring(IgnoredTerminal(task, Some(status)), task, "not_executable");
      } else {
        execute := Begin(task);
      }
    }

    method TakeUpRun(task: Token) returns (execute: bool)
      requires Logged() && status == R.Running
      modifies this, events
      ensures issued == old(issued)
      ensures Logged() && execute == TakeUp(old(Value()), task, max).Execute?
      ensures Value() == StartedRun(TakeUp(old(Value()), task, max), old(Value()))
    {
      if attempts >= max {
        var ended := GiveUp(task);
        execute := false;
      } else {
        execute := Continue(task);
      }
    }

    method GiveUp(task: Token) returns (ok: bool)
      requires Logged()
      modifies this, events
      ensures issued == old(issued)
      ensures Logged()
      ensures var ended := old(Value()).(token := None, dispatchStarted := true, published := true, status := R.Failed);
              var noted := Note(ended, Terminal(task, R.Failed), Some(R.Running), Some(task), None,
                                "recovery_exhausted");
              ok == noted.Some? && Value() == noted.GetOr(old(Value()))
    {
      var before := Value();
      token, dispatchStarted, published, status := None, true, true, R.Failed;
      ok := Record(Terminal(task, R.Failed), Some(R.Running), Some(task), None, "recovery_exhausted", before);
    }

    method Continue(task: Token) returns (ok: bool)
      requires Logged()
      modifies this, events
      ensures issued == old(issued)
      ensures Logged()
      ensures var resumed :=
              old(Value()).(token := Some(task), dispatchStarted := true, published := true,
                            attempts := old(attempts) + 1);
              var noted := Note(resumed, RedeliveryResumed(task, resumed.attempts), Some(R.Running), Some(task),
                                Some(resumed.attempts), "resumed");
              ok == noted.Some? && Value() == noted.GetOr(old(Value()))
    {
      var before := Value();
      token, dispatchStarted, published, attempts := Some(task), true, true, attempts + 1;
      ok := Record(RedeliveryResumed(task, attempts), Some(R.Running), Some(task), Some(attempts), "resumed", before);
    }

    // ----- A worker's guarded transactions -----

    method BeginAttempt(task: Token, id: nat) returns (ok: bool)
      requires Valid()
      modifies this, events
      ensures Valid() && issued == old(issued)
      ensures ok == StartAttempt(old(Value()), task, id).Some?
      ensures Value() == StartAttempt(old(Value()), task, id).GetOr(old(Value()))
      ensures ok && code != SC04 ==> old(status) == R.Running && old(token) == Some(task)
      ensures code != SC04 && !HasKey(old(events.events), AttemptStarted(id)) ==>
                && (ok <==> old(status) == R.Running && old(token) == Some(task))
                && (ok ==> OneMoreEvent(old(Value()), Value(), AttemptStarted(id)))
    {
      StepKept(Value(), DoStartAttempt(task, id), issued, max);
      if code != SC04 {
        AttemptsMean(Value(), task, id, true, issued);
      }
      if status != R.Running || (token.Some? && token != Some(task)) {
        return false;
      }
      ok := Record(AttemptStarted(id), None, Some(task), Some(id), "started", Value());
    }

    method EndAttempt(task: Token, id: nat, succeeded: bool) returns (ok: bool)
      requires Valid()
      modifies this, events
      ensures Valid() && issued == old(issued)
      ensures ok == FinishAttempt(old(Value()), task, id, succeeded).Some?
      ensures Value() == FinishAttempt(old(Value()), task, id, succeeded).GetOr(old(Value()))
      ensures ok && code != SC04 ==> old(status) == R.Running && old(token) == Some(task)
      ensures code != SC04 && !HasKey(old(events.events), AttemptFinished(id)) ==>
                && (ok <==> old(status) == R.Running && old(token) == Some(task))
                && (ok ==> OneMoreEvent(old(Value()), Value(), AttemptFinished(id)))
    {
      StepKept(Value(), DoFinishAttempt(task, id, succeeded), issued, max);
      if code != SC04 {
        AttemptsMean(Value(), task, id, succeeded, issued);
      }
      if status != R.Running || (token.Some? && token != Some(task)) {
        return false;
      }
      ok := Record(AttemptFinished(id), None, Some(task), Some(id), if succeeded then "succeeded" else "failed",
                   Value());
    }

    method Conclude(task: Token, outcome: RunStatus) returns (ok: bool)
      requires Valid() && code != SC04 && IsFinal(outcome)
      modifies this, events
      ensures Valid() && issued == old(issued)
      ensures ok == FinishRun(old(Value()), task, outcome).Some?
      ensures Value() == FinishRun(old(Value()), task, outcome).GetOr(old(Value()))
      ensures Concludes(old(Value()), Value(), ok, task, outcome)
    {
      ConcludeFacts(Value(), task, outcome, issued, max);
      var before := Value();
      if status != R.Running || (if code == SC05 then token != Some(task) else token.Some? && token != Some(task)) {
        return false;
      }
      status := outcome;
      ok := Record(Terminal(task, outcome), Some(R.Running), Some(task), None, "finished", before);
    }

    // ----- People and the scheduler -----

    /** The columns of a run that waits for its dispatch. */
    method QueueAgain(newToken: Token)
      modifies this
      ensures Value() ==
              old(Value()).(status := R.Queued, token := Some(newToken), dispatchStarted := false, published := false,
                            attempts := 0)
      ensures issued == old(issued)
    {
      status := R.Queued;
      token := Some(newToken);
      dispatchStarted := false;
      published := false;
      attempts := 0;
    }

    method Resume(newToken: Token) returns (ok: bool)
      requires Valid() && code == SC05 && newToken >= issued
      modifies this, events
      ensures Valid() && issued == newToken + 1
      ensures ok == ResumeRun(old(Value()), newToken).Some?
      ensures Value() == ResumeRun(old(Value()), newToken).GetOr(old(Value()))
      ensures Resumes(old(Value()), Value(), ok, newToken, old(issued))
    {
      ResumeFacts(Value(), newToken, issued, max);
      ok := QueueResumed(newToken);
      issued := newToken + 1;
    }

    method QueueResumed(newToken: Token) returns (ok: bool)
      requires Logged()
      modifies this, events
      ensures Logged() && issued == old(issued)
      ensures ok == ResumeRun(old(Value()), newToken).Some? &&
              Value() == ResumeRun(old(Value()), newToken).GetOr(old(Value()))
    {
      var before := Value();
      if status != R.PartiallyFailed {
        return false;
      }
      resumes := resumes + 1;
      QueueAgain(newToken);
      ok := Record(Resumed(newToken), Some(R.PartiallyFailed), Some(newToken), Some(resumes), "queued", before);
    }

    method PrepareScheduledRun(newToken: Token) returns (ok: bool)
      requires Valid() && code != SC05 && newToken >= issued
      modifies this, events
      ensures Valid() && issued == newToken + 1
      ensures ok == RescheduleRun(old(Value()), newToken).Some?
      ensures Value() == RescheduleRun(old(Value()), newToken).GetOr(old(Value()))
      ensures Reschedules(old(Value()), Value(), ok, newToken, old(issued))
    {
      RescheduleFacts(Value(), newToken, issued, max);
      issued := newToken + 1;
      var before := Value();
      var dispatchFailedBeforeStart := status == R.Failed && !started && dispatchError;
      if !dispatchFailedBeforeStart {
        return false;
      }
      dispatchError := false;
      QueueAgain(newToken);
      ok := Record(Rescheduled(newToken), Some(R.Failed), Some(newToken), None, "requeued", before);
    }

    // ----- The reconciler -----

    method Claim(newToken: Token) returns (ok: bool)
      requires Logged()
      modifies this, events
      ensures issued == old(issued)
      ensures Logged()
      ensures match ClaimRecovery(old(Value()), newToken)
              case Requeued(run, t) => ok && t == newToken && Value() == run
              case _ => !ok && Value() == old(Value())
    {
      var before := Value();
      var previous := status;
      status := R.Queued;
      token := Some(newToken);
      dispatchStarted := true;
      published := false;
      attempts := attempts + 1;
      ok := Record(RecoveryClaimed(newToken), Some(previous), Some(newToken), Some(attempts), "requeued", before);
    }

    method FenceOff() returns (ok: bool)
      requires Logged()
      modifies this, events
      ensures issued == old(issued)
      ensures Logged()
      ensures match Fence(old(Value()))
              case Fails(run) => ok && Value() == run
              case _ => !ok && Value() == old(Value())
    {
      var before := Value();
      var previousStatus, previousToken := status, token;
      token := None;
      status := R.Failed;
      ok := Record(Fenced(previousToken), Some(previousStatus), previousToken, Some(attempts), "failed", before);
    }

    method ReconcileOne(newToken: Token, ambiguous: bool, newItems: bool) returns (claim: Option<Token>)
      requires Valid() && newToken >= issued
      modifies this, events
      ensures Valid() && issued == newToken + 1
      ensures var result := ReconcileRun(old(Value()), newToken, max, ambiguous, newItems);
              && claim == ClaimOf(result)
              && Value() == ReconciledRun(result, old(Value()))
      ensures Reconciles(old(Value()), Value(), claim, newToken, old(issued), max)
    {
      ReconcileFacts(Value(), newToken, ambiguous, newItems, issued, max);
      issued := newToken + 1;
      claim := None;
      var stale := (status == R.Pending && code == SC04) || (status == R.Queued && !published) || status == R.Running;
      if stale {
        var recovered := Recover(newToken, ambiguous, newItems);
        if recovered {
          claim := Some(newToken);
        }
      }
    }

    /** Requeue, isolate or fail a stale run. */
    method Recover(newToken: Token, ambiguous: bool, newItems: bool) returns (recovered: bool)
      requires Logged() && IsStale(Value())
      modifies this, events
      ensures Logged() && issued == old(issued)
      ensures var result := ReconcileRun(old(Value()), newToken, max, ambiguous, newItems);
              recovered == result.Requeued? && Value() == ReconciledRun(result, old(Value()))
    {
      recovered := false;
      if status == R.Pending {
        if newItems {
          recovered := Claim(newToken);
        } else {
          var _ := FenceOff();
        }
      } else if status == R.Queued {
        if attempts >= max {
          if code == SC05 && ambiguous {
            var before := Value();
            var _ := Quarantining(false, before);
          } else {
            var _ := FenceOff();
          }
        } else {
          recovered := Claim(newToken);
        }
      } else if code != SC04 {
        var before := Value();
        var _ := Quarantining(false, before);
      } else if attempts >= max {
        var _ := FenceOff();
      } else {
        recovered := Claim(newToken);
      }
    }
  }
}
