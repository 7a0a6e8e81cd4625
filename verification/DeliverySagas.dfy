/** One live RPA operation per client, and what the client's row says about it. */
module DeliverySagas {
  import opened Options
  import opened DeliveryRuns
  import opened DeliveryHistories
  import opened DeliveryBounds
  import opened DeliveryWorld
  import opened DeliverySteps
  import R = Runs

  /** Still to be executed, being executed, or waiting to be resumed. */
  predicate Live(status: RunStatus) {
    IsActive(status) || status == R.PartiallyFailed
  }

  predicate ClientOk(client: Client) {
    && (client.status == R.Blocked ==> client.snapshot)
    && (client.status == R.Active ==> !client.snapshot)
  }

  /** The client's row while an operation on it is live. */
  predicate OperationOk(action: Action, run: Run, client: Client) {
    && run.code == SC05
    && (Live(run.status) ==>
          && client.snapshot == (action == Unblock)
          && client.status == (if run.status == R.PartiallyFailed || run.resumes > 0 then R.Partial else Prior(action)))
  }

  predicate RowsOk(w: World) {
    && (forall r <- w.operations :: r in w.runs && w.operations[r].client in w.clients
          && OperationOk(w.operations[r].action, w.runs[r], w.clients[w.operations[r].client]))
    && (forall r <- w.runs :: w.runs[r].code == SC05 ==> r in w.operations)
    && (forall c <- w.clients :: ClientOk(w.clients[c]))
  }

  predicate OneLive(w: World)
    requires forall r <- w.operations :: r in w.runs
  {
    forall r <- w.operations, s <- w.operations ::
      r != s && w.operations[r].client == w.operations[s].client ==> !(Live(w.runs[r].status) && Live(w.runs[s].status))
  }

  /** Only the dispatcher of a resumption reports a failure as partial. */
  predicate PublishersOk(w: World) {
    forall p <- w.publications :: w.publications[p].publisher == Dispatcher(true) ==>
      w.publications[p].run in w.runs && w.runs[w.publications[p].run].resumes > 0
  }

  predicate SagasOk(w: World) {
    RunsOk(w) && RowsOk(w) && OneLive(w) && PublishersOk(w)
  }

  // ----- One step of one operation -----

  /** Run `r` and its client's row after a step that touches nothing else of the operations. */
  predicate Touches(w: World, after: World, r: nat, client: Client)
    requires r in w.operations && r in w.runs
  {
    && after.operations == w.operations
    && r in after.runs && after.runs == w.runs[r := after.runs[r]]
    && after.clients == w.clients[w.operations[r].client := client]
  }

  /** A live operation stays within its rules, and no operation comes back to life. */
  predicate Obeys(action: Action, run: Run, client: Client, after: Run, clientAfter: Client) {
    && OperationOk(action, after, clientAfter) && ClientOk(clientAfter)
    && (Live(after.status) ==> Live(run.status))
    && (clientAfter != client ==> Live(run.status))
    && after.resumes >= run.resumes
  }

  lemma TouchedRowsOk(w: World, after: World, r: nat, client: Client)
    requires RowsOk(w) && OneLive(w) && r in w.operations && Touches(w, after, r, client)
    requires Obeys(w.operations[r].action, w.runs[r], w.clients[w.operations[r].client], after.runs[r], client)
    ensures RowsOk(after) && OneLive(after)
  {
    var c := w.operations[r].client;
    forall s | s in after.operations
      ensures s in after.runs && after.operations[s].client in after.clients
      ensures OperationOk(after.operations[s].action, after.runs[s], after.clients[after.operations[s].client])
    {
      if s != r {
        assert OperationOk(w.operations[s].action, w.runs[s], w.clients[w.operations[s].client]);
        if w.operations[s].client == c && client != w.clients[c] {
          assert !Live(w.runs[s].status);
        }
      }
    }
  }

  /** A step that only touches a run without changing its status, or a run that has no operation. */
  lemma UntouchedRowsOk(w: World, after: World, r: nat)
    requires RowsOk(w) && OneLive(w) && r in w.runs
    requires after.operations == w.operations && after.clients == w.clients && r in after.runs &&
             after.runs == w.runs[r := after.runs[r]]
    requires after.runs[r].code == w.runs[r].code
    requires r !in w.operations ||
             (after.runs[r].status == w.runs[r].status && after.runs[r].resumes == w.runs[r].resumes)
    ensures RowsOk(after) && OneLive(after)
  {
    if r in w.operations {
      assert w.clients[w.operations[r].client := w.clients[w.operations[r].client]] == w.clients;
      TouchedRowsOk(w, after, r, w.clients[w.operations[r].client]);
    }
  }

  // ----- What the transactions do to the status columns -----

  predicate SameSaga(run: Run, after: Run) {
    after.code == run.code && after.status == run.status && after.resumes == run.resumes
  }

  lemma DispatchSaga(run: Run, newToken: Token, token: Token)
    ensures DispatchBegin(run, newToken).Claimed? ==> SameSaga(run, DispatchBegin(run, newToken).run)
    ensures SameSaga(run, DispatchSuccess(run, token).GetOr(run)) &&
            SameSaga(run, RecoveryPublishFailure(run, token).GetOr(run))
  {
  }

  lemma DispatchFailureSaga(run: Run, token: Token, status: RunStatus)
    ensures var after := DispatchFailure(run, token, status).GetOr(run);
            SameSaga(run, after) || (run.status == R.Queued && SameSaga(run.(status := status), after))
  {
  }

  lemma IgnoreSaga(run: Run, key: Key, token: Option<Token>, facts: string)
    ensures SameSaga(run, StartedRun(Ignore(run, key, token, facts), run)) && !Ignore(run, key, token, facts).Isolated?
  {
  }

  lemma QuarantineSaga(run: Run, byWorker: bool)
    ensures var r := Quarantine(run, byWorker); r.Some? ==> SameSaga(run.(status := R.PartiallyFailed), r.value)
  {
  }

  lemma StartSaga(run: Run, token: Token, redelivered: bool)
    requires run.code != SC04 && run.status != R.Pending
    ensures var start := StartExternal(run, token, redelivered);
            var after := StartedRun(start, run);
            if start.Execute? then run.status == R.Queued && SameSaga(run.(status := R.Running), after)
            else if start.Isolated? then run.status == R.Running && SameSaga(run.(status := R.PartiallyFailed), after)
            else SameSaga(run, after)
  {
    if !DeliveryMatches(run, token) {
      IgnoreSaga(run, IgnoredSuperseded(token), Some(token), "superseded");
    } else if !IsActive(run.status) {
      IgnoreSaga(run, IgnoredTerminal(token, if run.code == SC05 then Some(run.status) else None), Some(token),
                 "terminal");
    } else if run.status == R.Running {
      QuarantineSaga(BindDelivery(run, token).(dispatchStarted := true, published := true), true);
      IgnoreSaga(run, IgnoredRunning(token), Some(token), "already_running");
    }
  }

  lemma ReconcileSaga(run: Run, newToken: Token, max: nat, ambiguous: bool)
    requires run.code == SC05 && run.status != R.Pending
    ensures var result := ReconcileRun(run, newToken, max, ambiguous, false);
            var after := ReconciledRun(result, run);
            match result
            case Requeued(_, _) => SameSaga(run, after)
            case Isolates(_) => IsActive(run.status) && SameSaga(run.(status := R.PartiallyFailed), after)
            case Fails(_) => !ambiguous && run.status == R.Queued && SameSaga(run.(status := R.Failed), after)
            case _ => after == run
  {
    QuarantineSaga(run, false);
  }

  // ----- Every step keeps the rules -----

  /** Only the row of run `r` changes. */
  predicate OnlyRun(w: World, after: World, r: nat)
    requires r in w.runs
  {
    after.operations == w.operations && r in after.runs && after.runs == w.runs[r := after.runs[r]]
  }

  predicate Kept(w: World, step: Step) {
    RowsOk(Next(w, step)) && OneLive(Next(w, step))
  }

  lemma AddClientKept(w: World, step: Step)
    requires RowsOk(w) && OneLive(w) && step.AddClient?
    ensures Kept(w, step)
  {
  }

  lemma CreateScanKept(w: World, step: Step)
    requires RowsOk(w) && OneLive(w) && step.CreateScan?
    ensures Kept(w, step)
  {
    if step.run !in w.runs {
      ScanAddedKept(w, Next(w, step), step.run);
    }
  }

  lemma ScanAddedKept(w: World, after: World, r: nat)
    requires RowsOk(w) && OneLive(w) && r !in w.runs && r in after.runs && after.runs == w.runs[r := after.runs[r]]
    requires after.runs[r].code == SC20 && after.operations == w.operations && after.clients == w.clients
    ensures RowsOk(after) && OneLive(after)
  {
  }

  lemma CreateRpaKept(w: World, step: Step)
    requires RowsOk(w) && OneLive(w) && step.CreateRpa?
    ensures Kept(w, step)
  {
    var after := Next(w, step);
    if after != w {
      assert ClientOk(w.clients[step.client]);
      forall s | s in w.operations && w.operations[s].client == step.client
        ensures !Live(w.runs[s].status)
      {
        assert OperationOk(w.operations[s].action, w.runs[s], w.clients[step.client]);
      }
    }
  }

  lemma DispatchKept(w: World, step: Step)
    requires RowsOk(w) && OneLive(w) && (step.Dispatch? || step.Publish?)
    ensures Kept(w, step)
  {
    if step.Dispatch? && RunEffect(w, step).Some? {
      DispatchSaga(w.runs[step.run], w.next, 0);
      UntouchedRowsOk(w, Next(w, step), step.run);
    }
  }

  lemma NotePublicationEffect(w: World, step: Step)
    requires step.NotePublication? && RunEffect(w, step).Some?
    ensures var p, after := w.publications[step.publisher], Next(w, step);
            var failure := if p.publisher == Dispatcher(true) then R.PartiallyFailed else R.Failed;
            && OnlyRun(w, after, p.run) && after.clients == w.clients
            && (SameSaga(w.runs[p.run], after.runs[p.run])
                || (&& p.state == Broken && p.publisher.Dispatcher? && w.runs[p.run].status == R.Queued
                    && SameSaga(w.runs[p.run].(status := failure), after.runs[p.run])))
  {
    var p := w.publications[step.publisher];
    DispatchSaga(w.runs[p.run], w.next, p.token);
    DispatchFailureSaga(w.runs[p.run], p.token,
                        if p.publisher == Dispatcher(true) then R.PartiallyFailed else R.Failed);
  }

  lemma NothingNoted(w: World, step: Step)
    requires step.NotePublication? && RunEffect(w, step).None?
    ensures Next(w, step) == w
  {
  }

  lemma NotePublicationKept(w: World, step: Step)
    requires RowsOk(w) && OneLive(w) && PublishersOk(w) && step.NotePublication?
    ensures Kept(w, step)
  {
    if RunEffect(w, step).Some? {
      NotePublicationEffect(w, step);
      NotedKept(w, Next(w, step), w.publications[step.publisher]);
    } else {
      NothingNoted(w, step);
    }
  }

  lemma NotedKept(w: World, after: World, p: Publication)
    requires RowsOk(w) && OneLive(w) && p.run in w.runs && OnlyRun(w, after, p.run) && after.clients == w.clients
    requires p.publisher == Dispatcher(true) ==> w.runs[p.run].resumes > 0
    requires var failure := if p.publisher == Dispatcher(true) then R.PartiallyFailed else R.Failed;
             SameSaga(w.runs[p.run], after.runs[p.run])
             || (w.runs[p.run].status == R.Queued && SameSaga(w.runs[p.run].(status := failure), after.runs[p.run]))
    ensures RowsOk(after) && OneLive(after)
  {
    if SameSaga(w.runs[p.run], after.runs[p.run]) {
      UntouchedRowsOk(w, after, p.run);
    } else {
      FailureKept(w, after, p.run, if p.publisher == Dispatcher(true) then R.PartiallyFailed else R.Failed);
    }
  }

  lemma FailureKept(w: World, after: World, r: nat, failure: RunStatus)
    requires RowsOk(w) && OneLive(w) && r in w.runs && OnlyRun(w, after, r) && after.clients == w.clients
    requires w.runs[r].status == R.Queued && SameSaga(w.runs[r].(status := failure), after.runs[r])
    requires failure == R.Failed || (failure == R.PartiallyFailed && w.runs[r].resumes > 0)
    ensures RowsOk(after) && OneLive(after)
  {
    if r in w.operations {
      var client := w.clients[w.operations[r].client];
      assert w.clients[w.operations[r].client := client] == w.clients;
      assert OperationOk(w.operations[r].action, w.runs[r], client) && ClientOk(client);
      TouchedRowsOk(w, after, r, client);
    } else {
      UntouchedRowsOk(w, after, r);
    }
  }

  function IsolatedClients(w: World, r: nat): map<nat, Client>
    requires r in w.runs
  {
    if w.runs[r].code == SC05 && r in w.operations && w.operations[r].client in w.clients
    then w.clients[w.operations[r].client := w.clients[w.operations[r].client].(status := R.Partial)]
    else w.clients
  }

  lemma IsolateSaga(w: World, r: nat)
    requires r in w.runs
    ensures var after := IsolateRun(w, r);
            && after.runs == w.runs && after.operations == w.operations && after.publications == w.publications
            && after.clients == IsolatedClients(w, r)
  {
  }

  /** A quarantined operation: the run is partially failed and the client partial. */
  lemma IsolationKept(w: World, after: World, r: nat)
    requires RowsOk(w) && OneLive(w) && r in w.runs && IsActive(w.runs[r].status)
    requires after.operations == w.operations && r in after.runs && after.runs == w.runs[r := after.runs[r]]
    requires SameSaga(w.runs[r].(status := R.PartiallyFailed), after.runs[r])
    requires after.clients == IsolatedClients(w, r)
    ensures RowsOk(after) && OneLive(after)
  {
    if r in w.operations {
      var client := w.clients[w.operations[r].client];
      assert OperationOk(w.operations[r].action, w.runs[r], client) && ClientOk(client);
      TouchedRowsOk(w, after, r, client.(status := R.Partial));
    } else {
      UntouchedRowsOk(w, after, r);
    }
  }

  lemma StatusKept(w: World, after: World, r: nat)
    requires RowsOk(w) && OneLive(w) && r in w.runs
    requires after.operations == w.operations && after.clients == w.clients && r in after.runs &&
             after.runs == w.runs[r := after.runs[r]]
    requires SameSaga(w.runs[r], after.runs[r])
             || (w.runs[r].status == R.Queued && SameSaga(w.runs[r].(status := R.Running), after.runs[r]))
    ensures RowsOk(after) && OneLive(after)
  {
    if r in w.operations {
      var client := w.clients[w.operations[r].client];
      assert OperationOk(w.operations[r].action, w.runs[r], client) && ClientOk(client);
      assert w.clients[w.operations[r].client := client] == w.clients;
      TouchedRowsOk(w, after, r, client);
    } else {
      UntouchedRowsOk(w, after, r);
    }
  }

  lemma DeliverEffect(w: World, step: Step)
    requires step.Deliver? && RunEffect(w, step).Some? && w.runs[step.run].status != R.Pending
    ensures var r, after := step.run, Next(w, step);
            && OnlyRun(w, after, r)
            && if StartExternal(w.runs[r], step.token, step.redelivered).Isolated? then
                 && w.runs[r].status == R.Running && SameSaga(w.runs[r].(status := R.PartiallyFailed), after.runs[r])
                 && after.clients == IsolatedClients(w, r)
               else
                 && after.clients == w.clients
                 && (SameSaga(w.runs[r], after.runs[r])
                     || (w.runs[r].status == R.Queued && SameSaga(w.runs[r].(status := R.Running), after.runs[r])))
  {
    DeliverFollows(w, step);
    StartSaga(w.runs[step.run], step.token, step.redelivered);
    IsolateSaga(Put(w, step.run, DoDeliver(step.token, step.redelivered)), step.run);
  }

  lemma DeliverKept(w: World, step: Step)
    requires RowsOk(w) && OneLive(w) && step.Deliver? && (step.run in w.runs ==> w.runs[step.run].status != R.Pending)
    ensures Kept(w, step)
  {
    if RunEffect(w, step).Some? {
      DeliverEffect(w, step);
      if StartExternal(w.runs[step.run], step.token, step.redelivered).Isolated? {
        IsolationKept(w, Next(w, step), step.run);
      } else {
        StatusKept(w, Next(w, step), step.run);
      }
    }
  }

  lemma AttemptSaga(run: Run, token: Token, id: nat, ok: bool)
    ensures SameSaga(run, StartAttempt(run, token, id).GetOr(run)) &&
            SameSaga(run, FinishAttempt(run, token, id, ok).GetOr(run))
  {
  }

  lemma AttemptClients(w: World, step: Step)
    requires step.Prepare? || step.Call? || step.Conclude?
    ensures Next(w, step).clients == w.clients && Next(w, step).operations == w.operations
  {
  }

  lemma AttemptEffect(w: World, step: Step)
    requires (step.Prepare? || step.Call? || step.Conclude?) && WorkerIsKnown(w, step.worker)
    ensures var r, after := w.workers[step.worker].run, Next(w, step);
            OnlyRun(w, after, r) && after.clients == w.clients && SameSaga(w.runs[r], after.runs[r])
  {
    var worker := w.workers[step.worker];
    AttemptFollows(w, step);
    AttemptClients(w, step);
    if step.Prepare? {
      AttemptSaga(w.runs[worker.run], worker.token, step.attempt, true);
    } else if step.Conclude? {
      AttemptSaga(w.runs[worker.run], worker.token, worker.attempt, step.ok);
    }
  }

  lemma AttemptKept(w: World, step: Step)
    requires RowsOk(w) && OneLive(w) && (step.Prepare? || step.Call? || step.Conclude?)
    ensures Kept(w, step)
  {
    if WorkerIsKnown(w, step.worker) {
      AttemptEffect(w, step);
      StatusKept(w, Next(w, step), w.workers[step.worker].run);
    }
  }

  lemma FinishSaga(run: Run, token: Token, status: RunStatus)
    ensures var r := FinishRun(run, token, status);
            r.Some? ==> run.status == R.Running && SameSaga(run.(status := status), r.value)
  {
  }

  function FinalClients(w: World, r: nat, outcome: Outcome): map<nat, Client>
    requires r in w.runs
  {
    if w.runs[r].code == SC05 && r in w.operations && w.operations[r].client in w.clients
    then w.clients[w.operations[r].client :=
                   FinalClient(w.clients[w.operations[r].client], w.operations[r].action, outcome)]
    else w.clients
  }

  lemma FinishEffect(w: World, step: Step)
    requires step.Finish? && WorkerIsKnown(w, step.worker)
    ensures var r, after := w.workers[step.worker].run, Next(w, step);
            && OnlyRun(w, after, r)
            && ((after.runs == w.runs && after.clients == w.clients)
                || (&& w.runs[r].status == R.Running &&
                    SameSaga(w.runs[r].(status := FinalStatus(step.outcome)), after.runs[r])
                    && after.clients == FinalClients(w, r, step.outcome)
                    && !(w.runs[r].code == SC05 && step.outcome == Warnings)))
  {
    var r := w.workers[step.worker].run;
    assert w.runs[r := w.runs[r]] == w.runs;
    FinishSaga(w.runs[r], w.workers[step.worker].token, FinalStatus(step.outcome));
  }

  lemma OutcomeObeys(action: Action, run: Run, client: Client, after: Run, outcome: Outcome)
    requires OperationOk(action, run, client) && ClientOk(client) && run.status == R.Running && outcome != Warnings
    requires SameSaga(run.(status := FinalStatus(outcome)), after)
    ensures Obeys(action, run, client, after, FinalClient(client, action, outcome))
  {
  }

  lemma FinishKept(w: World, step: Step)
    requires RowsOk(w) && OneLive(w) && step.Finish?
    ensures Kept(w, step)
  {
    if WorkerIsKnown(w, step.worker) {
      FinishEffect(w, step);
      OutcomeKept(w, Next(w, step), w.workers[step.worker].run, step.outcome);
    }
  }

  lemma OutcomeKept(w: World, after: World, r: nat, outcome: Outcome)
    requires RowsOk(w) && OneLive(w) && r in w.runs && OnlyRun(w, after, r)
    requires (after.runs == w.runs && after.clients == w.clients)
             || (&& w.runs[r].status == R.Running && SameSaga(w.runs[r].(status := FinalStatus(outcome)), after.runs[r])
                 && after.clients == FinalClients(w, r, outcome) && !(w.runs[r].code == SC05 && outcome == Warnings))
    ensures RowsOk(after) && OneLive(after)
  {
    if after.runs == w.runs && after.clients == w.clients {
      StatusKept(w, after, r);
    } else if r in w.operations {
      var client, action := w.clients[w.operations[r].client], w.operations[r].action;
      assert OperationOk(action, w.runs[r], client) && ClientOk(client);
      OutcomeObeys(action, w.runs[r], client, after.runs[r], outcome);
      TouchedRowsOk(w, after, r, FinalClient(client, action, outcome));
    } else {
      UntouchedRowsOk(w, after, r);
    }
  }

  lemma ReconcileEffect(w: World, step: Step)
    requires step.Reconcile? && RunEffect(w, step).Some?
    ensures var r, after := step.run, Next(w, step);
            var result := ReconcileRun(w.runs[r], w.next, w.max, IsAmbiguous(w, r), false);
            && OnlyRun(w, after, r) && after.runs[r] == ReconciledRun(result, w.runs[r])
            && after.clients == if result.Isolates? then IsolatedClients(w, r) else w.clients
  {
    ReconcileFollows(w, step);
    ReconcileClients(w, step);
  }

  lemma ReconcileClients(w: World, step: Step)
    requires step.Reconcile? && RunEffect(w, step).Some?
    ensures var r, after := step.run, Next(w, step);
            && after.operations == w.operations
            && after.clients ==
                 if ReconcileRun(w.runs[r], w.next, w.max, IsAmbiguous(w, r), false).Isolates?
                     then IsolatedClients(w, r) else w.clients
  {
    var r := step.run;
    IsolateSaga(Put(w, r, DoReconcile(w.next, IsAmbiguous(w, r), false)), r);
    IsolateCode(w.runs[r], w.next, w.max, IsAmbiguous(w, r));
  }

  lemma IsolateCode(run: Run, newToken: Token, max: nat, ambiguous: bool)
    ensures ReconciledRun(ReconcileRun(run, newToken, max, ambiguous, false), run).code == run.code
  {
  }

  lemma ReconcileKept(w: World, step: Step)
    requires RowsOk(w) && OneLive(w) && step.Reconcile? && (step.run in w.runs ==> w.runs[step.run].status != R.Pending)
    ensures Kept(w, step)
  {
    if RunEffect(w, step).Some? {
      var r := step.run;
      ReconcileEffect(w, step);
      if r in w.operations {
        ReconcileSaga(w.runs[r], w.next, w.max, IsAmbiguous(w, r));
        ReconciledKept(w, Next(w, step), r, ReconcileRun(w.runs[r], w.next, w.max, IsAmbiguous(w, r), false));
      } else {
        IsolateCode(w.runs[r], w.next, w.max, IsAmbiguous(w, r));
        UntouchedRowsOk(w, Next(w, step), r);
      }
    }
  }

  lemma ReconciledKept(w: World, after: World, r: nat, result: Reconciled)
    requires RowsOk(w) && OneLive(w) && r in w.runs && r in w.operations && OnlyRun(w, after, r)
    requires after.clients == if result.Isolates? then IsolatedClients(w, r) else w.clients
    requires match result
             case Requeued(_, _) => SameSaga(w.runs[r], after.runs[r])
             case Isolates(_) => IsActive(w.runs[r].status) &&
                 SameSaga(w.runs[r].(status := R.PartiallyFailed), after.runs[r])
             case Fails(_) => w.runs[r].status == R.Queued && SameSaga(w.runs[r].(status := R.Failed), after.runs[r])
             case _ => after.runs[r] == w.runs[r]
    ensures RowsOk(after) && OneLive(after)
  {
    var client := w.clients[w.operations[r].client];
    match result
    case Isolates(_) => IsolationKept(w, after, r);
    case Fails(_) =>
      assert OperationOk(w.operations[r].action, w.runs[r], client) && ClientOk(client);
      assert w.clients[w.operations[r].client := client] == w.clients;
      TouchedRowsOk(w, after, r, client);
    case _ => StatusKept(w, after, r);
  }

  lemma ResumeEffect(w: World, step: Step)
    requires step.Resume? && step.run in w.runs
    ensures var r, after := step.run, Next(w, step);
            && OnlyRun(w, after, r) && after.clients == w.clients
            && (after.runs == w.runs
                || (&& r in w.operations && w.runs[r].code == SC05 && w.runs[r].status == R.PartiallyFailed
                    && SameSaga(w.runs[r].(status := R.Queued, resumes := w.runs[r].resumes + 1), after.runs[r])))
  {
    assert w.runs[step.run := w.runs[step.run]] == w.runs;
  }

  lemma ResumeKept(w: World, step: Step)
    requires RowsOk(w) && OneLive(w) && step.Resume?
    ensures Kept(w, step)
  {
    if step.run in w.runs {
      ResumeEffect(w, step);
      ResumedKept(w, Next(w, step), step.run);
    }
  }

  lemma ResumedKept(w: World, after: World, r: nat)
    requires RowsOk(w) && OneLive(w) && r in w.runs && OnlyRun(w, after, r) && after.clients == w.clients
    requires after.runs == w.runs
             || (&& r in w.operations && w.runs[r].code == SC05 && w.runs[r].status == R.PartiallyFailed
                 && SameSaga(w.runs[r].(status := R.Queued, resumes := w.runs[r].resumes + 1), after.runs[r]))
    ensures RowsOk(after) && OneLive(after)
  {
    if after.runs != w.runs {
      var client := w.clients[w.operations[r].client];
      assert OperationOk(w.operations[r].action, w.runs[r], client) && ClientOk(client);
      assert w.clients[w.operations[r].client := client] == w.clients;
      TouchedRowsOk(w, after, r, client);
    }
  }

  lemma RescheduleKept(w: World, step: Step)
    requires RowsOk(w) && OneLive(w) && step.Reschedule?
    ensures Kept(w, step)
  {
    var after := Next(w, step);
    if after != w {
      assert step.run !in w.operations;
      UntouchedRowsOk(w, after, step.run);
    }
  }

  // ----- All runs of the world -----

  predicate Publishes(step: Step) {
    step.Dispatch? || step.Publish? || step.NotePublication? || step.Reconcile?
  }

  lemma SamePublications(w: World, step: Step)
    requires !Publishes(step) && !step.Deliver?
    ensures Next(w, step).publications == w.publications
  {
  }

  lemma DeliverPublications(w: World, step: Step)
    requires step.Deliver?
    ensures Next(w, step).publications == w.publications
  {
    if RunEffect(w, step).Some? {
      IsolateSaga(Put(w, step.run, DoDeliver(step.token, step.redelivered)), step.run);
    }
  }

  lemma ReconcilePublications(w: World, step: Step)
    requires step.Reconcile?
    ensures var after := Next(w, step);
            after.publications == w.publications ||
            exists t :: after.publications ==
                w.publications[step.publisher := Publication(step.run, t, Reconciler, Claiming)]
  {
    if RunEffect(w, step).Some? {
      IsolateSaga(Put(w, step.run, DoReconcile(w.next, IsAmbiguous(w, step.run), false)), step.run);
    }
  }

  lemma DispatchPublications(w: World, step: Step, p: nat)
    requires step.Dispatch? || step.Publish? || step.NotePublication?
    requires p in Next(w, step).publications
    ensures var now := Next(w, step).publications[p];
            PublishedBefore(w, step, p, now)
  {
  }

  /** Where the publication of a dispatcher comes from. */
  predicate PublishedBefore(w: World, step: Step, p: nat, now: Publication) {
    if p in w.publications then now.run == w.publications[p].run && now.publisher == w.publications[p].publisher
    else
      && step.Dispatch? && step.run in w.runs && now.run == step.run && now.publisher == Dispatcher(step.resumed)
      && (step.resumed ==> w.runs[step.run].resumes > 0)
  }

  lemma PublicationOrigin(w: World, step: Step, p: nat)
    requires p in Next(w, step).publications && Next(w, step).publications[p].publisher.Dispatcher?
    ensures PublishedBefore(w, step, p, Next(w, step).publications[p])
  {
    if step.Deliver? {
      DeliverPublications(w, step);
    } else if step.Reconcile? {
      ReconcilePublications(w, step);
    } else if Publishes(step) {
      DispatchPublications(w, step, p);
    } else {
      SamePublications(w, step);
    }
  }

  /** A dispatcher of a resumption publishes a run that was resumed. */
  lemma PublisherKept(w: World, step: Step, p: nat)
    requires p in Next(w, step).publications && Next(w, step).publications[p].publisher == Dispatcher(true) &&
             PublishersOk(w)
    ensures var r := Next(w, step).publications[p].run; r in w.runs && w.runs[r].resumes > 0
  {
    PublicationOrigin(w, step, p);
  }

  lemma ReconcileResumes(run: Run, newToken: Token, max: nat, ambiguous: bool, newItems: bool)
    ensures ReconciledRun(ReconcileRun(run, newToken, max, ambiguous, newItems), run).resumes == run.resumes
  {
    QuarantineSaga(run, false);
    ClaimColumns(run, newToken);
    FenceColumns(run);
  }

  lemma ApplyResumes(run: Run, step: RunStep, max: nat)
    requires run.code != SC04 && run.status != R.Pending
    ensures Apply(run, step, max).resumes >= run.resumes
  {
    match step
    case DoDispatch(t) => DispatchSaga(run, t, 0);
    case DoDispatchFailure(t, s) => DispatchFailureSaga(run, t, s);
    case DoDispatchSuccess(t) => DispatchSaga(run, 0, t);
    case DoPublishFailure(t) => DispatchSaga(run, 0, t);
    case DoDeliver(t, redelivered) => StartSaga(run, t, redelivered);
    case DoStartAttempt(t, id) => AttemptSaga(run, t, id, true);
    case DoFinishAttempt(t, id, ok) => AttemptSaga(run, t, id, ok);
    case DoFinish(t, s) => FinishSaga(run, t, s);
    case DoReconcile(t, ambiguous, newItems) => ReconcileResumes(run, t, max, ambiguous, newItems);
    case _ =>
  }

  lemma PublishersNow(w: World, step: Step)
    requires RunsOk(w) && PublishersOk(w)
    ensures PublishersOk(Next(w, step))
  {
    var after := Next(w, step);
    forall p | p in after.publications && after.publications[p].publisher == Dispatcher(true)
      ensures after.publications[p].run in after.runs && after.runs[after.publications[p].run].resumes > 0
    {
      PublisherKept(w, step, p);
      ResumesGrow(w, step, after.publications[p].run);
    }
  }

  lemma ResumesGrow(w: World, step: Step, r: nat)
    requires RunsOk(w) && r in w.runs
    ensures r in Next(w, step).runs && Next(w, step).runs[r].resumes >= w.runs[r].resumes
  {
    StepFollows(w, step);
    assert RunOk(w.runs[r], w.next, w.max);
    if RunEffect(w, step).Some? && RunEffect(w, step).value.0 == r {
      ApplyResumes(w.runs[r], RunEffect(w, step).value.1, w.max);
    }
  }

  lemma StepKept(w: World, step: Step)
    requires RunsOk(w) && RowsOk(w) && OneLive(w) && PublishersOk(w)
    ensures Kept(w, step)
  {
    assert forall r <- w.runs :: w.runs[r].status != R.Pending by {
      assert forall r <- w.runs :: RunOk(w.runs[r], w.next, w.max);
    }
    NotPendingKept(w, step);
  }

  lemma NotPendingKept(w: World, step: Step)
    requires RowsOk(w) && OneLive(w) && PublishersOk(w) && forall r <- w.runs :: w.runs[r].status != R.Pending
    ensures Kept(w, step)
  {
    match step
    case AddClient(_) => AddClientKept(w, step);
    case CreateRpa(_, _, _) => CreateRpaKept(w, step);
    case CreateScan(_, _) => CreateScanKept(w, step);
    case Reschedule(_) => RescheduleKept(w, step);
    case Dispatch(_, _, _) => DispatchKept(w, step);
    case Publish(_, _, _) => DispatchKept(w, step);
    case NotePublication(_) => NotePublicationKept(w, step);
    case Deliver(_, _, _, _) => DeliverKept(w, step);
    case Prepare(_, _) => AttemptKept(w, step);
    case Call(_) => AttemptKept(w, step);
    case Conclude(_, _) => AttemptKept(w, step);
    case Finish(_, _) => FinishKept(w, step);
    case Reconcile(_, _) => ReconcileKept(w, step);
    case Resume(_) => ResumeKept(w, step);
  }

  lemma NextSagasOk(w: World, step: Step)
    requires SagasOk(w)
    ensures SagasOk(Next(w, step))
  {
    NextRunsOk(w, step);
    StepKept(w, step);
    PublishersNow(w, step);
  }

  lemma {:induction false} ExecutionSagasOk(w: World, steps: seq<Step>)
    requires SagasOk(w)
    ensures SagasOk(Execution(w, steps))
    decreases |steps|
  {
    if steps != [] {
      ExecutionSagasOk(w, steps[..|steps| - 1]);
      NextSagasOk(Execution(w, steps[..|steps| - 1]), steps[|steps| - 1]);
    }
  }

  /** One live saga per client, in every reachable state; while it is live the client's row says which operation it
      is and whether it waits for a resumption; a blocked client has the responsibles to restore, an active one none. */
  lemma OneLiveSagaPerClient(max: nat, steps: seq<Step>)
    requires max >= 1
    ensures var w := Execution(Initial(max), steps);
            && RowsOk(w) && OneLive(w)
            && (forall r <- w.operations ::
                  w.runs[r].status == R.PartiallyFailed || (w.runs[r].resumes > 0 && IsActive(w.runs[r].status)) ==>
                  w.clients[w.operations[r].client].status == R.Partial)
            && (forall c <- w.clients :: w.clients[c].status == R.Blocked ==> w.clients[c].snapshot)
            && (forall c <- w.clients :: w.clients[c].status == R.Active ==> !w.clients[c].snapshot)
  {
    ExecutionSagasOk(Initial(max), steps);
    var w := Execution(Initial(max), steps);
    forall r | r in w.operations &&
        (w.runs[r].status == R.PartiallyFailed || (w.runs[r].resumes > 0 && IsActive(w.runs[r].status)))
      ensures w.clients[w.operations[r].client].status == R.Partial
    {
      assert OperationOk(w.operations[r].action, w.runs[r], w.clients[w.operations[r].client]);
    }
    forall c | c in w.clients
      ensures w.clients[c].status == R.Blocked ==> w.clients[c].snapshot
      ensures w.clients[c].status == R.Active ==> !w.clients[c].snapshot
    {
      assert ClientOk(w.clients[c]);
    }
  }
}
