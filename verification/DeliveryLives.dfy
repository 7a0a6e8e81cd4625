/** What each step does to the whole system when it is taken where it belongs, and the lives these steps add up to. */
module DeliveryLives {
  import opened Options
  import opened RunLog
  import opened DeliveryRuns
  import opened DeliveryHistories
  import opened DeliveryBounds
  import opened DeliveryDecisions
  import opened DeliveryWorld
  import opened DeliverySteps
  import opened DeliverySagas
  import R = Runs

  // ----- Requests -----

  /** A block is for an active client, an unblock for a blocked one, and never while another operation is under way. */
  lemma CreationMeans(w: World, r: nat, c: nat, action: Action)
    requires RowsOk(w)
    ensures var accepted := r !in w.runs && c in w.clients &&
            w.clients[c].status == (if action == Block then R.Active else R.Blocked) &&
                            forall s <- w.operations :: w.operations[s].client == c ==> !IsActive(w.runs[s].status);
            Next(w, CreateRpa(r, c, action)) ==
              if accepted then w.(runs := w.runs[r := NewRun(SC05, w.next, false)],
                                  operations := w.operations[r := Operation(c, action)], next := w.next + 1)
              else w
  {
    if c in w.clients {
      assert ClientOk(w.clients[c]);
    }
  }

  lemma AddedClientIsActive(w: World, c: nat)
    ensures Next(w, AddClient(c)) == if c in w.clients then w
            else w.(clients := w.clients[c := Client(R.Active, false)])
  {
  }

  lemma ScanCreationMeans(w: World, r: nat, scheduled: bool)
    ensures Next(w, CreateScan(r, scheduled)) ==
            if r in w.runs then w else w.(runs := w.runs[r := NewRun(SC20, w.next, scheduled)], next := w.next + 1)
  {
  }

  lemma RunFacts(w: World, r: nat)
    requires RunsOk(w) && r in w.runs
    ensures Sound(w.runs[r], w.next)
  {
    assert RunOk(w.runs[r], w.next, w.max);
  }

  lemma OperationFacts(w: World, r: nat)
    requires SagasOk(w) && r in w.runs
    ensures Sound(w.runs[r], w.next)
    ensures w.runs[r].code == SC05 ==> r in w.operations
    ensures r in w.operations ==>
              && w.runs[r].code == SC05 && w.operations[r].client in w.clients
              && OperationOk(w.operations[r].action, w.runs[r], w.clients[w.operations[r].client])
  {
    RunFacts(w, r);
  }

  predicate ResumedAs(run: Run, after: Run, newToken: Token) {
    after == run.(status := R.Queued, token := Some(newToken), dispatchStarted := false, published := false,
                  attempts := 0, resumes := run.resumes + 1, log := after.log)
  }

  lemma ResumedWorld(w: World, r: nat)
    requires r in w.runs && r in w.operations && w.runs[r].code == SC05 && w.runs[r].status == R.PartiallyFailed
    requires !HasActiveOperation(w, w.operations[r].client, Some(r)) && Sound(w.runs[r], w.next)
    ensures var after := Next(w, Resume(r));
            && r in after.runs && after == w.(runs := w.runs[r := after.runs[r]], next := w.next + 1)
            && ResumedAs(w.runs[r], after.runs[r], w.next)
  {
    ResumeMeans(w.runs[r], w.next, w.next);
  }

  /** A person resumes what waits for it, and nothing else. */
  lemma ResumptionMeans(w: World, r: nat)
    requires SagasOk(w)
    ensures var after := Next(w, Resume(r));
            if r in w.runs && w.runs[r].code == SC05 && w.runs[r].status == R.PartiallyFailed then
              && r in after.runs && after == w.(runs := w.runs[r := after.runs[r]], next := w.next + 1)
              && ResumedAs(w.runs[r], after.runs[r], w.next)
            else after == w
  {
    if r in w.runs && w.runs[r].code == SC05 && w.runs[r].status == R.PartiallyFailed {
      OperationFacts(w, r);
      OnlyOneIsActive(w, r);
      ResumedWorld(w, r);
    }
  }

  lemma OnlyOneIsActive(w: World, r: nat)
    requires RowsOk(w) && OneLive(w) && r in w.operations && w.runs[r].status == R.PartiallyFailed
    ensures !HasActiveOperation(w, w.operations[r].client, Some(r))
  {
    forall s | s in w.operations && s != r && w.operations[s].client == w.operations[r].client
      ensures !IsActive(w.runs[s].status)
    {
      assert !(Live(w.runs[r].status) && Live(w.runs[s].status));
    }
  }

  lemma RescheduledWorld(w: World, r: nat)
    requires r in w.runs && w.runs[r].code == SC20
    ensures var queued := RescheduleRun(w.runs[r], w.next);
            if queued.Some? then Next(w, Reschedule(r)) == w.(runs := w.runs[r := queued.value], next := w.next + 1)
            else Next(w, Reschedule(r)).runs == w.runs
  {
    assert w.runs[r := w.runs[r]] == w.runs;
  }

  lemma ReschedulingMeans(w: World, r: nat)
    requires RunsOk(w) && r in w.runs && w.runs[r].code == SC20
    ensures var after := Next(w, Reschedule(r));
            if w.runs[r].status == R.Failed && w.runs[r].dispatchError && !w.runs[r].started then
              && after == w.(runs := w.runs[r := after.runs[r]], next := w.next + 1)
              && after.runs[r] ==
                   w.runs[r].(status := R.Queued, token := Some(w.next), dispatchStarted := false, published := false,
                                             attempts := 0, dispatchError := false, log := after.runs[r].log)
            else after.runs == w.runs
  {
    assert RunOk(w.runs[r], w.next, w.max);
    RescheduleMeans(w.runs[r], w.next, w.next);
    RescheduledWorld(w, r);
  }

  // ----- Publication -----

  lemma DispatchingMeans(w: World, p: nat, r: nat, resumed: bool)
    requires RunsOk(w) && r in w.runs && p !in w.publications && (resumed ==> w.runs[r].resumes > 0)
    ensures var run := w.runs[r];
            var after := Next(w, Dispatch(p, r, resumed));
            if run.status == R.Queued && !run.published && !run.dispatchStarted then
              && after == w.(runs := w.runs[r := after.runs[r]], next := w.next + 1,
                             publications := w.publications[p :=
                                                            Publication(r, run.token.value, Dispatcher(resumed),
                                                                        Claiming)])
              && after.runs[r] == run.(dispatchStarted := true, log := after.runs[r].log)
              && OneMoreEvent(run, after.runs[r], DispatchStarted(run.token.value))
            else after == w
  {
    assert RunOk(w.runs[r], w.next, w.max);
    DispatchMeans(w.runs[r], w.next, w.next);
  }

  /** The broker takes a message or not, and the publisher sees an error or not; only without an error is it sure. */
  lemma PublishingMeans(w: World, p: nat, delivered: bool, error: bool)
    requires p in w.publications && w.publications[p].state == Claiming && (error || delivered)
    ensures var publication := w.publications[p];
            var message := Message(publication.run, publication.token);
            Next(w, Publish(p, delivered, error)) ==
              w.(messages := w.messages + (if delivered then {message} else {}),
                 publications := w.publications[p := publication.(state := if error then Broken else Sent)])
  {
    if !delivered {
      assert w.messages + {} == w.messages;
    }
  }

  /** What is noted about a publication: a confirmation marks the run as published; a failure ends the run of a
      request, as failed when it is its first and as partially failed when it was resumed; a failure of the reconciler
      only leaves a note. */
  predicate NotedAs(run: Run, publication: Publication, after: Run) {
    if publication.state == Sent then after == run.(published := true, log := after.log)
    else if publication.publisher == Reconciler || run.status != R.Queued then after == run.(log := after.log)
    else after == run.(status := if publication.publisher == Dispatcher(true) then R.PartiallyFailed else R.Failed,
                       dispatchError := true, log := after.log)
  }

  lemma NotedRun(run: Run, publication: Publication, next: Token, max: nat)
    requires Sound(run, next) && run.token == Some(publication.token)
    requires publication.state == Sent || publication.state == Broken
    requires publication.state == Sent ==> !HasKey(run.log, BrokerPublished(publication.token))
    ensures NotedAs(run, publication, Apply(run, PublicationEffect(publication), max))
  {
    if publication.state == Sent {
      DispatchSuccessMeans(run, publication.token);
    } else if publication.publisher == Reconciler {
      PublishFailureMeans(run, publication.token);
    } else {
      DispatchFailureMeans(run, publication.token,
                           if publication.publisher == Dispatcher(true) then R.PartiallyFailed else R.Failed, next);
    }
  }

  lemma NotedWorld(w: World, p: nat)
    requires p in w.publications && w.publications[p].run in w.runs
    requires w.publications[p].state == Sent || w.publications[p].state == Broken
    ensures var publication := w.publications[p];
            var r := publication.run;
            Next(w, NotePublication(p)) ==
              w.(runs := w.runs[r := Apply(w.runs[r], PublicationEffect(publication), w.max)],
                 publications := w.publications[p := publication.(state := Noted)])
  {
  }

  lemma NotingMeans(w: World, p: nat)
    requires RunsOk(w) && p in w.publications && w.publications[p].run in w.runs
    requires w.publications[p].state == Sent || w.publications[p].state == Broken
    requires var publication := w.publications[p];
             var run := w.runs[publication.run];
             && run.token == Some(publication.token)
             && (publication.state == Sent ==> !HasKey(run.log, BrokerPublished(publication.token)))
    ensures var publication := w.publications[p];
            var r := publication.run;
            var after := Next(w, NotePublication(p));
            && r in after.runs
            && after == w.(runs := w.runs[r := after.runs[r]],
                           publications := w.publications[p := publication.(state := Noted)])
            && NotedAs(w.runs[r], publication, after.runs[r])
  {
    RunFacts(w, w.publications[p].run);
    NotedWorld(w, p);
    NotedRun(w.runs[w.publications[p].run], w.publications[p], w.next, w.max);
  }

  // ----- A worker -----

  lemma DeliveryExecutes(w: World, id: nat, r: nat, t: Token, redelivered: bool)
    requires RunsOk(w) && id !in w.workers && r in w.runs && Message(r, t) in w.messages
    requires w.runs[r].status == R.Queued && w.runs[r].token == Some(t)
    ensures var after := Next(w, Deliver(id, r, t, redelivered));
            && r in after.runs
            && after == w.(runs := w.runs[r := after.runs[r]],
                           workers := w.workers[id := Worker(r, t, Working, 0, 0, 0)])
            && after.runs[r] ==
                 w.runs[r].(status := R.Running, started := true, dispatchStarted := true, published := true,
                                           log := after.runs[r].log)
            && OneMoreEvent(w.runs[r], after.runs[r], Started(t))
  {
    assert RunOk(w.runs[r], w.next, w.max);
    StartMeans(w.runs[r], t, redelivered, w.next);
  }

  /** What an interruption leaves of the client and the attempts of a run. */
  predicate Interrupts(w: World, after: World, r: nat)
    requires r in w.operations && w.operations[r].client in w.clients
  {
    var c := w.operations[r].client;
    && after.clients == w.clients[c := w.clients[c].(status := R.Partial)]
    && after.attempts.Keys == w.attempts.Keys
    && forall a <- w.attempts ::
         after.attempts[a] == if w.attempts[a].run == r && w.attempts[a].status == Open
             then w.attempts[a].(status := Interrupted)
                              else w.attempts[a]
  }

  lemma IsolationMeans(w: World, r: nat)
    requires r in w.runs && w.runs[r].code == SC05 && r in w.operations && w.operations[r].client in w.clients
    ensures Interrupts(w, IsolateRun(w, r), r)
    ensures var after := IsolateRun(w, r);
            after == w.(clients := after.clients, attempts := after.attempts)
  {
  }

  lemma RedeliveredWorld(w: World, id: nat, r: nat, t: Token)
    requires id !in w.workers && r in w.runs && w.runs[r].code == SC05 && Message(r, t) in w.messages
    requires StartExternal(w.runs[r], t, true).Isolated?
    ensures Next(w, Deliver(id, r, t, true)) ==
            IsolateRun(w.(runs := w.runs[r := StartExternal(w.runs[r], t, true).run]), r)
  {
  }

  /** A message that comes again while its worker runs isolates the run, its client and its open attempts. */
  lemma RedeliveryIsolates(w: World, id: nat, r: nat, t: Token)
    requires SagasOk(w) && id !in w.workers && r in w.operations && r in w.runs && Message(r, t) in w.messages
    requires w.runs[r].status == R.Running && w.runs[r].token == Some(t)
    ensures var after := Next(w, Deliver(id, r, t, true));
            && r in after.runs && after.runs[r].status == R.PartiallyFailed && after.runs[r].token == None
            && after.runs[r].attempts == w.runs[r].attempts + 1 && after.runs[r].resumes == w.runs[r].resumes
            && w.operations[r].client in w.clients && Interrupts(w, after, r) && after.workers == w.workers
  {
    OperationFacts(w, r);
    IsolatedByMessage(w, id, r, t);
  }

  lemma IsolatedByMessage(w: World, id: nat, r: nat, t: Token)
    requires id !in w.workers && r in w.runs && Message(r, t) in w.messages && Sound(w.runs[r], w.next)
    requires w.runs[r].code == SC05 && r in w.operations && w.operations[r].client in w.clients
    requires w.runs[r].status == R.Running && w.runs[r].token == Some(t)
    ensures var after := Next(w, Deliver(id, r, t, true));
            && r in after.runs && after.runs[r].status == R.PartiallyFailed && after.runs[r].token == None
            && after.runs[r].attempts == w.runs[r].attempts + 1 && after.runs[r].resumes == w.runs[r].resumes
            && Interrupts(w, after, r) && after.workers == w.workers
  {
    IsolatesHere(w.runs[r], t, w.next);
    RedeliveredWorld(w, id, r, t);
    IsolationMeans(w.(runs := w.runs[r := StartExternal(w.runs[r], t, true).run]), r);
  }

  predicate Works(w: World, id: nat) {
    && id in w.workers && w.workers[id].run in w.runs && w.runs[w.workers[id].run].status == R.Running
    && w.runs[w.workers[id].run].token == Some(w.workers[id].token)
  }

  lemma PreparedWorld(w: World, id: nat, a: nat)
    requires Works(w, id) && w.workers[id].phase == Working && a !in w.attempts
    requires StartAttempt(w.runs[w.workers[id].run], w.workers[id].token, a).Some?
    ensures var worker := w.workers[id];
            Next(w, Prepare(id, a)) ==
              w.(runs := w.runs[worker.run := StartAttempt(w.runs[worker.run], worker.token, a).value],
                 workers := w.workers[id := worker.(phase := Prepared, attempt := a)],
                 attempts := w.attempts[a := Attempt(worker.run, id, Open)])
  {
    assert WorkerIsKnown(w, id);
    assert Next(w, Prepare(id, a)) == PrepareStep(w, id, a);
  }

  /** A worker that still has its run starts a new attempt: the attempt is open, and in the log. */
  lemma PreparationMeans(w: World, id: nat, a: nat)
    requires RunsOk(w) && Works(w, id) && w.workers[id].phase == Working && a !in w.attempts
    requires !HasKey(w.runs[w.workers[id].run].log, AttemptStarted(a))
    ensures var worker := w.workers[id];
            var after := Next(w, Prepare(id, a));
            && worker.run in after.runs
            && after == w.(runs := w.runs[worker.run := after.runs[worker.run]],
                           workers := w.workers[id := worker.(phase := Prepared, attempt := a)],
                           attempts := w.attempts[a := Attempt(worker.run, id, Open)])
            && after.runs[worker.run] == w.runs[worker.run].(log := after.runs[worker.run].log)
            && OneMoreEvent(w.runs[worker.run], after.runs[worker.run], AttemptStarted(a))
  {
    RunFacts(w, w.workers[id].run);
    AttemptsMean(w.runs[w.workers[id].run], w.workers[id].token, a, true, w.next);
    PreparedWorld(w, id, a);
  }

  lemma CallingMeans(w: World, id: nat)
    requires Works(w, id) && w.workers[id].phase == Prepared
    ensures Next(w, Call(id)) ==
            w.(workers := w.workers[id := w.workers[id].(phase := Called, calls := w.workers[id].calls + 1)])
  {
  }

  lemma ConcludedWorld(w: World, id: nat, ok: bool)
    requires Works(w, id) && w.workers[id].phase == Called && w.workers[id].attempt in w.attempts
    requires FinishAttempt(w.runs[w.workers[id].run], w.workers[id].token, w.workers[id].attempt, ok).Some?
    ensures var worker := w.workers[id];
            Next(w, Conclude(id, ok)) ==
              w.(runs := w.runs[worker.run :=
                                FinishAttempt(w.runs[worker.run], worker.token, worker.attempt, ok).value],
                 workers := w.workers[id := worker.(phase := Working)],
                 attempts := w.attempts[worker.attempt := w.attempts[worker.attempt].(status := Finished(ok))])
  {
    assert WorkerIsKnown(w, id);
    assert Next(w, Conclude(id, ok)) == ConcludeStep(w, id, ok);
  }

  lemma ConclusionMeans(w: World, id: nat, ok: bool)
    requires RunsOk(w) && Works(w, id) && w.workers[id].phase == Called && w.workers[id].attempt in w.attempts
    requires !HasKey(w.runs[w.workers[id].run].log, AttemptFinished(w.workers[id].attempt))
    ensures var worker := w.workers[id];
            var after := Next(w, Conclude(id, ok));
            && worker.run in after.runs
            && after == w.(runs := w.runs[worker.run := after.runs[worker.run]],
                           workers := w.workers[id := worker.(phase := Working)],
                           attempts := w.attempts[worker.attempt :=
                                                  w.attempts[worker.attempt].(status := Finished(ok))])
            && after.runs[worker.run] == w.runs[worker.run].(log := after.runs[worker.run].log)
            && OneMoreEvent(w.runs[worker.run], after.runs[worker.run], AttemptFinished(worker.attempt))
  {
    RunFacts(w, w.workers[id].run);
    AttemptsMean(w.runs[w.workers[id].run], w.workers[id].token, w.workers[id].attempt, ok, w.next);
    ConcludedWorld(w, id, ok);
  }

  /** A worker does one thing at a time: an attempt, its call, its conclusion. */
  lemma OutOfTurn(w: World, id: nat, a: nat, ok: bool)
    requires WorkerIsKnown(w, id)
    ensures w.workers[id].phase != Working || a in w.attempts ==> Next(w, Prepare(id, a)) == w
    ensures w.workers[id].phase != Prepared ==> Next(w, Call(id)) == w
    ensures w.workers[id].phase != Called ==> Next(w, Conclude(id, ok)) == w
    ensures forall outcome :: w.workers[id].phase == Prepared || w.workers[id].phase == Stopped ==>
            Next(w, Finish(id, outcome)) == w
  {
  }

  // ----- How an operation ends -----

  /** The status of the run, by outcome. */
  function EndOf(outcome: Outcome): R.RunStatus {
    match outcome
    case Success => R.Succeeded
    case Warnings => R.SucceededWithWarnings
    case Restored => R.Failed
    case Residual => R.PartiallyFailed
    case Unsafe => R.Failed
  }

  /** The client after an operation: done, given back as it was, left partial, or not known any more. */
  predicate Leaves(client: Client, action: Action, outcome: Outcome, after: Client) {
    match outcome
    case Success => after.status == (if action == Block then R.Blocked else R.Active) &&
        after.snapshot == (action == Block)
    case Restored => after.status == (if action == Block then R.Active else R.Blocked) &&
        after.snapshot == client.snapshot
    case Residual => after.status == R.Partial && after.snapshot == client.snapshot
    case Unsafe => after.status == R.Unknown && after.snapshot == client.snapshot
    case Warnings => false
  }

  lemma FinishedRun(run: Run, token: Token, outcome: Outcome, next: Token)
    requires Sound(run, next) && run.status == R.Running && run.token == Some(token)
    ensures var finished := FinishRun(run, token, FinalStatus(outcome));
            finished.Some? && finished.value == run.(status := EndOf(outcome), log := finished.value.log)
  {
    FinishMeans(run, token, FinalStatus(outcome), next);
  }

  lemma FinishedWorld(w: World, id: nat, outcome: Outcome)
    requires Works(w, id) && (w.workers[id].phase == Working || w.workers[id].phase == Called)
    requires w.runs[w.workers[id].run].code == SC05 ==> outcome != Warnings
    requires FinishRun(w.runs[w.workers[id].run], w.workers[id].token, FinalStatus(outcome)).Some?
    ensures var r := w.workers[id].run;
            Next(w, Finish(id, outcome)) ==
              w.(runs := w.runs[r := FinishRun(w.runs[r], w.workers[id].token, FinalStatus(outcome)).value],
                 workers := w.workers[id := w.workers[id].(phase := Stopped)],
                 clients := if w.runs[r].code == SC05 && r in w.operations && w.operations[r].client in w.clients
                            then w.clients[w.operations[r].client :=
                                           FinalClient(w.clients[w.operations[r].client], w.operations[r].action,
                                                       outcome)]
                            else w.clients)
  {
    assert WorkerIsKnown(w, id);
    assert Next(w, Finish(id, outcome)) == FinishStep(w, id, outcome);
  }

  lemma FinishingMeans(w: World, id: nat, outcome: Outcome)
    requires SagasOk(w) && Works(w, id) && (w.workers[id].phase == Working || w.workers[id].phase == Called)
    requires w.runs[w.workers[id].run].code == SC05 && outcome != Warnings
    ensures var r := w.workers[id].run;
            var after := Next(w, Finish(id, outcome));
            && r in w.operations && r in after.runs
            && w.operations[r].client in w.clients && w.operations[r].client in after.clients
            && var c := w.operations[r].client;
               && after == w.(runs := w.runs[r := after.runs[r]],
                              workers := w.workers[id := w.workers[id].(phase := Stopped)],
                              clients := w.clients[c := after.clients[c]])
               && after.runs[r] == w.runs[r].(status := EndOf(outcome), log := after.runs[r].log)
               && Leaves(w.clients[c], w.operations[r].action, outcome, after.clients[c])
  {
    var r := w.workers[id].run;
    OperationFacts(w, r);
    FinishedRun(w.runs[r], w.workers[id].token, outcome, w.next);
    FinishedWorld(w, id, outcome);
  }

  /** A scan ends with its run alone. */
  lemma ScanFinishingMeans(w: World, id: nat, outcome: Outcome)
    requires SagasOk(w) && Works(w, id) && (w.workers[id].phase == Working || w.workers[id].phase == Called)
    requires w.runs[w.workers[id].run].code == SC20
    ensures var r := w.workers[id].run;
            var after := Next(w, Finish(id, outcome));
            && r in after.runs
            && after == w.(runs := w.runs[r := after.runs[r]],
                           workers := w.workers[id := w.workers[id].(phase := Stopped)])
            && after.runs[r] == w.runs[r].(status := EndOf(outcome), log := after.runs[r].log)
  {
    var r := w.workers[id].run;
    OperationFacts(w, r);
    FinishedRun(w.runs[r], w.workers[id].token, outcome, w.next);
    FinishedWorld(w, id, outcome);
  }

  // ----- The reconciler -----

  lemma ReconciledWorld(w: World, p: nat, r: nat)
    requires r in w.runs && p !in w.publications
    ensures var result := ReconcileRun(w.runs[r], w.next, w.max, IsAmbiguous(w, r), false);
            Next(w, Reconcile(p, r)) ==
              match result
              case Requeued(run, t) => w.(runs := w.runs[r := run], next := w.next + 1,
                                          publications := w.publications[p := Publication(r, t, Reconciler, Claiming)])
              case Isolates(run) => IsolateRun(w.(runs := w.runs[r := run], next := w.next + 1), r)
              case Fails(run) => w.(runs := w.runs[r := run], next := w.next + 1)
              case _ => w
  {
  }

  /** A queue that was never confirmed is published again under a new token while attempts are left. */
  lemma RecoveryMeans(w: World, p: nat, r: nat)
    requires RunsOk(w) && r in w.runs && p !in w.publications
    requires w.runs[r].status == R.Queued && !w.runs[r].published && w.runs[r].attempts < w.max
    ensures var after := Next(w, Reconcile(p, r));
            && r in after.runs && RequeuedAs(w.runs[r], after.runs[r], w.next)
            && after == w.(runs := w.runs[r := after.runs[r]], next := w.next + 1,
                           publications := w.publications[p := Publication(r, w.next, Reconciler, Claiming)])
  {
    RunFacts(w, r);
    ReconcileMeans(w.runs[r], w.next, w.max, IsAmbiguous(w, r), false, w.next);
    ReconciledWorld(w, p, r);
  }

  lemma IsolatedByReconciler(w: World, p: nat, r: nat)
    requires r in w.runs && p !in w.publications && w.runs[r].code == SC05 && r in w.operations &&
             w.operations[r].client in w.clients
    requires var result := ReconcileRun(w.runs[r], w.next, w.max, IsAmbiguous(w, r), false);
             result.Isolates? && IsolatedAs(w.runs[r], result.run)
    ensures var after := Next(w, Reconcile(p, r));
            && r in after.runs && IsolatedAs(w.runs[r], after.runs[r]) && Interrupts(w, after, r)
            && after.workers == w.workers
  {
    ReconciledWorld(w, p, r);
    var run := ReconcileRun(w.runs[r], w.next, w.max, IsAmbiguous(w, r), false).run;
    IsolationMeans(w.(runs := w.runs[r := run], next := w.next + 1), r);
  }

  /** A lost worker is isolated, with its client and its open attempts. */
  lemma LostWorkerMeans(w: World, p: nat, r: nat)
    requires SagasOk(w) && r in w.runs && r in w.operations && p !in w.publications && w.runs[r].status == R.Running
    ensures var after := Next(w, Reconcile(p, r));
            && r in after.runs && IsolatedAs(w.runs[r], after.runs[r]) && w.operations[r].client in w.clients
            && Interrupts(w, after, r) && after.workers == w.workers
  {
    OperationFacts(w, r);
    ReconcileMeans(w.runs[r], w.next, w.max, IsAmbiguous(w, r), false, w.next);
    IsolatedByReconciler(w, p, r);
  }

  lemma AmbiguousMeans(w: World, r: nat)
    requires SagasOk(w) && r in w.runs && r in w.operations && w.runs[r].status == R.Queued
    ensures IsAmbiguous(w, r) <==> w.runs[r].started || w.runs[r].resumes > 0
  {
    OperationFacts(w, r);
  }

  /** An operation that could never be published is failed, and its client left as it was, when nothing can have been
      done for it yet; otherwise it is isolated, so that a person can resume it. */
  lemma ExhaustionMeans(w: World, p: nat, r: nat)
    requires SagasOk(w) && r in w.runs && r in w.operations && p !in w.publications
    requires w.runs[r].status == R.Queued && !w.runs[r].published && w.runs[r].attempts >= w.max
    ensures var after := Next(w, Reconcile(p, r));
            && r in after.runs && w.operations[r].client in w.clients
            && (if w.runs[r].started || w.runs[r].resumes > 0
                then IsolatedAs(w.runs[r], after.runs[r]) && Interrupts(w, after, r)
                else FailedAs(w.runs[r], after.runs[r]) && after.clients == w.clients && after.attempts == w.attempts)
  {
    OperationFacts(w, r);
    AmbiguousMeans(w, r);
    ReconcileMeans(w.runs[r], w.next, w.max, IsAmbiguous(w, r), false, w.next);
    if IsAmbiguous(w, r) {
      IsolatedByReconciler(w, p, r);
    } else {
      ReconciledWorld(w, p, r);
    }
  }

  lemma ScanExhaustionMeans(w: World, p: nat, r: nat)
    requires SagasOk(w) && r in w.runs && w.runs[r].code == SC20 && p !in w.publications
    ensures var after := Next(w, Reconcile(p, r));
            var run := w.runs[r];
            && r in after.runs && after.clients == w.clients && after.attempts == w.attempts
            && (run.status == R.Running ==> IsolatedAs(run, after.runs[r]))
            && (run.status == R.Queued && !run.published && run.attempts >= w.max ==> FailedAs(run, after.runs[r]))
            && (run.status != R.Running && (run.status != R.Queued || run.published) ==> after == w)
  {
    OperationFacts(w, r);
    ReconcileMeans(w.runs[r], w.next, w.max, IsAmbiguous(w, r), false, w.next);
    ReconciledWorld(w, p, r);
  }

  // ----- A whole life -----

  lemma ExecutionOne(w: World, first: seq<Step>, step: Step)
    ensures Execution(w, first + [step]) == Next(Execution(w, first), step)
  {
    assert (first + [step])[..|first|] == first;
  }

  lemma KeyStaysAway(before: Run, after: Run, key: Key, other: Key)
    requires OneMoreEvent(before, after, key) && !HasKey(before.log, other) && key != other
    ensures !HasKey(after.log, other)
  {
    var e := after.log[|before.log|];
    assert after.log == before.log + [e];
    Snoc(before.log, e);
  }

  /** The run `r` of an operation on `c`, while it waits or is worked on under its first token. */
  ghost predicate Underway(w: World, r: nat, c: nat, action: Action, t: Token, client: Client, status: RunStatus) {
    && SagasOk(w) && r in w.runs && r in w.operations && w.operations[r] == Operation(c, action)
    && c in w.clients && w.clients[c] == client
    && w.runs[r].code == SC05 && w.runs[r].status == status && w.runs[r].token == Some(t)
  }

  ghost predicate NoAttemptYet(run: Run, a: nat) {
    !HasKey(run.log, AttemptStarted(a)) && !HasKey(run.log, AttemptFinished(a))
  }

  lemma LifeCreate(w: World, r: nat, c: nat, action: Action, a: nat)
    requires SagasOk(w) && r !in w.runs && c in w.clients
    requires w.clients[c].status == (if action == Block then R.Active else R.Blocked)
    requires forall s <- w.operations :: w.operations[s].client == c ==> !IsActive(w.runs[s].status)
    ensures var after := Next(w, CreateRpa(r, c, action));
            && Underway(after, r, c, action, w.next, w.clients[c], R.Queued) && NoAttemptYet(after.runs[r], a)
            && !HasKey(after.runs[r].log, BrokerPublished(w.next))
            && !after.runs[r].published && !after.runs[r].dispatchStarted
            && after.publications == w.publications && after.workers == w.workers && after.attempts == w.attempts
  {
    CreationMeans(w, r, c, action);
    NextSagasOk(w, CreateRpa(r, c, action));
    NewRunKeys(w.next, AttemptStarted(a));
    NewRunKeys(w.next, AttemptFinished(a));
    NewRunKeys(w.next, BrokerPublished(w.next));
  }

  lemma NewRunKeys(token: Token, key: Key)
    requires key != Created && key != QueuedFirst(token)
    ensures !HasKey(NewRun(SC05, token, false).log, key)
  {
    NewRunMeans(SC05, token, false);
    HasKeyIsMember(NewRun(SC05, token, false).log, key);
  }

  lemma LifeDispatch(w: World, r: nat, c: nat, action: Action, t: Token, client: Client, p: nat, a: nat)
    requires Underway(w, r, c, action, t, client, R.Queued) && NoAttemptYet(w.runs[r], a) && p !in w.publications
    requires !HasKey(w.runs[r].log, BrokerPublished(t)) && !w.runs[r].published && !w.runs[r].dispatchStarted
    ensures var after := Next(w, Dispatch(p, r, false));
            && Underway(after, r, c, action, t, client, R.Queued) && NoAttemptYet(after.runs[r], a)
            && !HasKey(after.runs[r].log, BrokerPublished(t))
            && p in after.publications && after.publications[p] == Publication(r, t, Dispatcher(false), Claiming)
            && after.workers == w.workers && after.attempts == w.attempts
  {
    DispatchingMeans(w, p, r, false);
    NextSagasOk(w, Dispatch(p, r, false));
    var run := Next(w, Dispatch(p, r, false)).runs[r];
    KeyStaysAway(w.runs[r], run, DispatchStarted(t), AttemptStarted(a));
    KeyStaysAway(w.runs[r], run, DispatchStarted(t), AttemptFinished(a));
    KeyStaysAway(w.runs[r], run, DispatchStarted(t), BrokerPublished(t));
  }

  lemma LifePublish(w: World, r: nat, c: nat, action: Action, t: Token, client: Client, p: nat, a: nat)
    requires Underway(w, r, c, action, t, client, R.Queued) && NoAttemptYet(w.runs[r], a)
    requires !HasKey(w.runs[r].log, BrokerPublished(t))
    requires p in w.publications && w.publications[p] == Publication(r, t, Dispatcher(false), Claiming)
    ensures var after := Next(w, Publish(p, true, false));
            && Underway(after, r, c, action, t, client, R.Queued) && NoAttemptYet(after.runs[r], a)
            && !HasKey(after.runs[r].log, BrokerPublished(t)) && Message(r, t) in after.messages
            && p in after.publications && after.publications[p] == Publication(r, t, Dispatcher(false), Sent)
            && after.workers == w.workers && after.attempts == w.attempts
  {
    PublishingMeans(w, p, true, false);
    NextSagasOk(w, Publish(p, true, false));
  }

  lemma LifeNote(w: World, r: nat, c: nat, action: Action, t: Token, client: Client, p: nat, a: nat)
    requires Underway(w, r, c, action, t, client, R.Queued) && NoAttemptYet(w.runs[r], a) && Message(r, t) in w.messages
    requires !HasKey(w.runs[r].log, BrokerPublished(t))
    requires p in w.publications && w.publications[p] == Publication(r, t, Dispatcher(false), Sent)
    ensures var after := Next(w, NotePublication(p));
            && Underway(after, r, c, action, t, client, R.Queued) && NoAttemptYet(after.runs[r], a)
            && after.runs[r].published && Message(r, t) in after.messages
            && after.workers == w.workers && after.attempts == w.attempts
  {
    RunFacts(w, r);
    NotingMeans(w, p);
    NextSagasOk(w, NotePublication(p));
    NotedWorld(w, p);
    NotedKeys(w.runs[r], t, a);
  }

  lemma NotedKeys(run: Run, t: Token, a: nat)
    requires Sequenced(run.log) && run.token == Some(t) && NoAttemptYet(run, a) && !HasKey(run.log, BrokerPublished(t))
    ensures DispatchSuccess(run, t).Some? && NoAttemptYet(DispatchSuccess(run, t).value, a)
  {
    DispatchSuccessMeans(run, t);
    KeyStaysAway(run, DispatchSuccess(run, t).value, BrokerPublished(t), AttemptStarted(a));
    KeyStaysAway(run, DispatchSuccess(run, t).value, BrokerPublished(t), AttemptFinished(a));
  }

  lemma LifeDeliver(w: World, r: nat, c: nat, action: Action, t: Token, client: Client, id: nat, a: nat)
    requires Underway(w, r, c, action, t, client, R.Queued) && NoAttemptYet(w.runs[r], a) && Message(r, t) in w.messages
    requires id !in w.workers
    ensures var after := Next(w, Deliver(id, r, t, false));
            && Underway(after, r, c, action, t, client, R.Running) && NoAttemptYet(after.runs[r], a)
            && id in after.workers && after.workers[id] == Worker(r, t, Working, 0, 0, 0)
            && after.attempts == w.attempts
  {
    DeliveryExecutes(w, id, r, t, false);
    NextSagasOk(w, Deliver(id, r, t, false));
    var run := Next(w, Deliver(id, r, t, false)).runs[r];
    KeyStaysAway(w.runs[r], run, Started(t), AttemptStarted(a));
    KeyStaysAway(w.runs[r], run, Started(t), AttemptFinished(a));
  }

  lemma LifeAttempt(w: World, r: nat, c: nat, action: Action, t: Token, client: Client, id: nat, a: nat)
    requires Underway(w, r, c, action, t, client, R.Running) && NoAttemptYet(w.runs[r], a)
    requires id in w.workers && w.workers[id] == Worker(r, t, Working, 0, 0, 0) && a !in w.attempts
    ensures var after := Next(w, Prepare(id, a));
            && Underway(after, r, c, action, t, client, R.Running) && !HasKey(after.runs[r].log, AttemptFinished(a))
            && id in after.workers && after.workers[id] == Worker(r, t, Prepared, a, 0, 0)
            && a in after.attempts && after.attempts[a] == Attempt(r, id, Open)
  {
    PreparationMeans(w, id, a);
    NextSagasOk(w, Prepare(id, a));
    KeyStaysAway(w.runs[r], Next(w, Prepare(id, a)).runs[r], AttemptStarted(a), AttemptFinished(a));
  }

  lemma LifeCall(w: World, r: nat, c: nat, action: Action, t: Token, client: Client, id: nat, a: nat)
    requires Underway(w, r, c, action, t, client, R.Running) && !HasKey(w.runs[r].log, AttemptFinished(a))
    requires id in w.workers && w.workers[id] == Worker(r, t, Prepared, a, 0, 0)
    requires a in w.attempts && w.attempts[a] == Attempt(r, id, Open)
    ensures var after := Next(w, Call(id));
            && Underway(after, r, c, action, t, client, R.Running) && !HasKey(after.runs[r].log, AttemptFinished(a))
            && id in after.workers && after.workers[id] == Worker(r, t, Called, a, 1, 0)
            && a in after.attempts && after.attempts[a] == Attempt(r, id, Open)
  {
    CallingMeans(w, id);
    NextSagasOk(w, Call(id));
  }

  lemma LifeConclude(w: World, r: nat, c: nat, action: Action, t: Token, client: Client, id: nat, a: nat, ok: bool)
    requires Underway(w, r, c, action, t, client, R.Running) && !HasKey(w.runs[r].log, AttemptFinished(a))
    requires id in w.workers && w.workers[id] == Worker(r, t, Called, a, 1, 0)
    requires a in w.attempts && w.attempts[a] == Attempt(r, id, Open)
    ensures var after := Next(w, Conclude(id, ok));
            && Underway(after, r, c, action, t, client, R.Running)
            && id in after.workers && after.workers[id] == Worker(r, t, Working, a, 1, 0)
            && a in after.attempts && after.attempts[a] == Attempt(r, id, Finished(ok))
  {
    ConclusionMeans(w, id, ok);
    NextSagasOk(w, Conclude(id, ok));
  }

  lemma LifeFinish(w: World, r: nat, c: nat, action: Action, t: Token, client: Client, id: nat, a: nat, ok: bool,
                   outcome: Outcome)
    requires Underway(w, r, c, action, t, client, R.Running) && outcome != Warnings
    requires id in w.workers && w.workers[id] == Worker(r, t, Working, a, 1, 0)
    requires a in w.attempts && w.attempts[a] == Attempt(r, id, Finished(ok))
    ensures var after := Next(w, Finish(id, outcome));
            && r in after.runs && after.runs[r].status == EndOf(outcome) && after.runs[r].token == Some(t)
            && c in after.clients && Leaves(client, action, outcome, after.clients[c])
            && id in after.workers && after.workers[id] == Worker(r, t, Stopped, a, 1, 0)
            && a in after.attempts && after.attempts[a] == Attempt(r, id, Finished(ok))
  {
    FinishingMeans(w, id, outcome);
  }

  /** An operation that nobody disturbs, from any state of the whole system in which it can be requested: it is created,
      dispatched, published and confirmed, delivered, worked on with one attempt and one call, and it ends, with its
      client, as its outcome says. */
  lemma UndisturbedLife(w: World, r: nat, c: nat, action: Action, p: nat, id: nat, a: nat, ok: bool, outcome: Outcome)
    requires SagasOk(w) && r !in w.runs && p !in w.publications && id !in w.workers && a !in w.attempts &&
             outcome != Warnings
    requires c in w.clients && w.clients[c].status == (if action == Block then R.Active else R.Blocked)
    requires forall s <- w.operations :: w.operations[s].client == c ==> !IsActive(w.runs[s].status)
    ensures var published := [
              CreateRpa(r, c, action), Dispatch(p, r, false), Publish(p, true, false), NotePublication(p)];
            var worked := [Deliver(id, r, w.next, false), Prepare(id, a), Call(id), Conclude(id, ok),
                           Finish(id, outcome)];
            var after := Execution(Execution(w, published), worked);
            && r in after.runs && after.runs[r].status == EndOf(outcome) && after.runs[r].token == Some(w.next)
            && c in after.clients && Leaves(w.clients[c], action, outcome, after.clients[c])
            && id in after.workers && after.workers[id] == Worker(r, w.next, Stopped, a, 1, 0)
            && a in after.attempts && after.attempts[a] == Attempt(r, id, Finished(ok))
  {
    LifeUntilPublished(w, r, c, action, p, a);
    var published := [CreateRpa(r, c, action), Dispatch(p, r, false), Publish(p, true, false), NotePublication(p)];
    LifeOfWorker(Execution(w, published), r, c, action, w.next, w.clients[c], id, a, ok, outcome);
  }

  lemma LifeUntilPublished(w: World, r: nat, c: nat, action: Action, p: nat, a: nat)
    requires SagasOk(w) && r !in w.runs && p !in w.publications && c in w.clients
    requires w.clients[c].status == (if action == Block then R.Active else R.Blocked)
    requires forall s <- w.operations :: w.operations[s].client == c ==> !IsActive(w.runs[s].status)
    ensures var published := [
              CreateRpa(r, c, action), Dispatch(p, r, false), Publish(p, true, false), NotePublication(p)];
            var after := Execution(w, published);
            && Underway(after, r, c, action, w.next, w.clients[c], R.Queued) && NoAttemptYet(after.runs[r], a)
            && after.runs[r].published && Message(r, w.next) in after.messages
            && after.workers == w.workers && after.attempts == w.attempts
  {
    var none: seq<Step> := [];
    var s1 := [CreateRpa(r, c, action)];
    var s2 := s1 + [Dispatch(p, r, false)];
    var s3 := s2 + [Publish(p, true, false)];
    assert none + s1 == s1;
    assert s3 + [NotePublication(p)] ==
        [CreateRpa(r, c, action), Dispatch(p, r, false), Publish(p, true, false), NotePublication(p)];
    ExecutionOne(w, none, CreateRpa(r, c, action));
    LifeCreate(w, r, c, action, a);
    ExecutionOne(w, s1, Dispatch(p, r, false));
    LifeDispatch(Execution(w, s1), r, c, action, w.next, w.clients[c], p, a);
    ExecutionOne(w, s2, Publish(p, true, false));
    LifePublish(Execution(w, s2), r, c, action, w.next, w.clients[c], p, a);
    ExecutionOne(w, s3, NotePublication(p));
    LifeNote(Execution(w, s3), r, c, action, w.next, w.clients[c], p, a);
  }

  lemma LifeUntilCalled(w: World, r: nat, c: nat, action: Action, t: Token, client: Client, id: nat, a: nat)
    requires Underway(w, r, c, action, t, client, R.Queued) && NoAttemptYet(w.runs[r], a) && Message(r, t) in w.messages
    requires id !in w.workers && a !in w.attempts
    ensures var after := Execution(w, [Deliver(id, r, t, false), Prepare(id, a), Call(id)]);
            && Underway(after, r, c, action, t, client, R.Running) && !HasKey(after.runs[r].log, AttemptFinished(a))
            && id in after.workers && after.workers[id] == Worker(r, t, Called, a, 1, 0)
            && a in after.attempts && after.attempts[a] == Attempt(r, id, Open)
  {
    var none: seq<Step> := [];
    var s1 := [Deliver(id, r, t, false)];
    var s2 := s1 + [Prepare(id, a)];
    assert none + s1 == s1 && s2 + [Call(id)] == [Deliver(id, r, t, false), Prepare(id, a), Call(id)];
    ExecutionOne(w, none, Deliver(id, r, t, false));
    LifeDeliver(w, r, c, action, t, client, id, a);
    ExecutionOne(w, s1, Prepare(id, a));
    LifeAttempt(Execution(w, s1), r, c, action, t, client, id, a);
    ExecutionOne(w, s2, Call(id));
    LifeCall(Execution(w, s2), r, c, action, t, client, id, a);
  }

  lemma LifeOfWorker(w: World, r: nat, c: nat, action: Action, t: Token, client: Client, id: nat, a: nat, ok: bool,
                     outcome: Outcome)
    requires Underway(w, r, c, action, t, client, R.Queued) && NoAttemptYet(w.runs[r], a) && Message(r, t) in w.messages
    requires id !in w.workers && a !in w.attempts && outcome != Warnings
    ensures var worked := [Deliver(id, r, t, false), Prepare(id, a), Call(id), Conclude(id, ok), Finish(id, outcome)];
            var after := Execution(w, worked);
            && r in after.runs && after.runs[r].status == EndOf(outcome) && after.runs[r].token == Some(t)
            && c in after.clients && Leaves(client, action, outcome, after.clients[c])
            && id in after.workers && after.workers[id] == Worker(r, t, Stopped, a, 1, 0)
            && a in after.attempts && after.attempts[a] == Attempt(r, id, Finished(ok))
  {
    var s3 := [Deliver(id, r, t, false), Prepare(id, a), Call(id)];
    var s4 := s3 + [Conclude(id, ok)];
    assert s4 + [Finish(id, outcome)] ==
        [Deliver(id, r, t, false), Prepare(id, a), Call(id), Conclude(id, ok), Finish(id, outcome)];
    LifeUntilCalled(w, r, c, action, t, client, id, a);
    ExecutionOne(w, s3, Conclude(id, ok));
    LifeConclude(Execution(w, s3), r, c, action, t, client, id, a, ok);
    ExecutionOne(w, s4, Finish(id, outcome));
    LifeFinish(Execution(w, s4), r, c, action, t, client, id, a, ok, outcome);
  }
}
