/** A client left partial can be resumed, except after one late dispatcher: the request that created the operation
    publishes it only after the reconciler had recovered it, a worker had left it partial, and a person had resumed
    it; and the broker then fails. */
module DeliveryStranding {
  import opened Options
  import opened DeliveryRuns
  import opened DeliveryHistories
  import opened DeliveryWorld
  import opened DeliverySteps
  import opened DeliverySagas
  import R = Runs

  /** A partial client has an operation that is being resumed, or can be. */
  predicate NotStranded(w: World) {
    forall c <- w.clients :: w.clients[c].status == R.Partial ==> HasLive(w, c)
  }

  predicate HasLive(w: World, c: nat) {
    exists r <- w.operations :: w.operations[r].client == c && r in w.runs && Live(w.runs[r].status)
  }

  /** The dispatcher of the request that created the operation publishes its resumption, fails, and reports the
      resumed run as failed. */
  predicate LateDispatcherFails(w: World, step: Step) {
    && step.NotePublication? && step.publisher in w.publications
    && var p := w.publications[step.publisher];
       && p.state == Broken && p.publisher == Dispatcher(false) && p.run in w.runs && p.run in w.operations
       && w.runs[p.run].token == Some(p.token) && w.runs[p.run].status == R.Queued && w.runs[p.run].resumes > 0
  }

  /** What keeps the client of run `r` from being stranded. */
  predicate Supports(run: Run, client: Client, after: Run, clientAfter: Client) {
    clientAfter.status == R.Partial && (Live(run.status) || client.status != R.Partial) ==> Live(after.status)
  }

  lemma TouchedNotStranded(w: World, after: World, r: nat, client: Client)
    requires RowsOk(w) && r in w.operations && Touches(w, after, r, client)
    requires NotStranded(w) && Supports(w.runs[r], w.clients[w.operations[r].client], after.runs[r], client)
    ensures NotStranded(after)
  {
    forall c | c in after.clients && after.clients[c].status == R.Partial
      ensures HasLive(after, c)
    {
      if c == w.operations[r].client && Live(after.runs[r].status) {
        assert after.operations[r].client == c;
      } else {
        assert HasLive(w, c);
        var s :| s in w.operations && w.operations[s].client == c && s in w.runs && Live(w.runs[s].status);
        assert s in after.operations && s != r;
      }
    }
  }

  lemma SameNotStranded(w: World, after: World, r: nat)
    requires RowsOk(w) && NotStranded(w) && r in w.runs && OnlyRun(w, after, r) && after.clients == w.clients
    requires r in w.operations && Live(w.runs[r].status) && w.clients[w.operations[r].client].status == R.Partial ==>
             Live(after.runs[r].status)
    ensures NotStranded(after)
  {
    if r in w.operations {
      var client := w.clients[w.operations[r].client];
      assert w.clients[w.operations[r].client := client] == w.clients;
      TouchedNotStranded(w, after, r, client);
    } else {
      forall c | c in after.clients && after.clients[c].status == R.Partial
        ensures HasLive(after, c)
      {
        assert HasLive(w, c);
      }
    }
  }

  /** Adding a client, a run or an operation strands nobody. */
  lemma GrownNotStranded(w: World, after: World)
    requires NotStranded(w)
    requires forall r <- w.operations :: r in after.operations && after.operations[r] == w.operations[r]
    requires forall r <- w.runs :: r in after.runs && after.runs[r] == w.runs[r]
    requires forall c <- after.clients :: after.clients[c].status == R.Partial ==>
             c in w.clients && w.clients[c] == after.clients[c]
    ensures NotStranded(after)
  {
    forall c | c in after.clients && after.clients[c].status == R.Partial
      ensures HasLive(after, c)
    {
      assert HasLive(w, c);
      var s :| s in w.operations && w.operations[s].client == c && s in w.runs && Live(w.runs[s].status);
      assert s in after.operations;
    }
  }

  lemma CreateRpaGrows(w: World, step: Step)
    requires RowsOk(w) && step.CreateRpa?
    ensures var after := Next(w, step);
            && after.clients == w.clients
            && (forall r <- w.operations :: r in after.operations && after.operations[r] == w.operations[r])
            && (forall r <- w.runs :: r in after.runs && after.runs[r] == w.runs[r])
  {
  }

  lemma CreatedNotStranded(w: World, step: Step)
    requires RowsOk(w) && NotStranded(w) && (step.AddClient? || step.CreateRpa? || step.CreateScan?)
    ensures NotStranded(Next(w, step))
  {
    if step.CreateRpa? {
      CreateRpaGrows(w, step);
    }
    GrownNotStranded(w, Next(w, step));
  }

  lemma IsolatedNotStranded(w: World, after: World, r: nat)
    requires RowsOk(w) && NotStranded(w) && r in w.runs && OnlyRun(w, after, r) &&
             after.clients == IsolatedClients(w, r)
    requires SameSaga(w.runs[r].(status := R.PartiallyFailed), after.runs[r])
    ensures NotStranded(after)
  {
    if r in w.operations {
      TouchedNotStranded(w, after, r, w.clients[w.operations[r].client].(status := R.Partial));
    } else {
      SameNotStranded(w, after, r);
    }
  }

  lemma DeliverNotStranded(w: World, step: Step)
    requires RowsOk(w) && NotStranded(w) && step.Deliver? &&
             (step.run in w.runs ==> w.runs[step.run].status != R.Pending)
    ensures NotStranded(Next(w, step))
  {
    if RunEffect(w, step).Some? {
      DeliverEffect(w, step);
      if StartExternal(w.runs[step.run], step.token, step.redelivered).Isolated? {
        IsolatedNotStranded(w, Next(w, step), step.run);
      } else {
        SameNotStranded(w, Next(w, step), step.run);
      }
    }
  }

  lemma FinishNotStranded(w: World, step: Step)
    requires RowsOk(w) && NotStranded(w) && step.Finish?
    ensures NotStranded(Next(w, step))
  {
    if WorkerIsKnown(w, step.worker) {
      FinishEffect(w, step);
      OutcomeNotStranded(w, Next(w, step), w.workers[step.worker].run, step.outcome);
    }
  }

  lemma OutcomeNotStranded(w: World, after: World, r: nat, outcome: Outcome)
    requires RowsOk(w) && NotStranded(w) && r in w.runs && OnlyRun(w, after, r)
    requires (after.runs == w.runs && after.clients == w.clients)
             || (&& w.runs[r].status == R.Running && SameSaga(w.runs[r].(status := FinalStatus(outcome)), after.runs[r])
                 && after.clients == FinalClients(w, r, outcome) && !(w.runs[r].code == SC05 && outcome == Warnings))
    ensures NotStranded(after)
  {
    if after.runs == w.runs && after.clients == w.clients {
      SameNotStranded(w, after, r);
    } else if r in w.operations {
      TouchedNotStranded(w, after, r, FinalClient(w.clients[w.operations[r].client], w.operations[r].action, outcome));
    } else {
      SameNotStranded(w, after, r);
    }
  }

  lemma ReconcileNotStranded(w: World, step: Step)
    requires RowsOk(w) && NotStranded(w) && step.Reconcile? &&
             (step.run in w.runs ==> w.runs[step.run].status != R.Pending)
    ensures NotStranded(Next(w, step))
  {
    if RunEffect(w, step).Some? {
      var r := step.run;
      ReconcileEffect(w, step);
      IsolateCode(w.runs[r], w.next, w.max, IsAmbiguous(w, r));
      if r in w.operations {
        ReconcileSaga(w.runs[r], w.next, w.max, IsAmbiguous(w, r));
        ReconciledNotStranded(w, Next(w, step), r, ReconcileRun(w.runs[r], w.next, w.max, IsAmbiguous(w, r), false));
      } else {
        SameNotStranded(w, Next(w, step), r);
      }
    }
  }

  /** The reconciler fails a queued operation only when its client is not partial. */
  lemma ReconciledNotStranded(w: World, after: World, r: nat, result: Reconciled)
    requires RowsOk(w) && NotStranded(w) && r in w.runs && r in w.operations && OnlyRun(w, after, r)
    requires after.clients == if result.Isolates? then IsolatedClients(w, r) else w.clients
    requires match result
             case Requeued(_, _) => SameSaga(w.runs[r], after.runs[r])
             case Isolates(_) => IsActive(w.runs[r].status) &&
                 SameSaga(w.runs[r].(status := R.PartiallyFailed), after.runs[r])
             case Fails(_) => !IsAmbiguous(w, r) && w.runs[r].status == R.Queued &&
                 SameSaga(w.runs[r].(status := R.Failed), after.runs[r])
             case _ => after.runs[r] == w.runs[r]
    ensures NotStranded(after)
  {
    match result
    case Isolates(_) => IsolatedNotStranded(w, after, r);
    case _ => SameNotStranded(w, after, r);
  }

  lemma ResumeNotStranded(w: World, step: Step)
    requires RowsOk(w) && NotStranded(w) && step.Resume?
    ensures NotStranded(Next(w, step))
  {
    if step.run in w.runs {
      ResumeEffect(w, step);
      SameNotStranded(w, Next(w, step), step.run);
    }
  }

  lemma RescheduleNotStranded(w: World, step: Step)
    requires RowsOk(w) && NotStranded(w) && step.Reschedule?
    ensures NotStranded(Next(w, step))
  {
    if Next(w, step) != w {
      SameNotStranded(w, Next(w, step), step.run);
    }
  }

  lemma DispatchNotStranded(w: World, step: Step)
    requires RowsOk(w) && NotStranded(w) && (step.Dispatch? || step.Publish?)
    ensures NotStranded(Next(w, step))
  {
    if step.Dispatch? && RunEffect(w, step).Some? {
      DispatchSaga(w.runs[step.run], w.next, 0);
      SameNotStranded(w, Next(w, step), step.run);
    } else {
      GrownNotStranded(w, Next(w, step));
    }
  }

  lemma NobodyIsLate(w: World, step: Step)
    requires step.NotePublication? && RunEffect(w, step).None?
    ensures !LateDispatcherFails(w, step)
  {
  }

  lemma LateIs(w: World, step: Step)
    requires step.NotePublication? && RunEffect(w, step).Some?
    ensures LateDispatcherFails(w, step) ==
            Late(w.publications[step.publisher], w.runs[w.publications[step.publisher].run],
                 w.publications[step.publisher].run in w.operations)
  {
  }

  predicate Late(p: Publication, run: Run, hasOperation: bool) {
    && p.state == Broken && p.publisher == Dispatcher(false) && hasOperation
    && run.token == Some(p.token) && run.status == R.Queued && run.resumes > 0
  }

  /** A failed dispatch keeps the client resumable, unless the dispatcher is a late one. */
  lemma NoteNotStranded(w: World, step: Step)
    requires SagasOk(w) && NotStranded(w) && step.NotePublication?
    ensures NotStranded(Next(w, step)) <==> !LateDispatcherFails(w, step)
  {
    if RunEffect(w, step).Some? {
      NotePublicationEffect(w, step);
      FailureIsExact(w, step);
      LateIs(w, step);
      NotedNotStranded(w, Next(w, step), w.publications[step.publisher]);
    } else {
      NothingNoted(w, step);
      NobodyIsLate(w, step);
    }
  }

  /** The failure is recorded exactly when the run is still queued with the token. */
  lemma FailureIsExact(w: World, step: Step)
    requires RunsOk(w) && PublishersOk(w) && step.NotePublication? && RunEffect(w, step).Some?
    ensures var p := w.publications[step.publisher];
            && FailureStatus(p, w.runs[p.run], Next(w, step).runs[p.run].status)
            && (p.publisher == Dispatcher(true) ==> w.runs[p.run].resumes > 0)
  {
    var p := w.publications[step.publisher];
    assert RunOk(w.runs[p.run], w.next, w.max);
    DispatchFollows(w, step);
    EffectIsExact(w.runs[p.run], p, w.next, w.max);
  }

  predicate FailureStatus(p: Publication, run: Run, status: RunStatus) {
    if p.state == Broken && p.publisher.Dispatcher? && run.token == Some(p.token) && run.status == R.Queued then
      status == (if p.publisher == Dispatcher(true) then R.PartiallyFailed else R.Failed)
    else status == run.status
  }

  lemma EffectIsExact(run: Run, p: Publication, next: Token, max: nat)
    requires Sound(run, next) && (p.state == Sent || p.state == Broken)
    ensures FailureStatus(p, run, Apply(run, PublicationEffect(p), max).status)
  {
    if p.state == Broken && p.publisher.Dispatcher? {
      DispatchFailureSound(run, p.token, if p.publisher == Dispatcher(true) then R.PartiallyFailed else R.Failed, next);
      DispatchFailureSaga(run, p.token, if p.publisher == Dispatcher(true) then R.PartiallyFailed else R.Failed);
    } else {
      DispatchSaga(run, 0, p.token);
    }
  }

  lemma NotedNotStranded(w: World, after: World, p: Publication)
    requires RowsOk(w) && OneLive(w) && NotStranded(w) && p.run in w.runs && OnlyRun(w, after, p.run) &&
             after.clients == w.clients
    requires FailureStatus(p, w.runs[p.run], after.runs[p.run].status) &&
             (p.publisher == Dispatcher(true) ==> w.runs[p.run].resumes > 0)
    ensures NotStranded(after) <==> !Late(p, w.runs[p.run], p.run in w.operations)
  {
    if Late(p, w.runs[p.run], p.run in w.operations) {
      StrandedNow(w, after, p.run);
    } else {
      if p.run in w.operations {
        assert OperationOk(w.operations[p.run].action, w.runs[p.run], w.clients[w.operations[p.run].client]);
      }
      SameNotStranded(w, after, p.run);
    }
  }

  lemma StrandedNow(w: World, after: World, r: nat)
    requires RowsOk(w) && OneLive(w) && r in w.runs && r in w.operations && OnlyRun(w, after, r) &&
             after.clients == w.clients
    requires w.runs[r].status == R.Queued && w.runs[r].resumes > 0 && after.runs[r].status == R.Failed
    ensures after.clients[w.operations[r].client].status == R.Partial && !HasLive(after, w.operations[r].client)
  {
    var c := w.operations[r].client;
    assert OperationOk(w.operations[r].action, w.runs[r], w.clients[c]);
    forall s | s in after.operations && after.operations[s].client == c && s in after.runs
      ensures !Live(after.runs[s].status)
    {
      if s != r {
        assert after.runs[s] == w.runs[s];
      }
    }
  }

  lemma AttemptNotStranded(w: World, step: Step)
    requires RowsOk(w) && NotStranded(w) && (step.Prepare? || step.Call? || step.Conclude?)
    ensures NotStranded(Next(w, step))
  {
    if WorkerIsKnown(w, step.worker) {
      AttemptEffect(w, step);
      SameNotStranded(w, Next(w, step), w.workers[step.worker].run);
    }
  }

  lemma OthersNotStranded(w: World, step: Step)
    requires RowsOk(w) && NotStranded(w) && !step.NotePublication? &&
             forall r <- w.runs :: w.runs[r].status != R.Pending
    ensures NotStranded(Next(w, step))
  {
    if step.AddClient? || step.CreateRpa? || step.CreateScan? {
      CreatedNotStranded(w, step);
    } else if step.Deliver? {
      DeliverNotStranded(w, step);
    } else if step.Prepare? || step.Call? || step.Conclude? {
      AttemptNotStranded(w, step);
    } else if step.Finish? {
      FinishNotStranded(w, step);
    } else if step.Reconcile? {
      ReconcileNotStranded(w, step);
    } else if step.Resume? {
      ResumeNotStranded(w, step);
    } else if step.Reschedule? {
      RescheduleNotStranded(w, step);
    } else {
      DispatchNotStranded(w, step);
    }
  }

  /** A step leaves some partial client without an operation to resume exactly when it is the late dispatcher. */
  lemma StrandedExactlyBy(w: World, step: Step)
    requires SagasOk(w) && NotStranded(w)
    ensures NotStranded(Next(w, step)) <==> !LateDispatcherFails(w, step)
  {
    if step.NotePublication? {
      NoteNotStranded(w, step);
    } else {
      assert forall r <- w.runs :: w.runs[r].status != R.Pending by {
        assert forall r <- w.runs :: RunOk(w.runs[r], w.next, w.max);
      }
      OthersNotStranded(w, step);
    }
  }

  lemma {:induction false} PartialClientsCanBeResumed(max: nat, steps: seq<Step>)
    requires max >= 1
    requires forall i :: 0 <= i < |steps| ==> !LateDispatcherFails(Execution(Initial(max), steps[..i]), steps[i])
    ensures SagasOk(Execution(Initial(max), steps)) && NotStranded(Execution(Initial(max), steps))
    decreases |steps|
  {
    if steps != [] {
      var init := steps[..|steps| - 1];
      forall i | 0 <= i < |init|
        ensures !LateDispatcherFails(Execution(Initial(max), init[..i]), init[i])
      {
        assert init[..i] == steps[..i];
      }
      PartialClientsCanBeResumed(max, init);
      NextSagasOk(Execution(Initial(max), init), steps[|steps| - 1]);
      StrandedExactlyBy(Execution(Initial(max), init), steps[|steps| - 1]);
    }
  }

  /** The request that created the run has not dispatched it. */
  predicate CreatorWaits(w: World, r: nat) {
    forall q <- w.publications :: w.publications[q].run == r ==> w.publications[q].publisher != Dispatcher(false)
  }

  /** It can happen wherever an operation is partially failed and the request that created it has not dispatched it
      yet: when it does so after the resumption, and fails, it leaves the client partial for good. */
  lemma LateDispatcherStrands(w: World, r: nat, p: nat)
    requires SagasOk(w) && r in w.operations && w.runs[r].status == R.PartiallyFailed && p !in w.publications
    requires CreatorWaits(w, r)
    ensures var after := Execution(w, [Resume(r), Dispatch(p, r, false), Publish(p, false, true), NotePublication(p)]);
            var c := w.operations[r].client;
            && r in after.runs && after.runs[r].status == R.Failed
            && c in after.clients && after.clients[c].status == R.Partial && !HasLive(after, c)
            && Next(after, Resume(r)) == after
            && forall s, action :: Next(after, CreateRpa(s, c, action)) == after
  {
    var steps := [Resume(r), Dispatch(p, r, false), Publish(p, false, true), NotePublication(p)];
    var resumed := Next(w, steps[0]);
    var broken := Next(Next(resumed, steps[1]), steps[2]);
    FourSteps(w, steps);
    ResumedNow(w, r);
    NextSagasOk(w, steps[0]);
    DispatchedNow(resumed, r, p);
    NextSagasOk(resumed, steps[1]);
    NextSagasOk(Next(resumed, steps[1]), steps[2]);
    NotedNow(broken, r, p, w.operations[r].client);
  }

  lemma NotedNow(w: World, r: nat, p: nat, c: nat)
    requires SagasOk(w) && r in w.operations && w.operations[r].client == c && p in w.publications
    requires w.runs[r].status == R.Queued && w.runs[r].resumes > 0
    requires w.publications[p].run == r && w.publications[p].state == Broken &&
             w.publications[p].publisher == Dispatcher(false)
    requires w.runs[r].token == Some(w.publications[p].token)
    ensures var after := Next(w, NotePublication(p));
            && r in after.runs && after.runs[r].status == R.Failed
            && c in after.clients && after.clients[c].status == R.Partial && !HasLive(after, c)
            && Next(after, Resume(r)) == after
            && forall s, action :: Next(after, CreateRpa(s, c, action)) == after
  {
    FailureIsExact(w, NotePublication(p));
    NotePublicationEffect(w, NotePublication(p));
    StrandedNow(w, Next(w, NotePublication(p)), r);
    StrandedIsStuck(Next(w, NotePublication(p)), r, c);
  }

  /** Neither resuming nor a new operation helps a stranded client. */
  lemma StrandedIsStuck(w: World, r: nat, c: nat)
    requires r in w.runs && w.runs[r].status == R.Failed && c in w.clients && w.clients[c].status == R.Partial
    ensures Next(w, Resume(r)) == w
    ensures forall s, action :: Next(w, CreateRpa(s, c, action)) == w
  {
  }

  lemma FourSteps(w: World, steps: seq<Step>)
    requires |steps| == 4
    ensures Execution(w, steps) == Next(Next(Next(Next(w, steps[0]), steps[1]), steps[2]), steps[3])
  {
    assert steps[..3][..2] == steps[..2] && steps[..2][..1] == steps[..1] && steps[..1][..0] == [];
    assert Execution(w, steps[..1]) == Next(w, steps[0]);
    assert Execution(w, steps[..2]) == Next(Execution(w, steps[..1]), steps[1]);
    assert Execution(w, steps[..3]) == Next(Execution(w, steps[..2]), steps[2]);
  }

  lemma ResumedNow(w: World, r: nat)
    requires SagasOk(w) && r in w.operations && w.runs[r].status == R.PartiallyFailed
    ensures var after := Next(w, Resume(r));
            && after.operations == w.operations && after.publications == w.publications
            && r in after.runs && after.runs[r].status == R.Queued && after.runs[r].resumes > 0
            && !after.runs[r].dispatchStarted && !after.runs[r].published
  {
    assert OperationOk(w.operations[r].action, w.runs[r], w.clients[w.operations[r].client]);
    assert RunOk(w.runs[r], w.next, w.max);
    NoOtherActive(w, r);
    ResumeSound(w.runs[r], w.next, w.next);
    ResumeIsAllowed(w, r);
  }

  lemma NoOtherActive(w: World, r: nat)
    requires RowsOk(w) && OneLive(w) && r in w.operations && w.runs[r].status == R.PartiallyFailed
    ensures !HasActiveOperation(w, w.operations[r].client, Some(r))
  {
    forall s | s in w.operations && s != r && w.operations[s].client == w.operations[r].client
      ensures !IsActive(w.runs[s].status)
    {
      assert !(Live(w.runs[r].status) && Live(w.runs[s].status));
    }
  }

  lemma ResumeIsAllowed(w: World, r: nat)
    requires r in w.runs && r in w.operations && w.runs[r].code == SC05 && w.runs[r].status == R.PartiallyFailed
    requires !HasActiveOperation(w, w.operations[r].client, Some(r)) && ResumeRun(w.runs[r], w.next).Some?
    ensures var after := Next(w, Resume(r));
            && after.operations == w.operations && after.publications == w.publications
            && r in after.runs && after.runs[r].status == R.Queued && after.runs[r].resumes > 0
            && !after.runs[r].dispatchStarted && !after.runs[r].published
  {
  }

  lemma DispatchedNow(w: World, r: nat, p: nat)
    requires RunsOk(w) && r in w.runs && p !in w.publications
    requires w.runs[r].status == R.Queued && w.runs[r].resumes > 0 && !w.runs[r].dispatchStarted && !w.runs[r].published
    ensures var dispatched := Next(w, Dispatch(p, r, false));
            var broken := Next(dispatched, Publish(p, false, true));
            && broken.operations == w.operations && r in broken.runs && p in broken.publications
            && broken.runs[r].status == R.Queued && broken.runs[r].resumes > 0
            && broken.publications[p].run == r && broken.publications[p].state == Broken
            && broken.publications[p].publisher == Dispatcher(false)
            && broken.runs[r].token == Some(broken.publications[p].token)
  {
    assert RunOk(w.runs[r], w.next, w.max);
    DispatchSound(w.runs[r], w.next, w.next);
    DispatchSaga(w.runs[r], w.next, 0);
  }

  // ----- And it does happen -----

  lemma {:induction false} ExecutionConcat(w: World, first: seq<Step>, next: seq<Step>)
    ensures Execution(w, first + next) == Execution(Execution(w, first), next)
    decreases |next|
  {
    if next == [] {
      assert first + next == first;
    } else {
      var init := next[..|next| - 1];
      ExecutionConcat(w, first, init);
      assert (first + next)[..|first + next| - 1] == first + init;
    }
  }

  lemma ExecutionOne(w: World, first: seq<Step>, step: Step)
    ensures Execution(w, first + [step]) == Next(Execution(w, first), step)
  {
    assert (first + [step])[..|first|] == first;
  }

  /** A client is added and blocked; the request that created the operation is delayed before its dispatch. */
  const CREATED: seq<Step> := [AddClient(0), CreateRpa(0, 0, Block)]

  lemma AfterCreation(max: nat)
    ensures Execution(Initial(max), CREATED) ==
            World(map[0 := NewRun(SC05, 0, false)], map[0 := Operation(0, Block)], map[0 := Client(R.Active, false)],
                  map[], map[], map[], {}, 1, max)
  {
    var none: seq<Step> := [];
    ExecutionOne(Initial(max), none, AddClient(0));
    assert none + [AddClient(0)] == [AddClient(0)];
    ExecutionOne(Initial(max), [AddClient(0)], CreateRpa(0, 0, Block));
    assert [AddClient(0)] + [CreateRpa(0, 0, Block)] == CREATED;
  }

  /** The run of operation 0 of client 0, delivered under token 1 by the reconciler and by nobody else. */
  predicate OnlyRecovered(w: World, max: nat) {
    && w.max == max && 0 in w.operations && w.operations[0] == Operation(0, Block) && 0 in w.clients
    && w.publications.Keys <= {0} && (0 in w.publications ==> w.publications[0].publisher == Reconciler)
    && 0 in w.runs && Sound(w.runs[0], 2) && w.runs[0].code == SC05 && w.runs[0].token == Some(1)
  }

  /** The reconciler recovers the run. */
  lemma RecoveredFirst(w: World, max: nat)
    requires max >= 1
    requires w == World(map[0 := NewRun(SC05, 0, false)], map[0 := Operation(0, Block)],
                        map[0 := Client(R.Active, false)],
                        map[], map[], map[], {}, 1, max)
    ensures var after := Next(w, Reconcile(0, 0));
            && OnlyRecovered(after, max) && after.runs[0].status == R.Queued && after.workers == map[]
            && after.publications == map[0 := Publication(0, 1, Reconciler, Claiming)]
  {
    var run := NewRun(SC05, 0, false);
    NewRunSound(SC05, 0, false);
    ClaimSound(run, 1, 1);
    ClaimColumns(run, 1);
    assert ReconcileRun(run, 1, max, IsAmbiguous(w, 0), false) == ClaimRecovery(run, 1);
  }

  lemma PublishedThen(w: World, max: nat)
    requires OnlyRecovered(w, max) && w.runs[0].status == R.Queued && w.workers == map[]
    requires w.publications == map[0 := Publication(0, 1, Reconciler, Claiming)]
    ensures var after := Next(w, Publish(0, true, false));
            && OnlyRecovered(after, max) && after.runs[0].status == R.Queued && after.workers == map[]
            && Message(0, 1) in after.messages
  {
  }

  /** The delivery in terms of the run alone, and then in terms of the world. */
  lemma RunExecutes(run: Run)
    requires Sound(run, 2) && run.code == SC05 && run.status == R.Queued && run.token == Some(1)
    ensures var start := StartExternal(run, 1, false);
            start.Execute? && Sound(start.run, 2) && start.run.code == SC05 && start.run.status == R.Running &&
                start.run.token == Some(1)
  {
    StartSound(run, 1, false, 2);
    StartSaga(run, 1, false);
    StartKeepsToken(run, 1);
  }

  lemma StartKeepsToken(run: Run, token: Token)
    requires run.code == SC05 && StartExternal(run, token, false).Execute?
    ensures StartExternal(run, token, false).run.token == Some(token)
  {
  }

  lemma DeliveredWorld(w: World)
    requires 0 in w.runs && w.runs[0].code == SC05 && w.workers == map[] && Message(0, 1) in w.messages
    requires StartExternal(w.runs[0], 1, false).Execute?
    ensures Next(w, Deliver(0, 0, 1, false)) ==
            w.(runs := w.runs[0 := StartExternal(w.runs[0], 1, false).run],
               workers := map[0 := Worker(0, 1, Working, 0, 0, 0)])
  {
  }

  lemma DeliveredThen(w: World, max: nat)
    requires OnlyRecovered(w, max) && w.runs[0].status == R.Queued && w.workers == map[] && Message(0, 1) in w.messages
    ensures var after := Next(w, Deliver(0, 0, 1, false));
            && OnlyRecovered(after, max) && after.runs[0].status == R.Running
            && after.workers == map[0 := Worker(0, 1, Working, 0, 0, 0)]
  {
    RunExecutes(w.runs[0]);
    DeliveredWorld(w);
  }

  lemma RunEndsPartial(run: Run)
    requires Sound(run, 2) && run.status == R.Running && run.token == Some(1)
    ensures FinishRun(run, 1, R.PartiallyFailed).Some? &&
            FinishRun(run, 1, R.PartiallyFailed).value.status == R.PartiallyFailed
  {
    FinishSound(run, 1, R.PartiallyFailed, 2);
    FinishSaga(run, 1, R.PartiallyFailed);
  }

  lemma FinishedWorld(w: World)
    requires 0 in w.runs && w.workers == map[0 := Worker(0, 1, Working, 0, 0, 0)]
    requires FinishRun(w.runs[0], 1, R.PartiallyFailed).Some?
    ensures var after := Next(w, Finish(0, Residual));
            && after.operations == w.operations && after.publications == w.publications
            && after.runs == w.runs[0 := FinishRun(w.runs[0], 1, R.PartiallyFailed).value]
  {
    assert w.workers[0] == Worker(0, 1, Working, 0, 0, 0) && WorkerIsKnown(w, 0);
    assert Next(w, Finish(0, Residual)) == FinishStep(w, 0, Residual);
    var stopped := SetWorker(w, 0, w.workers[0].(phase := Stopped));
    var finished := Put(stopped, 0, DoFinish(1, R.PartiallyFailed));
    assert finished.runs == w.runs[0 := FinishRun(w.runs[0], 1, R.PartiallyFailed).value];
  }

  lemma LeftPartialThen(w: World, max: nat)
    requires OnlyRecovered(w, max) && w.runs[0].status == R.Running &&
             w.workers == map[0 := Worker(0, 1, Working, 0, 0, 0)]
    ensures var after := Next(w, Finish(0, Residual));
            && 0 in after.operations && after.operations[0].client == 0 && 0 in after.runs
            && after.runs[0].status == R.PartiallyFailed
            && CreatorWaits(after, 0) && 1 !in after.publications
  {
    RunEndsPartial(w.runs[0]);
    FinishedWorld(w);
  }

  const LEFT_PARTIAL: seq<Step> :=
      CREATED + [Reconcile(0, 0)] + [Publish(0, true, false)] + [Deliver(0, 0, 1, false)] + [Finish(0, Residual)]
  const LATE_DISPATCH: seq<Step> := [Resume(0), Dispatch(1, 0, false), Publish(1, false, true), NotePublication(1)]

  lemma CreatorStillWaits(max: nat)
    requires max >= 1
    ensures var w := Execution(Initial(max), LEFT_PARTIAL);
            && 0 in w.operations && w.operations[0].client == 0 && 0 in w.runs && w.runs[0].status == R.PartiallyFailed
            && CreatorWaits(w, 0) && 1 !in w.publications
  {
    var s1 := CREATED + [Reconcile(0, 0)];
    var s2 := s1 + [Publish(0, true, false)];
    var s3 := s2 + [Deliver(0, 0, 1, false)];
    AfterCreation(max);
    ExecutionOne(Initial(max), CREATED, Reconcile(0, 0));
    RecoveredFirst(Execution(Initial(max), CREATED), max);
    ExecutionOne(Initial(max), s1, Publish(0, true, false));
    PublishedThen(Execution(Initial(max), s1), max);
    ExecutionOne(Initial(max), s2, Deliver(0, 0, 1, false));
    DeliveredThen(Execution(Initial(max), s2), max);
    ExecutionOne(Initial(max), s3, Finish(0, Residual));
    LeftPartialThen(Execution(Initial(max), s3), max);
  }

  /** A whole life, from the empty system: the client ends partial, its operation failed, and neither a resumption nor
      a new operation is accepted. */
  lemma StrandedLife(max: nat)
    requires max >= 1
    ensures var w := Execution(Initial(max), LEFT_PARTIAL + LATE_DISPATCH);
            && 0 in w.runs && w.runs[0].status == R.Failed
            && 0 in w.clients && w.clients[0].status == R.Partial && !HasLive(w, 0) && !NotStranded(w)
            && Next(w, Resume(0)) == w && forall s, action :: Next(w, CreateRpa(s, 0, action)) == w
  {
    CreatorStillWaits(max);
    ExecutionSagasOk(Initial(max), LEFT_PARTIAL);
    ExecutionConcat(Initial(max), LEFT_PARTIAL, LATE_DISPATCH);
    LateDispatcherStrands(Execution(Initial(max), LEFT_PARTIAL), 0, 1);
  }
}
