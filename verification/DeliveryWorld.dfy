/** The interleaving of web requests, broker, workers and reconciler over all SC-05 and SC-20 runs. Every step is
    one transaction, one broker operation or one gateway call; any process may stop for good between two steps. */
module DeliveryWorld {
  import opened Options
  import opened DeliveryRuns
  import opened DeliveryHistories
  import R = Runs

  datatype Action = Block | Unblock

  /** Whether the client keeps the responsibles to restore. */
  datatype Client = Client(status: R.ClientStatus, snapshot: bool)

  datatype Operation = Operation(client: nat, action: Action)

  /** A worker repeats: commit an attempt, call a gateway, commit the outcome; and ends by finishing the run. */
  datatype Phase = Working | Prepared | Called | Stopped

  datatype Worker = Worker(run: nat, token: Token, phase: Phase, attempt: nat, calls: nat, lateCalls: nat)

  datatype AttemptStatus = Open | Finished(ok: bool) | Interrupted

  datatype Attempt = Attempt(run: nat, worker: nat, status: AttemptStatus)

  datatype PublicationState = Claiming | Sent | Broken | Noted

  /** The process that publishes a token: the dispatcher of a request, or the reconciler. */
  datatype Publisher = Dispatcher(resumed: bool) | Reconciler

  datatype Publication = Publication(run: nat, token: Token, publisher: Publisher, state: PublicationState)

  datatype Message = Message(run: nat, token: Token)

  datatype World = World(
    runs: map<nat, Run>,
    operations: map<nat, Operation>,
    clients: map<nat, Client>,
    workers: map<nat, Worker>,
    attempts: map<nat, Attempt>,
    publications: map<nat, Publication>,
    messages: set<Message>,
    next: Token,
    max: nat)

  /** How a SC-05 worker ends: `Unsafe` is the refusal because of a task marker without a snapshot. */
  datatype Outcome = Success | Warnings | Restored | Residual | Unsafe

  datatype Step =
    | AddClient(client: nat)
    | CreateRpa(run: nat, client: nat, action: Action)
    | CreateScan(run: nat, scheduled: bool)
    | Reschedule(run: nat)
    | Dispatch(publisher: nat, run: nat, resumed: bool)
    | Publish(publisher: nat, delivered: bool, error: bool)
    | NotePublication(publisher: nat)
    | Deliver(worker: nat, run: nat, token: Token, redelivered: bool)
    | Prepare(worker: nat, attempt: nat)
    | Call(worker: nat)
    | Conclude(worker: nat, ok: bool)
    | Finish(worker: nat, outcome: Outcome)
    | Reconcile(publisher: nat, run: nat)
    | Resume(run: nat)

  // ----- Helpers -----

  /** One run takes a step of its own. */
  function Put(w: World, r: nat, step: RunStep): World
    requires r in w.runs
  {
    w.(runs := w.runs[r := Apply(w.runs[r], step, w.max)], next := NextToken(step, w.next))
  }

  function SetClient(w: World, r: nat, status: R.ClientStatus): World {
    if r in w.operations && w.operations[r].client in w.clients then
      var c := w.operations[r].client;
      w.(clients := w.clients[c := w.clients[c].(status := status)])
    else w
  }

  /** Quarantine of a SC-05 run closes its open attempts and marks its client. */
  function CloseAttempts(attempts: map<nat, Attempt>, r: nat): map<nat, Attempt> {
    map a | a in attempts :: if attempts[a].run == r && attempts[a].status == Open
        then attempts[a].(status := Interrupted) else attempts[a]
  }

  function IsolateRun(w: World, r: nat): World
    requires r in w.runs
  {
    if w.runs[r].code == SC05 then SetClient(w, r, R.Partial).(attempts := CloseAttempts(w.attempts, r)) else w
  }

  predicate HasActiveOperation(w: World, client: nat, except: Option<nat>) {
    exists r <- w.operations :: Some(r) != except && w.operations[r].client == client && r in w.runs &&
        IsActive(w.runs[r].status)
  }

  function Prior(action: Action): R.ClientStatus {
    if action == Block then R.Active else R.Blocked
  }

  // ----- The steps -----

  function CreateRpaStep(w: World, r: nat, c: nat, action: Action): World {
    if r in w.runs || c !in w.clients then w
    else
      var client := w.clients[c];
      if client.status == R.Partial || client.status == R.Unknown then w
      else if action == Block && client.status == R.Blocked then w
      else if action == Unblock && (client.status != R.Blocked || !client.snapshot) then w
      else if HasActiveOperation(w, c, None) then w
      else w.(runs := w.runs[r := NewRun(SC05, w.next, false)], operations := w.operations[r := Operation(c, action)],
              next := w.next + 1)
  }

  function CreateScanStep(w: World, r: nat, scheduled: bool): World {
    if r in w.runs then w else w.(runs := w.runs[r := NewRun(SC20, w.next, scheduled)], next := w.next + 1)
  }

  function DispatchStep(w: World, p: nat, r: nat, resumed: bool): World {
    if r !in w.runs || p in w.publications || (resumed && w.runs[r].resumes == 0) then w
    else
      var begun := DispatchBegin(w.runs[r], w.next);
      if begun.Claimed? then
        Put(w, r, DoDispatch(w.next)).(publications :=
                                       w.publications[p := Publication(r, begun.token, Dispatcher(resumed), Claiming)])
      else w
  }

  /** The broker may have taken a message although the publisher saw an error. */
  function PublishStep(w: World, p: nat, delivered: bool, error: bool): World {
    if p !in w.publications || w.publications[p].state != Claiming || (!error && !delivered) then w
    else
      var publication := w.publications[p];
      w.(messages := if delivered then w.messages + {Message(publication.run, publication.token)} else w.messages,
         publications := w.publications[p := publication.(state := if error then Broken else Sent)])
  }

  function PublicationEffect(publication: Publication): RunStep {
    if publication.state == Sent then DoDispatchSuccess(publication.token)
    else
      match publication.publisher
      case Dispatcher(resumed) => DoDispatchFailure(publication.token, if resumed then R.PartiallyFailed else R.Failed)
      case Reconciler => DoPublishFailure(publication.token)
  }

  function NotePublicationStep(w: World, p: nat): World {
    if p !in w.publications || w.publications[p].run !in w.runs then w
    else
      var publication := w.publications[p];
      if publication.state != Sent && publication.state != Broken then w
      else
        Put(w, publication.run,
            PublicationEffect(publication)).(publications := w.publications[p := publication.(state := Noted)])
  }

  function DeliverStep(w: World, id: nat, r: nat, t: Token, redelivered: bool): World {
    if id in w.workers || r !in w.runs || w.runs[r].code == SC04 || Message(r, t) !in w.messages then w
    else
      var start := StartExternal(w.runs[r], t, redelivered);
      var received := Put(w, r, DoDeliver(t, redelivered));
      if start.Execute? then received.(workers := w.workers[id := Worker(r, t, Working, 0, 0, 0)])
      else if start.Isolated? then IsolateRun(received, r)
      else received
  }

  function SetWorker(w: World, id: nat, worker: Worker): World {
    w.(workers := w.workers[id := worker])
  }

  function PrepareStep(w: World, id: nat, a: nat): World
    requires id in w.workers && w.workers[id].run in w.runs
  {
    var worker := w.workers[id];
    if worker.phase != Working || a in w.attempts then w
    else if StartAttempt(w.runs[worker.run], worker.token, a).None? then SetWorker(w, id, worker.(phase := Stopped))
    else
      SetWorker(Put(w, worker.run, DoStartAttempt(worker.token, a)), id, worker.(phase := Prepared, attempt := a))
      .(attempts := w.attempts[a := Attempt(worker.run, id, Open)])
  }

  /** The gateway call itself is not guarded. */
  function CallStep(w: World, id: nat): World
    requires id in w.workers && w.workers[id].run in w.runs
  {
    var worker := w.workers[id];
    if worker.phase != Prepared then w
    else
      var late := if w.runs[worker.run].token == Some(worker.token) then 0 else 1;
      SetWorker(w, id, worker.(phase := Called, calls := worker.calls + 1, lateCalls := worker.lateCalls + late))
  }

  function ConcludeStep(w: World, id: nat, ok: bool): World
    requires id in w.workers && w.workers[id].run in w.runs
  {
    var worker := w.workers[id];
    if worker.phase != Called || worker.attempt !in w.attempts then w
    else if FinishAttempt(w.runs[worker.run], worker.token, worker.attempt, ok).None?
        then SetWorker(w, id, worker.(phase := Stopped))
    else
      SetWorker(Put(w, worker.run, DoFinishAttempt(worker.token, worker.attempt, ok)), id, worker.(phase := Working))
      .(attempts := w.attempts[worker.attempt := w.attempts[worker.attempt].(status := Finished(ok))])
  }

  function FinalStatus(outcome: Outcome): RunStatus {
    match outcome
    case Success => R.Succeeded
    case Warnings => R.SucceededWithWarnings
    case Restored => R.Failed
    case Residual => R.PartiallyFailed
    case Unsafe => R.Failed
  }

  /** What the outcome of a SC-05 run writes to its client. */
  function FinalClient(client: Client, action: Action, outcome: Outcome): Client {
    match outcome
    case Success => if action == Block then Client(R.Blocked, true) else Client(R.Active, false)
    case Warnings => client
    case Restored => client.(status := Prior(action))
    case Residual => client.(status := R.Partial)
    case Unsafe => client.(status := R.Unknown)
  }

  function FinishStep(w: World, id: nat, outcome: Outcome): World
    requires id in w.workers && w.workers[id].run in w.runs
  {
    var worker := w.workers[id];
    var r := worker.run;
    if worker.phase == Stopped || worker.phase == Prepared || (w.runs[r].code == SC05 && outcome == Warnings) then w
    else
      var stopped := SetWorker(w, id, worker.(phase := Stopped));
      if FinishRun(w.runs[r], worker.token, FinalStatus(outcome)).None? then stopped
      else
        var finished := Put(stopped, r, DoFinish(worker.token, FinalStatus(outcome)));
        if w.runs[r].code == SC05 && r in w.operations && w.operations[r].client in w.clients then
          var c := w.operations[r].client;
          finished.(clients := w.clients[c := FinalClient(w.clients[c], w.operations[r].action, outcome)])
        else finished
  }

  predicate IsAmbiguous(w: World, r: nat)
    requires r in w.runs
  {
    var run := w.runs[r];
    if r in w.operations && w.operations[r].client in w.clients then
      var status := w.clients[w.operations[r].client].status;
      run.started || run.resumes > 0 || status == R.Partial || status == R.Unknown
    else run.started
  }

  function ReconcileStep(w: World, p: nat, r: nat): World {
    if r !in w.runs || p in w.publications then w
    else
      var result := ReconcileRun(w.runs[r], w.next, w.max, IsAmbiguous(w, r), false);
      var reconciled := Put(w, r, DoReconcile(w.next, IsAmbiguous(w, r), false));
      match result
      case Requeued(_, t) => reconciled.(publications := w.publications[p := Publication(r, t, Reconciler, Claiming)])
      case Isolates(_) => IsolateRun(reconciled, r)
      case Fails(_) => reconciled
      case _ => w
  }

  function ResumeStep(w: World, r: nat): World {
    if r !in w.runs || r !in w.operations || w.runs[r].code != SC05 then w
    else if w.runs[r].status != R.PartiallyFailed then w
    else if HasActiveOperation(w, w.operations[r].client, Some(r)) then w
    else Put(w, r, DoResume(w.next))
  }

  function RescheduleStep(w: World, r: nat): World {
    if r !in w.runs || w.runs[r].code != SC20 then w else Put(w, r, DoReschedule(w.next))
  }

  predicate WorkerIsKnown(w: World, id: nat) {
    id in w.workers && w.workers[id].run in w.runs
  }

  function Next(w: World, step: Step): World {
    match step
    case AddClient(c) => if c in w.clients then w else w.(clients := w.clients[c := Client(R.Active, false)])
    case CreateRpa(r, c, action) => CreateRpaStep(w, r, c, action)
    case CreateScan(r, scheduled) => CreateScanStep(w, r, scheduled)
    case Reschedule(r) => RescheduleStep(w, r)
    case Dispatch(p, r, resumed) => DispatchStep(w, p, r, resumed)
    case Publish(p, delivered, error) => PublishStep(w, p, delivered, error)
    case NotePublication(p) => NotePublicationStep(w, p)
    case Deliver(id, r, t, redelivered) => DeliverStep(w, id, r, t, redelivered)
    case Prepare(id, a) => if WorkerIsKnown(w, id) then PrepareStep(w, id, a) else w
    case Call(id) => if WorkerIsKnown(w, id) then CallStep(w, id) else w
    case Conclude(id, ok) => if WorkerIsKnown(w, id) then ConcludeStep(w, id, ok) else w
    case Finish(id, outcome) => if WorkerIsKnown(w, id) then FinishStep(w, id, outcome) else w
    case Reconcile(p, r) => ReconcileStep(w, p, r)
    case Resume(r) => ResumeStep(w, r)
  }

  function Initial(max: nat): World {
    World(map[], map[], map[], map[], map[], map[], {}, 0, max)
  }

  function Execution(w: World, steps: seq<Step>): World {
    if steps == [] then w else Next(Execution(w, steps[..|steps| - 1]), steps[|steps| - 1])
  }
}
