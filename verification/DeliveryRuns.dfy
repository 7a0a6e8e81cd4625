/** One run of an asynchronous module: its delivery columns, its log, and the transactions that change them.
    None from a transaction means that nothing was committed: a guard failed, or an exception rolled it back. */
module DeliveryRuns {
  import opened Options
  import opened RunLog
  import R = Runs

  type RunStatus = R.RunStatus

  datatype Module = SC04 | SC05 | SC20

  /** Identifiers of deliveries; a new one has never been used before. */
  type Token = nat

  datatype Key =
    | Created
    | QueuedFirst(token: Token)
    | DispatchStarted(token: Token)
    | DispatchFailed(token: Token)
    | BrokerPublished(token: Token)
    | RecoveryClaimed(token: Token)
    | PublishFailed(token: Token)
    | Rescheduled(token: Token)
    | Resumed(token: Token)
    | RedeliveryResumed(token: Token, attempts: nat)
    | Started(token: Token)
    | IgnoredSuperseded(token: Token)
    | IgnoredTerminal(token: Token, status: Option<RunStatus>)
    | IgnoredRunning(token: Token)
    | Quarantined(previous: Option<Token>, byWorker: bool)
    | Fenced(previous: Option<Token>)
    | Terminal(token: Token, outcome: RunStatus)
    | AttemptStarted(id: nat)
    | AttemptFinished(id: nat)

  datatype Run = Run(
    code: Module,
    status: RunStatus,
    token: Option<Token>,
    dispatchStarted: bool,
    published: bool,
    started: bool,
    dispatchError: bool,
    attempts: nat,
    resumes: nat,
    log: seq<Event<Key>>)

  predicate IsActive(status: RunStatus) {
    status == R.Pending || status == R.Queued || status == R.Running
  }

  const NO_CONTEXT := Context("", None, None)

  /** Record an event in the transaction that has already changed the row. */
  function Note(run: Run, key: Key, previous: Option<RunStatus>, token: Option<Token>, attempt: Option<nat>,
                facts: string): Option<Run> {
    match Record(run.log, key, Content(previous, Some(run.status), token, attempt, facts), NO_CONTEXT, None, 0)
    case Appended(log) => Some(run.(log := log))
    case Existing(_) => Some(run)
    case Conflict => None
  }

  /** An explicit delivery matches a run without a token. */
  predicate DeliveryMatches(run: Run, token: Token) {
    run.token.None? || run.token == Some(token)
  }

  function BindDelivery(run: Run, token: Token): Run
    requires DeliveryMatches(run, token)
  {
    run.(token := Some(token))
  }

  // ----- Creation, resumption, rescheduling -----

  function FirstEvents(token: Token, scheduled: bool): seq<Event<Key>> {
    var source := if scheduled then "scheduler" else "web";
    [ Event(1, Created, Content(None, Some(R.Queued), Some(token), None, source), NO_CONTEXT, 0),
      Event(2, QueuedFirst(token), Content(None, Some(R.Queued), Some(token), None, source), NO_CONTEXT, 0) ]
  }

  function NewRun(code: Module, token: Token, scheduled: bool): Run {
    Run(code, R.Queued, Some(token), false, false, false, false, 0, 0, FirstEvents(token, scheduled))
  }

  function ResumeRun(run: Run, newToken: Token): Option<Run> {
    if run.status != R.PartiallyFailed then None
    else
      var queued := run.(status := R.Queued, token := Some(newToken), dispatchStarted := false, published := false,
                         attempts := 0, resumes := run.resumes + 1);
      Note(queued, Resumed(newToken), Some(R.PartiallyFailed), Some(newToken), Some(queued.resumes), "queued")
  }

  /** The scheduler puts its run back when publishing had failed before any start. */
  function RescheduleRun(run: Run, newToken: Token): Option<Run> {
    if run.status != R.Failed || run.started || !run.dispatchError then None
    else
      var queued := run.(status := R.Queued, token := Some(newToken), dispatchStarted := false, published := false,
                         attempts := 0, dispatchError := false);
      Note(queued, Rescheduled(newToken), Some(R.Failed), Some(newToken), None, "requeued")
  }

  // ----- Dispatch -----

  datatype Dispatch = Refused | AlreadyDispatched(token: Token) | Claimed(run: Run, token: Token)

  function DispatchBegin(run: Run, newToken: Token): Dispatch {
    if run.status != R.Queued then Refused
    else if run.published || run.dispatchStarted then
      if run.token.Some? then AlreadyDispatched(run.token.value) else Refused
    else
      var token := run.token.GetOr(newToken);
      var noted := Note(run.(token := Some(token), dispatchStarted := true), DispatchStarted(token), Some(R.Queued),
                        Some(token), None, "started");
      if noted.Some? then Claimed(noted.value, token) else Refused
  }

  function DispatchFailure(run: Run, token: Token, status: RunStatus): Option<Run> {
    if run.token != Some(token) || run.status != R.Queued then None
    else Note(run.(status := status, dispatchError := true), DispatchFailed(token), Some(R.Queued), Some(token), None,
              "failed")
  }

  function DispatchSuccess(run: Run, token: Token): Option<Run> {
    if run.token != Some(token) then None
    else Note(run.(published := true), BrokerPublished(token), None, Some(token), None, "published")
  }

  function RecoveryPublishFailure(run: Run, token: Token): Option<Run> {
    if run.token != Some(token) || run.status != R.Queued then None
    else Note(run, PublishFailed(token), None, Some(token), Some(run.attempts), "publish_failed")
  }

  // ----- A delivery reaches a worker -----

  datatype Start = Raised | Ignored(run: Run) | Isolated(run: Run) | Exhausted(run: Run) | Execute(run: Run)

  function NotedStart(noted: Option<Run>, outcome: Run -> Start): Start {
    if noted.Some? then outcome(noted.value) else Raised
  }

  function Ignore(run: Run, key: Key, token: Option<Token>, facts: string): Start {
    NotedStart(Note(run, key, None, token, None, facts), r => Ignored(r))
  }

  /** Quarantine: the run loses its token, so that no delivery matches it until a person resumes it. */
  function Quarantine(run: Run, byWorker: bool): Option<Run> {
    var previous := run.token;
    var isolated := run.(attempts := run.attempts + 1, token := None, status := R.PartiallyFailed);
    Note(isolated, Quarantined(previous, byWorker), Some(run.status), previous, Some(isolated.attempts), "quarantined")
  }

  /** A SC-05 or SC-20 delivery. The two modules differ in which statuses end a run and in one key. */
  function StartExternal(run: Run, token: Token, redelivered: bool): Start
    requires run.code != SC04
  {
    if !DeliveryMatches(run, token) then Ignore(run, IgnoredSuperseded(token), Some(token), "superseded")
    else if !IsActive(run.status) then
      Ignore(run, IgnoredTerminal(token, if run.code == SC05 then Some(run.status) else None), Some(token), "terminal")
    else
      var bound := BindDelivery(run, token).(dispatchStarted := true, published := true);
      if run.status == R.Running then
        if redelivered then NotedStart(Quarantine(bound, true), r => Isolated(r))
        else Ignore(run, IgnoredRunning(token), Some(token), "already_running")
      else
        var running := bound.(status := R.Running, started := true);
        NotedStart(Note(running, Started(token), Some(run.status), Some(token), None, "started"), r => Execute(r))
  }

  /** A redelivered SC-04 run is taken up again until its attempts are used up. */
  function TakeUp(run: Run, token: Token, max: nat): Start {
    var bound := run.(token := Some(token), dispatchStarted := true, published := true);
    if run.attempts >= max then
      NotedStart(Note(bound.(token := None, status := R.Failed), Terminal(token, R.Failed), Some(R.Running),
                      Some(token), None, "recovery_exhausted"), r => Exhausted(r))
    else
      var resumed := bound.(attempts := run.attempts + 1);
      NotedStart(Note(resumed, RedeliveryResumed(token, resumed.attempts), Some(R.Running), Some(token),
                      Some(resumed.attempts), "resumed"), r => Execute(r))
  }

  function StartTriage(run: Run, token: Token, redelivered: bool, max: nat): Start
    requires run.code == SC04
  {
    if !DeliveryMatches(run, token) then Ignore(run, IgnoredSuperseded(token), Some(token), "superseded")
    else if run.status == R.Running && redelivered then TakeUp(run, token, max)
    else if run.status != R.Pending && run.status != R.Queued then
      Ignore(run, IgnoredTerminal(token, Some(run.status)), Some(token), "not_executable")
    else
      var running := run.(token := Some(token), dispatchStarted := true, published := true, status := R.Running,
                          started := true);
      NotedStart(Note(running, Started(token), Some(run.status), Some(token), None, "started"), r => Execute(r))
  }

  // ----- A worker's guarded transactions -----

  predicate Guarded(run: Run, token: Token) {
    run.status == R.Running && DeliveryMatches(run, token)
  }

  function StartAttempt(run: Run, token: Token, id: nat): Option<Run> {
    if !Guarded(run, token) then None
    else Note(run, AttemptStarted(id), None, Some(token), Some(id), "started")
  }

  function FinishAttempt(run: Run, token: Token, id: nat, ok: bool): Option<Run> {
    if !Guarded(run, token) then None
    else Note(run, AttemptFinished(id), None, Some(token), Some(id), if ok then "succeeded" else "failed")
  }

  predicate IsFinal(status: RunStatus) {
    status == R.Succeeded || status == R.SucceededWithWarnings || status == R.PartiallyFailed || status == R.Failed
  }

  function FinishRun(run: Run, token: Token, status: RunStatus): Option<Run> {
    if !Guarded(run, token) || (run.code == SC05 && run.token != Some(token)) then None
    else Note(run.(status := status), Terminal(token, status), Some(R.Running), Some(token), None, "finished")
  }

  // ----- Reconciliation -----

  datatype Reconciled = Skipped | Requeued(run: Run, token: Token) | Isolates(run: Run) | Fails(run: Run) | Rejected

  /** A stale queue is one that was never confirmed as published; staleness in time is left to the caller. */
  predicate IsStale(run: Run) {
    || (run.status == R.Pending && run.code == SC04)
    || (run.status == R.Queued && !run.published)
    || run.status == R.Running
  }

  function ClaimRecovery(run: Run, newToken: Token): Reconciled {
    var queued := run.(status := R.Queued, token := Some(newToken), dispatchStarted := true, published := false,
                       attempts := run.attempts + 1);
    var noted := Note(queued, RecoveryClaimed(newToken), Some(run.status), Some(newToken), Some(queued.attempts),
                      "requeued");
    if noted.Some? then Requeued(noted.value, newToken) else Rejected
  }

  function Fence(run: Run): Reconciled {
    var noted := Note(run.(token := None, status := R.Failed), Fenced(run.token), Some(run.status), run.token,
                      Some(run.attempts), "failed");
    if noted.Some? then Fails(noted.value) else Rejected
  }

  function Isolate(run: Run): Reconciled {
    var noted := Quarantine(run, false);
    if noted.Some? then Isolates(noted.value) else Rejected
  }

  /** `ambiguous` is whether the SC-05 queue may hide external changes; `newItems` whether a SC-04 upload got in. */
  function ReconcileRun(run: Run, newToken: Token, max: nat, ambiguous: bool, newItems: bool): Reconciled {
    if !IsStale(run) then Skipped
    else if run.status == R.Pending then
      if newItems then ClaimRecovery(run, newToken) else Fence(run)
    else if run.status == R.Queued then
      if run.attempts < max then ClaimRecovery(run, newToken)
      else if run.code == SC05 && ambiguous then Isolate(run)
      else Fence(run)
    else if run.code != SC04 then Isolate(run)
    else if run.attempts >= max then Fence(run)
    else ClaimRecovery(run, newToken)
  }
}
