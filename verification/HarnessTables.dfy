/** The tables of the harness store and its operations, each a function from the tables
    to an answer: the new tables and a value, or an error. */
module HarnessTables {
  import opened Json
  import opened Binding
  import opened HarnessSpecs

  datatype TaskState = Ready | Leased | Blocked | Unknown | Failed | Committed
  datatype Outcome = Unsuccessful | Rejected | Uncertain | Accepted
  datatype Failure = OutrightFailure | UnknownOutcome

  datatype SpecRow = SpecRow(text: string, hash: string, createdAt: int)
  datatype StateRow = StateRow(state: TaskState, activeLease: Option<string>, canonical: Option<string>, updatedAt: int)
  datatype Lease = Lease(
    task: string, resource: string, contextHash: string, contextSize: nat, acquiredAt: int, expiresAt: int, releasedAt: Option<int>)
  datatype Attempt = Attempt(
    task: string, resource: string, lease: string, contextHash: string, digest: Option<string>, ref: Option<string>,
    outcome: Outcome, retrySafe: bool, startedAt: int, completedAt: int)
  datatype CanonicalRow = CanonicalRow(attempt: string, receipt: string, committedAt: int)

  datatype Tables = Tables(
    tasks: map<string, SpecRow>,
    states: map<string, StateRow>,
    resources: map<string, SpecRow>,
    leases: map<string, Lease>,
    attempts: map<string, Attempt>,
    canonical: map<string, CanonicalRow>)

  const EMPTY := Tables(map[], map[], map[], map[], map[], map[])

  /** The exceptions: `ConflictError`, `EligibilityError`, `LeaseError`, `StateError`,
      `KeyError`, `ValueError` and SQLite's `IntegrityError`. */
  datatype Error = Conflict | Ineligible | LeaseRefused | WrongState | NoSuchKey | BadValue | Duplicate

  datatype Answer<+T> = Done(db: Tables, value: T) | Raised(error: Error)

  // ------------------------------------------------------------ specifications

  /** `submit_task`. */
  function SubmitTask(sha: Hash, db: Tables, spec: TaskSpec, now: int): Answer<string> {
    var raw := TaskText(spec);
    match Loads(raw)
    case None => Raised(BadValue)
    case Some(value) =>
      var digest := SpecHash(sha, value);
      if spec.taskId in db.tasks then
        if db.tasks[spec.taskId].hash != digest then Raised(Conflict) else Done(db, digest)
      else
        Done(db.(tasks := db.tasks[spec.taskId := SpecRow(raw, digest, now)],
                 states := db.states[spec.taskId := StateRow(Ready, None, None, now)]), digest)
  }

  /** `register_resource`. */
  function RegisterResource(sha: Hash, db: Tables, spec: ResourceSpec, now: int): Answer<string> {
    var raw := ResourceText(spec);
    match Loads(raw)
    case None => Raised(BadValue)
    case Some(value) =>
      var digest := SpecHash(sha, value);
      if spec.resourceId in db.resources then
        if db.resources[spec.resourceId].hash != digest then Raised(Conflict) else Done(db, digest)
      else Done(db.(resources := db.resources[spec.resourceId := SpecRow(raw, digest, now)]), digest)
  }

  // --------------------------------------------------------------------- leases

  predicate IsOpen(lease: Lease) {
    lease.releasedAt == None
  }

  predicate IsExpired(lease: Lease, now: int) {
    IsOpen(lease) && lease.expiresAt <= now
  }

  function ExpiredLeases(db: Tables, now: int): set<string> {
    set l | l in db.leases && IsExpired(db.leases[l], now)
  }

  /** The tables once the leases in `ids` have been reaped. */
  function Reaped(db: Tables, now: int, ids: set<string>): Tables {
    db.(leases := map l | l in db.leases :: if l in ids then db.leases[l].(releasedAt := Some(now)) else db.leases[l],
        states := map t | t in db.states :: ReapedState(db.states[t], now, ids))
  }

  function ReapedState(row: StateRow, now: int, ids: set<string>): StateRow {
    if row.state == Leased && row.activeLease.Some? && row.activeLease.value in ids then
      row.(state := Ready, activeLease := None, updatedAt := now)
    else row
  }

  /** `reap_expired`. */
  function Reap(db: Tables, now: int): Tables {
    Reaped(db, now, ExpiredLeases(db, now))
  }

  /** What `acquire_lease` checks before its transaction, on the specifications as it
      reads them then. */
  function CheckEligible(seen: Tables, task: string, resource: string, context: string, ttl: int): Option<Error> {
    if ttl <= 0 then Some(BadValue)
    else if task !in seen.tasks then Some(NoSuchKey)
    else
      match DecodeTask(seen.tasks[task].text)
      case None => Some(BadValue)
      case Some(t) =>
        if resource !in seen.resources then Some(NoSuchKey)
        else
          match DecodeResource(seen.resources[resource].text)
          case None => Some(BadValue)
          case Some(r) => if Fits(t, r, |context|) then None else Some(Ineligible)
  }

  /** Eligible, and the context is within both limits. */
  predicate Fits(t: TaskSpec, r: ResourceSpec, size: nat) {
    && IsMutation(t.mutation) && IsMutation(r.mutation) && Eligible(t, r)
    && (t.contextBudget.Some? ==> size <= t.contextBudget.value)
    && (r.contextLimit.Some? ==> size <= r.contextLimit.value)
  }

  /** The primary key and the two partial unique indexes of `leases`. */
  predicate LeaseTaken(db: Tables, id: string, task: string, resource: string) {
    id in db.leases || exists l :: l in db.leases && IsOpen(db.leases[l]) && (db.leases[l].task == task || db.leases[l].resource == resource)
  }

  /** The transaction of `acquire_lease`: reap, then lease the task if it is ready. */
  function AcquireLease(sha: Hash, db: Tables, task: string, resource: string, context: string, ttl: int, now: int, id: string): Answer<Lease> {
    var reaped := Reap(db, now);
    if task !in reaped.states then Raised(NoSuchKey)
    else if reaped.states[task].state != Ready then Raised(LeaseRefused)
    else if LeaseTaken(reaped, id, task, resource) then Raised(LeaseRefused)
    else
      var lease := Lease(task, resource, sha(context), |context|, now, now + ttl, None);
      var row := reaped.states[task].(state := Leased, activeLease := Some(id), updatedAt := now);
      Done(reaped.(leases := reaped.leases[id := lease], states := reaped.states[task := row]), lease)
  }

  // ------------------------------------------------------------------- attempts

  function AttemptsOf(attempts: map<string, Attempt>, task: string): set<string> {
    set a | a in attempts && attempts[a].task == task
  }

  /** What an attempt reports. */
  datatype Report = Report(
    result: Option<string>, ref: Option<string>, failure: Option<Failure>, retrySafe: bool, startedAt: Option<int>, completedAt: int)
  {
    function Started(): int {
      if startedAt.None? then completedAt else startedAt.value
    }

    predicate Sensible() {
      && failure.Some? != result.Some?
      && !(failure == Some(UnknownOutcome) && retrySafe)
      && Started() <= completedAt
    }
  }

  function OutcomeOf(sha: Hash, report: Report, expected: string): Outcome {
    match report.failure
    case Some(UnknownOutcome) => Uncertain
    case Some(OutrightFailure) => Unsuccessful
    case None => if report.result.Some? && sha(report.result.value) == expected then Accepted else Rejected
  }

  function DigestOf(sha: Hash, report: Report): Option<string> {
    if report.failure.None? && report.result.Some? then Some(sha(report.result.value)) else None
  }

  function NextState(outcome: Outcome, retrySafe: bool, attempts: nat, budget: int): TaskState {
    if outcome == Accepted then Blocked
    else if outcome == Uncertain then Unknown
    else if retrySafe && attempts <= budget then Ready
    else Failed
  }

  /** `record_attempt`. A lease found expired is reaped, but the error that follows rolls
      that back too. */
  function RecordAttempt(sha: Hash, db: Tables, lease: string, report: Report, id: string): Answer<Attempt> {
    if !report.Sensible() then Raised(BadValue)
    else if lease !in db.leases || !IsOpen(db.leases[lease]) then Raised(LeaseRefused)
    else
      var l := db.leases[lease];
      if l.expiresAt <= report.completedAt then Raised(LeaseRefused)
      else if l.task !in db.states || db.states[l.task].state != Leased || db.states[l.task].activeLease != Some(lease) then Raised(WrongState)
      else if l.task !in db.tasks then Raised(NoSuchKey)
      else
        match DecodeTask(db.tasks[l.task].text)
        case None => Raised(BadValue)
        case Some(t) =>
          if id in db.attempts || exists a :: a in db.attempts && db.attempts[a].lease == lease then Raised(Duplicate)
          else
            var outcome := OutcomeOf(sha, report, t.expected);
            var attempt := Attempt(l.task, l.resource, lease, l.contextHash, DigestOf(sha, report), report.ref, outcome, report.retrySafe,
                                   report.Started(), report.completedAt);
            var attempts := db.attempts[id := attempt];
            var next := NextState(outcome, report.retrySafe, |AttemptsOf(attempts, l.task)|, t.retryBudget);
            var row := db.states[l.task].(state := next, activeLease := None, updatedAt := report.completedAt);
            Done(db.(attempts := attempts,
                     leases := db.leases[lease := l.(releasedAt := Some(report.completedAt))],
                     states := db.states[l.task := row]), attempt)
  }

  // ----------------------------------------------------------- canonical results

  function OptionalStr(s: Option<string>): Json {
    match s
    case None => Null
    case Some(text) => Str(text)
  }

  /** The receipt, in the order it is built. */
  function Receipt(id: string, attempt: Attempt, specHash: string, committedAt: int): Json {
    Obj([Field("schema", Str("axiom-harness/receipt-v1")),
         Field("task_id", Str(attempt.task)),
         Field("task_spec_hash", Str(specHash)),
         Field("attempt_id", Str(id)),
         Field("resource_id", Str(attempt.resource)),
         Field("context_hash", Str(attempt.contextHash)),
         Field("result_digest", OptionalStr(attempt.digest)),
         Field("result_ref", OptionalStr(attempt.ref)),
         Field("outcome", Str("ACCEPTED")),
         Field("committed_at", Int(committedAt))])
  }

  /** `commit_accepted`. */
  function CommitAccepted(db: Tables, id: string, now: int): Answer<Json> {
    if id !in db.attempts then Raised(NoSuchKey)
    else
      var attempt := db.attempts[id];
      if attempt.outcome != Accepted then Raised(WrongState)
      else if attempt.task in db.canonical then
        if db.canonical[attempt.task].attempt != id then Raised(Conflict)
        else
          match Loads(db.canonical[attempt.task].receipt)
          case None => Raised(BadValue)
          case Some(receipt) => Done(db, receipt)
      else if attempt.task !in db.states || db.states[attempt.task].state != Blocked then Raised(WrongState)
      else if attempt.task !in db.tasks then Raised(NoSuchKey)
      else if exists t :: t in db.canonical && db.canonical[t].attempt == id then Raised(Duplicate)
      else
        var receipt := Receipt(id, attempt, db.tasks[attempt.task].hash, now);
        var row := db.states[attempt.task].(state := Committed, activeLease := None, canonical := Some(id), updatedAt := now);
        Done(db.(canonical := db.canonical[attempt.task := CanonicalRow(id, CanonicalJson(receipt), now)],
                 states := db.states[attempt.task := row]), receipt)
  }
}
