/** What every reachable state of the harness store satisfies. */
module HarnessInvariant {
  import opened Json
  import opened Binding
  import opened HarnessSpecs
  import opened HarnessTables

  // ------------------------------------------------------------ specifications

  /** The stored text is that of a specification with this identifier, and the hash is
      the text's. */
  ghost predicate TaskStored(sha: Hash, id: string, row: SpecRow) {
    match DecodeTask(row.text)
    case None => false
    case Some(t) => IsTask(t) && t.taskId == id && row.text == TaskText(t) && row.hash == sha(row.text)
  }

  ghost predicate ResourceStored(sha: Hash, id: string, row: SpecRow) {
    match DecodeResource(row.text)
    case None => false
    case Some(r) => IsResource(r) && r.resourceId == id && row.text == ResourceText(r) && row.hash == sha(row.text)
  }

  ghost predicate SpecsStored(sha: Hash, db: Tables) {
    && db.states.Keys == db.tasks.Keys
    && (forall t :: t in db.tasks ==> TaskStored(sha, t, db.tasks[t]))
    && (forall r :: r in db.resources ==> ResourceStored(sha, r, db.resources[r]))
  }

  // --------------------------------------------------------------------- leases

  /** The lease joins a stored task and resource that are eligible for each other, within
      both context limits. */
  ghost predicate LeaseFits(tasks: map<string, SpecRow>, resources: map<string, SpecRow>, lease: Lease) {
    && lease.task in tasks && lease.resource in resources && lease.acquiredAt < lease.expiresAt
    && DecodeTask(tasks[lease.task].text).Some? && DecodeResource(resources[lease.resource].text).Some?
    && Fits(DecodeTask(tasks[lease.task].text).value, DecodeResource(resources[lease.resource].text).value, lease.contextSize)
  }

  /** An open lease is the active lease of its task, which is leased. */
  ghost predicate LeaseHeld(states: map<string, StateRow>, id: string, lease: Lease) {
    IsOpen(lease) ==> lease.task in states && states[lease.task].state == Leased && states[lease.task].activeLease == Some(id)
  }

  /** A task has an active lease exactly if it is leased, and it is an open lease of its own. */
  ghost predicate StateFits(leases: map<string, Lease>, id: string, row: StateRow) {
    if row.state == Leased then
      row.activeLease.Some? && row.activeLease.value in leases &&
      IsOpen(leases[row.activeLease.value]) && leases[row.activeLease.value].task == id
    else row.activeLease == None
  }

  ghost predicate SeparateResources(leases: map<string, Lease>) {
    forall l, m :: l in leases && m in leases && IsOpen(leases[l]) && IsOpen(leases[m]) && leases[l].resource == leases[m].resource ==> l == m
  }

  ghost predicate LeasesSound(db: Tables) {
    && (forall l :: l in db.leases ==> LeaseFits(db.tasks, db.resources, db.leases[l]))
    && (forall l :: l in db.leases ==> LeaseHeld(db.states, l, db.leases[l]))
    && (forall t :: t in db.states ==> StateFits(db.leases, t, db.states[t]))
    && SeparateResources(db.leases)
  }

  // ------------------------------------------------------------------- attempts

  ghost predicate HasAttempt(attempts: map<string, Attempt>, lease: string) {
    exists a :: a in attempts && attempts[a].lease == lease
  }

  /** An attempt was made under a lease of its task, released when the attempt completed,
      before the lease expired. */
  ghost predicate AttemptFits(leases: map<string, Lease>, a: Attempt) {
    && a.lease in leases
    && (var l := leases[a.lease];
        && a.task == l.task && a.resource == l.resource && a.contextHash == l.contextHash
        && l.releasedAt == Some(a.completedAt) && a.startedAt <= a.completedAt < l.expiresAt)
    && (a.outcome == Uncertain ==> !a.retrySafe)
  }

  /** An attempt is accepted exactly if its result has the digest the task expects. */
  ghost predicate DigestFits(tasks: map<string, SpecRow>, a: Attempt) {
    && a.task in tasks && DecodeTask(tasks[a.task].text).Some?
    && (a.outcome == Accepted <==> a.digest == Some(DecodeTask(tasks[a.task].text).value.expected))
    && (a.digest.Some? <==> a.outcome == Accepted || a.outcome == Rejected)
  }

  /** A released lease that no attempt released was reaped, at or after its expiry. */
  ghost predicate ReleaseExplained(attempts: map<string, Attempt>, id: string, lease: Lease) {
    lease.releasedAt.Some? && !HasAttempt(attempts, id) ==> lease.expiresAt <= lease.releasedAt.value
  }

  ghost predicate AttemptsSound(db: Tables) {
    && (forall a :: a in db.attempts ==> AttemptFits(db.leases, db.attempts[a]))
    && (forall a :: a in db.attempts ==> DigestFits(db.tasks, db.attempts[a]))
    && (forall a, b :: a in db.attempts && b in db.attempts && db.attempts[a].lease == db.attempts[b].lease ==> a == b)
    && (forall l :: l in db.leases ==> ReleaseExplained(db.attempts, l, db.leases[l]))
  }

  // -------------------------------------------------------------- task histories

  /** An attempt after which the task could be ready again. */
  ghost predicate Repeatable(a: Attempt) {
    a.retrySafe && (a.outcome == Unsuccessful || a.outcome == Rejected)
  }

  /** One attempt is as described, and every other one of these is repeatable. */
  ghost predicate Decides(attempts: map<string, Attempt>, mine: set<string>, a: string) {
    a in mine && forall b :: b in mine && b in attempts && b != a ==> Repeatable(attempts[b])
  }

  /** The attempts of a task in a state: all repeatable and within the retry budget, or one
      that settled the task. */
  ghost predicate HistoryFits(attempts: map<string, Attempt>, task: string, state: TaskState, budget: int) {
    var mine := AttemptsOf(attempts, task);
    |mine| <= budget + 1 &&
    match state
    case Ready => |mine| <= budget && forall a :: a in mine ==> Repeatable(attempts[a])
    case Leased => |mine| <= budget && forall a :: a in mine ==> Repeatable(attempts[a])
    case Blocked => exists a :: Decides(attempts, mine, a) && attempts[a].outcome == Accepted
    case Committed => exists a :: Decides(attempts, mine, a) && attempts[a].outcome == Accepted
    case Unknown => exists a :: Decides(attempts, mine, a) && attempts[a].outcome == Uncertain
    case Failed =>
      exists a :: Decides(attempts, mine, a) && (attempts[a].outcome == Unsuccessful || attempts[a].outcome == Rejected) &&
                  (!attempts[a].retrySafe || |mine| == budget + 1)
  }

  ghost predicate TaskFits(db: Tables, task: string) {
    && task in db.tasks && task in db.states && DecodeTask(db.tasks[task].text).Some?
    && HistoryFits(db.attempts, task, db.states[task].state, DecodeTask(db.tasks[task].text).value.retryBudget)
  }

  // ------------------------------------------------------------ canonical results

  /** The canonical row of a task names its accepted attempt and holds its receipt. */
  ghost predicate CanonicalFits(db: Tables, task: string) {
    && task in db.canonical && task in db.tasks && task in db.states
    && (var row := db.canonical[task];
        && row.attempt in db.attempts && db.attempts[row.attempt].task == task && db.attempts[row.attempt].outcome == Accepted
        && db.states[task].canonical == Some(row.attempt)
        && row.receipt == CanonicalJson(Receipt(row.attempt, db.attempts[row.attempt], db.tasks[task].hash, row.committedAt)))
  }

  ghost predicate CanonicalSound(db: Tables) {
    && db.canonical.Keys <= db.states.Keys
    && (forall t :: t in db.states ==> (db.states[t].state == Committed <==> t in db.canonical))
    && (forall t :: t in db.canonical ==> CanonicalFits(db, t))
    && (forall t :: t in db.states && t !in db.canonical ==> db.states[t].canonical == None)
  }

  ghost predicate Valid(sha: Hash, db: Tables) {
    && SpecsStored(sha, db) && LeasesSound(db) && AttemptsSound(db)
    && (forall t :: t in db.tasks ==> TaskFits(db, t))
    && CanonicalSound(db)
  }

  lemma EmptyValid(sha: Hash)
    ensures Valid(sha, EMPTY)
  {
  }

  // -------------------------------------------------------------- submissions

  lemma SubmitDigest(sha: Hash, spec: TaskSpec)
    requires IsTask(spec)
    ensures Loads(TaskText(spec)).Some? && SpecHash(sha, Loads(TaskText(spec)).value) == sha(TaskText(spec))
    ensures forall now: int :: TaskStored(sha, spec.taskId, SpecRow(TaskText(spec), sha(TaskText(spec)), now))
  {
    hide CanonicalJson, Loads, SpecHash, DecodeTask, IsTask;
    TaskDictFields(spec);
    HashOfText(sha, TaskDict(spec).fields);
    TaskRoundTrip(spec);
  }

  lemma RegisterDigest(sha: Hash, spec: ResourceSpec)
    requires IsResource(spec)
    ensures Loads(ResourceText(spec)).Some? && SpecHash(sha, Loads(ResourceText(spec)).value) == sha(ResourceText(spec))
    ensures forall now: int :: ResourceStored(sha, spec.resourceId, SpecRow(ResourceText(spec), sha(ResourceText(spec)), now))
  {
    hide CanonicalJson, Loads, SpecHash, DecodeResource, IsResource;
    ResourceDictFields(spec);
    HashOfText(sha, ResourceDict(spec).fields);
    ResourceRoundTrip(spec);
  }

  /** A new task or resource row disturbs nothing. */
  ghost predicate SpecsGrow(db: Tables, db': Tables) {
    && (forall t :: t in db.tasks ==> t in db'.tasks && db'.tasks[t] == db.tasks[t])
    && (forall r :: r in db.resources ==> r in db'.resources && db'.resources[r] == db.resources[r])
  }

  lemma FitsKept(db: Tables, db': Tables, lease: Lease)
    requires SpecsGrow(db, db') && LeaseFits(db.tasks, db.resources, lease)
    ensures LeaseFits(db'.tasks, db'.resources, lease)
  {
    hide DecodeTask, DecodeResource, Fits;
  }
}
