/** Every operation of the harness store keeps the invariant. */
module HarnessPreservation {
  import opened Json
  import opened Binding
  import opened HarnessSpecs
  import opened HarnessTables
  import opened HarnessInvariant

  // -------------------------------------------------------------- submissions

  /** `db'` has one more task, which is ready. */
  ghost predicate Submitted(db: Tables, db': Tables, id: string, row: SpecRow, now: int) {
    && id !in db.tasks
    && db' == db.(tasks := db.tasks[id := row], states := db.states[id := StateRow(Ready, None, None, now)])
  }

  lemma SubmittedSpecs(sha: Hash, db: Tables, db': Tables, id: string, row: SpecRow, now: int)
    requires SpecsStored(sha, db) && Submitted(db, db', id, row, now) && TaskStored(sha, id, row)
    ensures SpecsStored(sha, db') && SpecsGrow(db, db')
  {
    hide TaskStored, ResourceStored;
  }

  lemma SubmittedLeases(db: Tables, db': Tables, id: string, row: SpecRow, now: int)
    requires LeasesSound(db) && Submitted(db, db', id, row, now) && SpecsGrow(db, db') && db.states.Keys == db.tasks.Keys
    ensures LeasesSound(db')
  {
    hide LeaseFits, SpecsGrow;
    forall l | l in db'.leases ensures LeaseFits(db'.tasks, db'.resources, db'.leases[l]) {
      FitsKept(db, db', db.leases[l]);
    }
  }

  lemma DigestKept(db: Tables, db': Tables, a: Attempt)
    requires SpecsGrow(db, db') && DigestFits(db.tasks, a)
    ensures DigestFits(db'.tasks, a)
  {
    hide DecodeTask;
  }

  lemma GrownAttempts(db: Tables, db': Tables)
    requires AttemptsSound(db) && SpecsGrow(db, db') && db'.attempts == db.attempts && db'.leases == db.leases
    ensures AttemptsSound(db')
  {
    hide AttemptFits, DigestFits, ReleaseExplained, SpecsGrow;
    forall a | a in db'.attempts ensures DigestFits(db'.tasks, db'.attempts[a]) {
      DigestKept(db, db', db.attempts[a]);
    }
  }

  lemma SubmittedTasks(sha: Hash, db: Tables, db': Tables, id: string, row: SpecRow, now: int)
    requires AttemptsSound(db) && Submitted(db, db', id, row, now) && TaskStored(sha, id, row)
    requires forall t :: t in db.tasks ==> TaskFits(db, t)
    ensures forall t :: t in db'.tasks ==> TaskFits(db', t)
  {
    hide AttemptsSound, TaskStored, TaskFits;
    NoAttemptsYet(db, id);
    TaskBudget(sha, id, row);
    forall t | t in db'.tasks ensures TaskFits(db', t) {
      if t == id {
        FreshTaskFits(db', id);
      } else {
        UntouchedTaskFits(db, db', t);
      }
    }
  }

  lemma NoAttemptsYet(db: Tables, id: string)
    requires AttemptsSound(db) && id !in db.tasks
    ensures AttemptsOf(db.attempts, id) == {}
  {
    hide AttemptFits, ReleaseExplained, DecodeTask;
    forall a | a in db.attempts ensures db.attempts[a].task != id {
      assert DigestFits(db.tasks, db.attempts[a]);
    }
  }

  lemma FreshTaskFits(db: Tables, id: string)
    requires id in db.tasks && id in db.states && db.states[id].state == Ready && AttemptsOf(db.attempts, id) == {}
    requires DecodeTask(db.tasks[id].text).Some? && DecodeTask(db.tasks[id].text).value.retryBudget >= 0
    ensures TaskFits(db, id)
  {
    hide DecodeTask, AttemptsOf, Repeatable, Decides;
  }

  lemma UntouchedTaskFits(db: Tables, db': Tables, t: string)
    requires TaskFits(db, t) && db'.attempts == db.attempts
    requires t in db.tasks && t in db'.tasks && db'.tasks[t] == db.tasks[t]
    requires t in db.states ==> t in db'.states && db'.states[t] == db.states[t]
    ensures TaskFits(db', t)
  {
    hide DecodeTask, HistoryFits;
  }

  lemma TaskBudget(sha: Hash, id: string, row: SpecRow)
    requires TaskStored(sha, id, row)
    ensures DecodeTask(row.text).Some? && DecodeTask(row.text).value.retryBudget >= 0
  {
    hide DecodeTask, NormalizeCapabilities, ValidateDigest;
  }

  lemma SubmittedCanonical(db: Tables, db': Tables, id: string, row: SpecRow, now: int)
    requires CanonicalSound(db) && Submitted(db, db', id, row, now) && db.states.Keys == db.tasks.Keys
    ensures CanonicalSound(db')
  {
    hide CanonicalJson, Receipt;
    forall t | t in db'.canonical ensures CanonicalFits(db', t) {
      assert CanonicalFits(db, t);
    }
  }

  lemma SubmitKeeps(sha: Hash, db: Tables, spec: TaskSpec, now: int)
    requires Valid(sha, db) && IsTask(spec) && SubmitTask(sha, db, spec, now).Done?
    ensures Valid(sha, SubmitTask(sha, db, spec, now).db)
  {
    hide SpecsStored, LeasesSound, AttemptsSound, TaskFits, CanonicalSound, TaskStored, TaskText, SpecHash, IsTask;
    var db' := SubmitTask(sha, db, spec, now).db;
    SubmitDigest(sha, spec);
    if spec.taskId !in db.tasks {
      var row := SpecRow(TaskText(spec), sha(TaskText(spec)), now);
      SameKeys(sha, db);
      SubmittedSpecs(sha, db, db', spec.taskId, row, now);
      SubmittedLeases(db, db', spec.taskId, row, now);
      GrownAttempts(db, db');
      SubmittedTasks(sha, db, db', spec.taskId, row, now);
      SubmittedCanonical(db, db', spec.taskId, row, now);
    }
  }

  lemma SameKeys(sha: Hash, db: Tables)
    requires SpecsStored(sha, db)
    ensures db.states.Keys == db.tasks.Keys
  {
    hide TaskStored, ResourceStored;
  }

  lemma RegisterKeeps(sha: Hash, db: Tables, spec: ResourceSpec, now: int)
    requires Valid(sha, db) && IsResource(spec) && RegisterResource(sha, db, spec, now).Done?
    ensures Valid(sha, RegisterResource(sha, db, spec, now).db)
  {
    hide SpecsStored, LeasesSound, AttemptsSound, TaskFits, CanonicalSound, ResourceStored, ResourceText, SpecHash, IsResource;
    var db' := RegisterResource(sha, db, spec, now).db;
    RegisterDigest(sha, spec);
    if spec.resourceId !in db.resources {
      var row := SpecRow(ResourceText(spec), sha(ResourceText(spec)), now);
      RegisteredSpecs(sha, db, db', spec.resourceId, row);
      RegisteredLeases(db, db');
      GrownAttempts(db, db');
      RegisteredRest(db, db');
    }
  }

  lemma RegisteredSpecs(sha: Hash, db: Tables, db': Tables, id: string, row: SpecRow)
    requires SpecsStored(sha, db) && id !in db.resources && ResourceStored(sha, id, row)
    requires db' == db.(resources := db.resources[id := row])
    ensures SpecsStored(sha, db') && SpecsGrow(db, db')
  {
    hide TaskStored, ResourceStored;
  }

  lemma RegisteredLeases(db: Tables, db': Tables)
    requires LeasesSound(db) && SpecsGrow(db, db') && db'.leases == db.leases && db'.states == db.states
    ensures LeasesSound(db')
  {
    hide LeaseFits, LeaseHeld, StateFits, SeparateResources, SpecsGrow;
    forall l | l in db'.leases ensures LeaseFits(db'.tasks, db'.resources, db'.leases[l]) {
      FitsKept(db, db', db.leases[l]);
    }
  }

  lemma RegisteredRest(db: Tables, db': Tables)
    requires CanonicalSound(db) && (forall t :: t in db.tasks ==> TaskFits(db, t))
    requires db' == db.(resources := db'.resources)
    ensures CanonicalSound(db') && (forall t :: t in db'.tasks ==> TaskFits(db', t))
  {
    hide HistoryFits, DecodeTask, CanonicalJson, Receipt;
    forall t | t in db'.tasks ensures TaskFits(db', t) {
      assert TaskFits(db, t);
    }
    forall t | t in db'.canonical ensures CanonicalFits(db', t) {
      assert CanonicalFits(db, t);
    }
  }

  // -------------------------------------------------------------------- reaping

  lemma ReapedLeases(db: Tables, now: int, ids: set<string>)
    requires LeasesSound(db) && ids <= ExpiredLeases(db, now)
    ensures LeasesSound(Reaped(db, now, ids))
  {
    hide LeaseFits, LeaseHeld, StateFits, SeparateResources, ExpiredLeases;
    var db' := Reaped(db, now, ids);
    forall l | l in db'.leases ensures LeaseFits(db'.tasks, db'.resources, db'.leases[l]) && LeaseHeld(db'.states, l, db'.leases[l]) {
      ReapedLease(db, now, ids, l);
    }
    forall t | t in db'.states ensures StateFits(db'.leases, t, db'.states[t]) {
      ReapedTask(db, now, ids, t);
    }
    ReapedSeparate(db, now, ids);
  }

  lemma ReapedLease(db: Tables, now: int, ids: set<string>, l: string)
    requires l in db.leases && LeaseFits(db.tasks, db.resources, db.leases[l]) && LeaseHeld(db.states, l, db.leases[l])
    ensures LeaseFits(db.tasks, db.resources, Reaped(db, now, ids).leases[l])
    ensures LeaseHeld(Reaped(db, now, ids).states, l, Reaped(db, now, ids).leases[l])
  {
    hide DecodeTask, DecodeResource, Fits;
  }

  lemma ReapedTask(db: Tables, now: int, ids: set<string>, t: string)
    requires t in db.states && StateFits(db.leases, t, db.states[t])
    ensures StateFits(Reaped(db, now, ids).leases, t, Reaped(db, now, ids).states[t])
  {
  }

  lemma ReapedSeparate(db: Tables, now: int, ids: set<string>)
    requires SeparateResources(db.leases)
    ensures SeparateResources(Reaped(db, now, ids).leases)
  {
  }

  lemma ReapedAttempts(db: Tables, now: int, ids: set<string>)
    requires AttemptsSound(db) && ids <= ExpiredLeases(db, now)
    ensures AttemptsSound(Reaped(db, now, ids))
  {
    hide DigestFits;
    var db' := Reaped(db, now, ids);
    forall a | a in db'.attempts ensures AttemptFits(db'.leases, db'.attempts[a]) {
      assert AttemptFits(db.leases, db.attempts[a]);
    }
    forall l | l in db'.leases ensures ReleaseExplained(db'.attempts, l, db'.leases[l]) {
      assert ReleaseExplained(db.attempts, l, db.leases[l]);
    }
  }

  ghost predicate Going(state: TaskState) {
    state == Ready || state == Leased
  }

  /** Being leased or ready again does not change what the history must be. */
  lemma SameHistoryFits(db: Tables, db': Tables, t: string)
    requires TaskFits(db, t) && db'.attempts == db.attempts && db'.tasks == db.tasks && t in db'.states
    requires db'.states[t].state == db.states[t].state || (Going(db.states[t].state) && Going(db'.states[t].state))
    ensures TaskFits(db', t)
  {
    hide DecodeTask, Repeatable, Decides, AttemptsOf;
  }

  /** A canonical row is not affected by other tasks. */
  lemma CanonicalKept(db: Tables, db': Tables, t: string)
    requires CanonicalFits(db, t) && db'.tasks == db.tasks
    requires t in db'.canonical && db'.canonical[t] == db.canonical[t]
    requires t in db'.states && db'.states[t].canonical == db.states[t].canonical
    requires forall a :: a in db.attempts ==> a in db'.attempts && db'.attempts[a] == db.attempts[a]
    ensures CanonicalFits(db', t)
  {
    hide CanonicalJson, Receipt;
  }

  /** Only whether tasks are leased or ready has changed. */
  ghost predicate OnlyLeasing(db: Tables, db': Tables) {
    && db'.tasks == db.tasks && db'.resources == db.resources && db'.attempts == db.attempts && db'.canonical == db.canonical
    && db'.states.Keys == db.states.Keys
    && forall t :: t in db.states ==>
         && db'.states[t].canonical == db.states[t].canonical
         && (db'.states[t].state == db.states[t].state || (Going(db.states[t].state) && Going(db'.states[t].state)))
  }

  lemma LeasingKeeps(sha: Hash, db: Tables, db': Tables)
    requires OnlyLeasing(db, db') && SpecsStored(sha, db) && CanonicalSound(db) && (forall t :: t in db.tasks ==> TaskFits(db, t))
    ensures SpecsStored(sha, db') && CanonicalSound(db') && (forall t :: t in db'.tasks ==> TaskFits(db', t))
  {
    hide TaskStored, ResourceStored, TaskFits, CanonicalFits;
    forall t | t in db'.tasks ensures TaskFits(db', t) {
      SameHistoryFits(db, db', t);
    }
    forall t | t in db'.canonical ensures CanonicalFits(db', t) {
      CanonicalKept(db, db', t);
    }
  }

  lemma ReapKeeps(sha: Hash, db: Tables, now: int, ids: set<string>)
    requires Valid(sha, db) && ids <= ExpiredLeases(db, now)
    ensures Valid(sha, Reaped(db, now, ids))
  {
    hide SpecsStored, LeasesSound, AttemptsSound, TaskFits, CanonicalSound;
    ReapedLeases(db, now, ids);
    ReapedAttempts(db, now, ids);
    assert OnlyLeasing(db, Reaped(db, now, ids));
    LeasingKeeps(sha, db, Reaped(db, now, ids));
  }

  // ------------------------------------------------------------------- leasing

  /** `db'` has a new open lease of a task that was ready. */
  ghost predicate LeaseAdded(db: Tables, db': Tables, id: string, lease: Lease, now: int) {
    && IsOpen(lease) && lease.task in db.states && db.states[lease.task].state == Ready
    && !LeaseTaken(db, id, lease.task, lease.resource)
    && db' == db.(leases := db.leases[id := lease],
                  states := db.states[lease.task := db.states[lease.task].(state := Leased, activeLease := Some(id), updatedAt := now)])
  }

  lemma AddedLeases(db: Tables, db': Tables, id: string, lease: Lease, now: int)
    requires LeasesSound(db) && LeaseAdded(db, db', id, lease, now) && LeaseFits(db.tasks, db.resources, lease)
    ensures LeasesSound(db')
  {
    hide LeaseFits;
    assert id !in db.leases;
    forall l | l in db'.leases ensures LeaseHeld(db'.states, l, db'.leases[l]) {
      assert l != id ==> LeaseHeld(db.states, l, db.leases[l]);
    }
    forall t | t in db'.states ensures StateFits(db'.leases, t, db'.states[t]) {
      assert t != lease.task ==> StateFits(db.leases, t, db.states[t]);
    }
  }

  lemma AddedAttempts(db: Tables, db': Tables, id: string, lease: Lease, now: int)
    requires AttemptsSound(db) && LeaseAdded(db, db', id, lease, now)
    ensures AttemptsSound(db')
  {
    hide DigestFits, HasAttempt;
    forall a | a in db'.attempts ensures AttemptFits(db'.leases, db'.attempts[a]) {
      assert AttemptFits(db.leases, db.attempts[a]);
    }
    forall l | l in db'.leases ensures ReleaseExplained(db'.attempts, l, db'.leases[l]) {
      assert l != id ==> ReleaseExplained(db.attempts, l, db.leases[l]);
    }
  }

  lemma LeaseAddedKeeps(sha: Hash, db: Tables, db': Tables, id: string, lease: Lease, now: int)
    requires Valid(sha, db) && LeaseAdded(db, db', id, lease, now) && LeaseFits(db.tasks, db.resources, lease)
    ensures Valid(sha, db')
  {
    hide SpecsStored, LeasesSound, AttemptsSound, TaskFits, CanonicalSound, LeaseFits, LeaseTaken;
    AddedLeases(db, db', id, lease, now);
    AddedAttempts(db, db', id, lease, now);
    assert OnlyLeasing(db, db');
    LeasingKeeps(sha, db, db');
  }

  /** The specifications an eligibility check saw are still the stored ones: they are
      never changed. */
  lemma StillEligible(seen: Tables, db: Tables, task: string, resource: string, context: string, ttl: int, lease: Lease)
    requires SpecsGrow(seen, db) && CheckEligible(seen, task, resource, context, ttl) == None
    requires lease.task == task && lease.resource == resource && lease.contextSize == |context| && lease.expiresAt == lease.acquiredAt + ttl
    ensures LeaseFits(db.tasks, db.resources, lease)
  {
    hide DecodeTask, DecodeResource, Fits;
  }

  lemma AcquireKeeps(sha: Hash, seen: Tables, db: Tables, task: string, resource: string, context: string, ttl: int, now: int, id: string)
    requires Valid(sha, db) && SpecsGrow(seen, db) && CheckEligible(seen, task, resource, context, ttl) == None
    requires AcquireLease(sha, db, task, resource, context, ttl, now, id).Done?
    ensures Valid(sha, AcquireLease(sha, db, task, resource, context, ttl, now, id).db)
  {
    hide Valid, CheckEligible, LeaseTaken, LeaseFits;
    var answer := AcquireLease(sha, db, task, resource, context, ttl, now, id);
    ReapKeeps(sha, db, now, ExpiredLeases(db, now));
    StillEligible(seen, db, task, resource, context, ttl, answer.value);
    LeaseAddedKeeps(sha, Reap(db, now), answer.db, id, answer.value, now);
  }

  // ------------------------------------------------------------------ attempts

  /** `db'` has a new attempt under a lease that was open and is now released. */
  ghost predicate AttemptAdded(db: Tables, db': Tables, id: string, a: Attempt, next: TaskState) {
    && id !in db.attempts && a.lease in db.leases
    && (var l := db.leases[a.lease];
        && IsOpen(l) && a.task == l.task && a.resource == l.resource && a.contextHash == l.contextHash
        && a.startedAt <= a.completedAt < l.expiresAt
        && a.task in db.states && db.states[a.task].state == Leased && db.states[a.task].activeLease == Some(a.lease)
        && db' == db.(attempts := db.attempts[id := a],
                      leases := db.leases[a.lease := l.(releasedAt := Some(a.completedAt))],
                      states := db.states[a.task := db.states[a.task].(state := next, activeLease := None, updatedAt := a.completedAt)]))
    && (forall b :: b in db.attempts ==> db.attempts[b].lease != a.lease)
    && next != Leased && next != Committed
    && (a.outcome == Uncertain ==> !a.retrySafe)
  }

  lemma RecordedLeases(db: Tables, db': Tables, id: string, a: Attempt, next: TaskState)
    requires LeasesSound(db) && AttemptAdded(db, db', id, a, next)
    ensures LeasesSound(db')
  {
    hide DecodeTask, DecodeResource, Fits;
    forall l | l in db'.leases ensures LeaseFits(db'.tasks, db'.resources, db'.leases[l]) && LeaseHeld(db'.states, l, db'.leases[l]) {
      assert LeaseFits(db.tasks, db.resources, db.leases[l]) && LeaseHeld(db.states, l, db.leases[l]);
    }
    forall t | t in db'.states ensures StateFits(db'.leases, t, db'.states[t]) {
      assert StateFits(db.leases, t, db.states[t]);
    }
  }

  lemma RecordedAttempts(db: Tables, db': Tables, id: string, a: Attempt, next: TaskState)
    requires AttemptsSound(db) && AttemptAdded(db, db', id, a, next) && DigestFits(db.tasks, a)
    ensures AttemptsSound(db')
  {
    hide DigestFits;
    forall b | b in db'.attempts ensures AttemptFits(db'.leases, db'.attempts[b]) {
      assert b != id ==> AttemptFits(db.leases, db.attempts[b]);
    }
    forall l | l in db'.leases ensures ReleaseExplained(db'.attempts, l, db'.leases[l]) {
      assert ReleaseExplained(db.attempts, l, db.leases[l]);
      MoreAttempts(db.attempts, db'.attempts, id, l);
    }
  }

  lemma MoreAttempts(attempts: map<string, Attempt>, attempts': map<string, Attempt>, id: string, lease: string)
    requires id !in attempts && id in attempts' && attempts' == attempts[id := attempts'[id]]
    ensures HasAttempt(attempts', lease) <==> HasAttempt(attempts, lease) || attempts'[id].lease == lease
  {
    if HasAttempt(attempts, lease) {
      var a :| a in attempts && attempts[a].lease == lease;
      assert a in attempts' && attempts'[a].lease == lease;
    }
  }

  lemma AddedToOne(attempts: map<string, Attempt>, id: string, a: Attempt, t: string)
    requires id !in attempts
    ensures AttemptsOf(attempts[id := a], t) == if a.task == t then AttemptsOf(attempts, t) + {id} else AttemptsOf(attempts, t)
    ensures a.task == t ==> |AttemptsOf(attempts[id := a], t)| == |AttemptsOf(attempts, t)| + 1
  {
    assert id !in AttemptsOf(attempts, t);
    assert AttemptsOf(attempts[id := a], t) == if a.task == t then AttemptsOf(attempts, t) + {id} else AttemptsOf(attempts, t);
  }

  /** One more attempt, after repeatable ones within the budget. */
  lemma NextHistory(attempts: map<string, Attempt>, id: string, a: Attempt, budget: int)
    requires id !in attempts && HistoryFits(attempts, a.task, Leased, budget)
    requires a.outcome == Uncertain ==> !a.retrySafe
    ensures var after := attempts[id := a];
            HistoryFits(after, a.task, NextState(a.outcome, a.retrySafe, |AttemptsOf(after, a.task)|, budget), budget)
  {
    hide AttemptsOf;
    var after := attempts[id := a];
    AddedToOne(attempts, id, a, a.task);
    var mine := AttemptsOf(after, a.task);
    MineAreIn(attempts, a.task);
    assert Decides(after, mine, id);
  }

  lemma MineAreIn(attempts: map<string, Attempt>, t: string)
    ensures forall a :: a in AttemptsOf(attempts, t) ==> a in attempts
  {
  }

  lemma OtherHistory(attempts: map<string, Attempt>, id: string, a: Attempt, t: string, state: TaskState, budget: int)
    requires id !in attempts && HistoryFits(attempts, t, state, budget) && a.task != t
    ensures HistoryFits(attempts[id := a], t, state, budget)
  {
    hide AttemptsOf;
    var after := attempts[id := a];
    AddedToOne(attempts, id, a, t);
    MineAreIn(attempts, t);
    var mine := AttemptsOf(attempts, t);
    assert forall b :: Decides(attempts, mine, b) ==> Decides(after, mine, b);
  }

  lemma RecordedTasks(db: Tables, db': Tables, id: string, a: Attempt, next: TaskState)
    requires AttemptAdded(db, db', id, a, next) && (forall t :: t in db.tasks ==> TaskFits(db, t)) && a.task in db.tasks
    requires DecodeTask(db.tasks[a.task].text).Some?
    requires next == NextState(a.outcome, a.retrySafe, |AttemptsOf(db'.attempts, a.task)|, DecodeTask(db.tasks[a.task].text).value.retryBudget)
    ensures forall t :: t in db'.tasks ==> TaskFits(db', t)
  {
    hide DecodeTask, AttemptsOf, HistoryFits, NextState;
    forall t | t in db'.tasks ensures TaskFits(db', t) {
      assert TaskFits(db, t);
      var budget := DecodeTask(db.tasks[t].text).value.retryBudget;
      if t == a.task {
        NextHistory(db.attempts, id, a, budget);
      } else {
        OtherHistory(db.attempts, id, a, t, db.states[t].state, budget);
      }
    }
  }

  lemma RecordedRest(sha: Hash, db: Tables, db': Tables, id: string, a: Attempt, next: TaskState)
    requires AttemptAdded(db, db', id, a, next) && SpecsStored(sha, db) && CanonicalSound(db)
    ensures SpecsStored(sha, db') && CanonicalSound(db')
  {
    hide TaskStored, ResourceStored, CanonicalFits;
    forall t | t in db'.canonical ensures CanonicalFits(db', t) {
      CanonicalKept(db, db', t);
    }
  }

  lemma AttemptAddedKeeps(sha: Hash, db: Tables, db': Tables, id: string, a: Attempt, next: TaskState)
    requires Valid(sha, db) && AttemptAdded(db, db', id, a, next) && DigestFits(db.tasks, a)
    requires next == NextState(a.outcome, a.retrySafe, |AttemptsOf(db'.attempts, a.task)|, DecodeTask(db.tasks[a.task].text).value.retryBudget)
    ensures Valid(sha, db')
  {
    hide SpecsStored, LeasesSound, AttemptsSound, TaskFits, CanonicalSound, AttemptAdded, NextState, AttemptsOf, DecodeTask;
    RecordedLeases(db, db', id, a, next);
    RecordedAttempts(db, db', id, a, next);
    RecordedTasks(db, db', id, a, next);
    RecordedRest(sha, db, db', id, a, next);
  }

  /** What `record_attempt` adds, when it adds anything. */
  lemma RecordedIs(sha: Hash, db: Tables, lease: string, report: Report, id: string)
    requires RecordAttempt(sha, db, lease, report, id).Done?
    ensures var answer := RecordAttempt(sha, db, lease, report, id);
            var a := answer.value;
            && a.task in db.tasks && DecodeTask(db.tasks[a.task].text).Some?
            && DigestFits(db.tasks, a) && a.lease == lease
            && var next := NextState(a.outcome, a.retrySafe, |AttemptsOf(answer.db.attempts, a.task)|,
                                     DecodeTask(db.tasks[a.task].text).value.retryBudget);
               AttemptAdded(db, answer.db, id, a, next)
  {
    hide DecodeTask, AttemptsOf;
  }

  lemma RecordKeeps(sha: Hash, db: Tables, lease: string, report: Report, id: string)
    requires Valid(sha, db) && RecordAttempt(sha, db, lease, report, id).Done?
    ensures Valid(sha, RecordAttempt(sha, db, lease, report, id).db)
  {
    hide Valid, DecodeTask, AttemptsOf, RecordAttempt, NextState, AttemptAdded, DigestFits;
    RecordedIs(sha, db, lease, report, id);
    var answer := RecordAttempt(sha, db, lease, report, id);
    var a := answer.value;
    AttemptAddedKeeps(sha, db, answer.db, id, a,
                      NextState(a.outcome, a.retrySafe, |AttemptsOf(answer.db.attempts, a.task)|,
                                DecodeTask(db.tasks[a.task].text).value.retryBudget));
  }

  // ---------------------------------------------------------- canonical results

  /** `db'` has a canonical row for a task that was blocked. */
  ghost predicate CanonicalAdded(db: Tables, db': Tables, id: string, now: int) {
    && id in db.attempts && db.attempts[id].outcome == Accepted
    && (var t := db.attempts[id].task;
        && t in db.tasks && t in db.states && db.states[t].state == Blocked && t !in db.canonical
        && db' == db.(canonical := db.canonical[t := CanonicalRow(id, CanonicalJson(Receipt(id, db.attempts[id], db.tasks[t].hash, now)), now)],
                      states := db.states[t := db.states[t].(state := Committed, activeLease := None, canonical := Some(id), updatedAt := now)]))
  }

  lemma CommittedLeases(db: Tables, db': Tables, id: string, now: int)
    requires LeasesSound(db) && CanonicalAdded(db, db', id, now)
    ensures LeasesSound(db')
  {
    hide LeaseFits, SeparateResources, CanonicalJson, Receipt;
    forall l | l in db'.leases ensures LeaseHeld(db'.states, l, db'.leases[l]) {
      assert LeaseHeld(db.states, l, db.leases[l]);
    }
    forall t | t in db'.states ensures StateFits(db'.leases, t, db'.states[t]) {
      assert StateFits(db.leases, t, db.states[t]);
    }
  }

  lemma CommittedTasks(db: Tables, db': Tables, id: string, now: int)
    requires CanonicalAdded(db, db', id, now) && (forall t :: t in db.tasks ==> TaskFits(db, t))
    ensures forall t :: t in db'.tasks ==> TaskFits(db', t)
  {
    hide DecodeTask, AttemptsOf, Decides, CanonicalJson, Receipt;
    forall t | t in db'.tasks ensures TaskFits(db', t) {
      assert TaskFits(db, t);
    }
  }

  lemma CommittedSpecs(sha: Hash, db: Tables, db': Tables, id: string, now: int)
    requires CanonicalAdded(db, db', id, now) && SpecsStored(sha, db) && AttemptsSound(db)
    ensures SpecsStored(sha, db') && AttemptsSound(db')
  {
    hide TaskStored, ResourceStored, CanonicalJson, Receipt, AttemptFits, DigestFits, ReleaseExplained;
  }

  lemma CommittedCanonical(db: Tables, db': Tables, id: string, now: int)
    requires CanonicalAdded(db, db', id, now) && CanonicalSound(db)
    ensures CanonicalSound(db')
  {
    hide CanonicalJson, Receipt, CanonicalFits;
    var task := db.attempts[id].task;
    NewCanonicalFits(db, db', id, now);
    forall t | t in db'.canonical ensures CanonicalFits(db', t) {
      if t != task {
        CanonicalKept(db, db', t);
      }
    }
  }

  lemma NewCanonicalFits(db: Tables, db': Tables, id: string, now: int)
    requires CanonicalAdded(db, db', id, now)
    ensures CanonicalFits(db', db.attempts[id].task)
  {
    hide CanonicalJson, Receipt;
  }

  lemma CommitKeeps(sha: Hash, db: Tables, id: string, now: int)
    requires Valid(sha, db) && CommitAccepted(db, id, now).Done?
    ensures Valid(sha, CommitAccepted(db, id, now).db)
  {
    hide SpecsStored, LeasesSound, AttemptsSound, TaskFits, CanonicalSound, CanonicalJson, Receipt, Loads;
    var db' := CommitAccepted(db, id, now).db;
    if db' != db {
      assert CanonicalAdded(db, db', id, now);
      hide CanonicalAdded;
      CommittedLeases(db, db', id, now);
      CommittedTasks(db, db', id, now);
      CommittedSpecs(sha, db, db', id, now);
      CommittedCanonical(db, db', id, now);
    }
  }
}
