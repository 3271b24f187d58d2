/** What holds of the harness store over any sequence of operations, by any number of
    clients with any clocks. */
module HarnessTheorems {
  import opened Json
  import opened Binding
  import opened HarnessSpecs
  import opened HarnessTables
  import opened HarnessInvariant
  import opened HarnessPreservation
  import BT = BindingTheorems
  import Canonical
  import RoundTrip = JsonRoundTrip

  // ----------------------------------------------------------------------- runs

  datatype Operation =
    | Submit(task: TaskSpec, now: int)
    | Register(resource: ResourceSpec, now: int)
    | ReapExpired(now: int)
    // the specifications are read in state number `readAt`, before the transaction
    | Acquire(readAt: nat, taskId: string, resourceId: string, context: string, ttl: int, now: int, leaseId: string)
    | Record(lease: string, report: Report, attemptId: string)
    | Commit(attempt: string, now: int)

  /** Only specification objects that exist can be submitted. */
  ghost predicate Possible(op: Operation) {
    (op.Submit? ==> IsTask(op.task)) && (op.Register? ==> IsResource(op.resource))
  }

  function AfterAnswer<T>(db: Tables, answer: Answer<T>): Tables {
    match answer
    case Done(after, _) => after
    case Raised(_) => db
  }

  /** The tables after an operation on the last of the states so far. */
  function Step(sha: Hash, past: seq<Tables>, op: Operation): Tables
    requires past != []
  {
    var db := past[|past| - 1];
    match op
    case Submit(spec, now) => AfterAnswer(db, SubmitTask(sha, db, spec, now))
    case Register(spec, now) => AfterAnswer(db, RegisterResource(sha, db, spec, now))
    case ReapExpired(now) => Reap(db, now)
    case Acquire(readAt, task, resource, context, ttl, now, id) =>
      if readAt < |past| && CheckEligible(past[readAt], task, resource, context, ttl) == None then
        AfterAnswer(db, AcquireLease(sha, db, task, resource, context, ttl, now, id))
      else db
    case Record(lease, report, id) => AfterAnswer(db, RecordAttempt(sha, db, lease, report, id))
    case Commit(id, now) => AfterAnswer(db, CommitAccepted(db, id, now))
  }

  /** All the states of a run, the empty store first. */
  function States(sha: Hash, ops: seq<Operation>): (states: seq<Tables>)
    ensures |states| == |ops| + 1
  {
    if ops == [] then [EMPTY]
    else
      var past := States(sha, ops[..|ops| - 1]);
      past + [Step(sha, past, ops[|ops| - 1])]
  }

  ghost predicate AllPossible(ops: seq<Operation>) {
    forall i :: 0 <= i < |ops| ==> Possible(ops[i])
  }

  /** Everything recorded stays: specifications, attempts and canonical rows never change,
      and a released lease keeps its release. */
  ghost predicate Durable(db: Tables, db': Tables) {
    && SpecsGrow(db, db')
    && (forall a :: a in db.attempts ==> a in db'.attempts && db'.attempts[a] == db.attempts[a])
    && (forall t :: t in db.canonical ==> t in db'.canonical && db'.canonical[t] == db.canonical[t])
    && (forall l :: l in db.leases ==> l in db'.leases && LeaseExtends(db.leases[l], db'.leases[l]))
  }

  /** One step: durable, and every task moves along the automaton or stays. */
  ghost predicate Extends(db: Tables, db': Tables) {
    && Durable(db, db')
    && (forall t :: t in db.states ==> t in db'.states && Edge(db.states[t].state, db'.states[t].state))
  }

  ghost predicate LeaseExtends(before: Lease, after: Lease) {
    after == before || (IsOpen(before) && after == before.(releasedAt := after.releasedAt))
  }

  /** The automaton of one task, with any number of rounds of leasing in one step. */
  predicate Edge(from: TaskState, to: TaskState) {
    || to == from
    || (from == Ready && to == Leased)
    || (from == Leased && (to == Ready || to == Blocked || to == Unknown || to == Failed))
    || (from == Blocked && to == Committed)
  }

  lemma ReapExtends(db: Tables, now: int)
    ensures Extends(db, Reap(db, now))
  {
  }

  lemma AcquireExtends(sha: Hash, db: Tables, task: string, resource: string, context: string, ttl: int, now: int, id: string)
    requires AcquireLease(sha, db, task, resource, context, ttl, now, id).Done?
    ensures Extends(db, AcquireLease(sha, db, task, resource, context, ttl, now, id).db)
  {
    hide Reap, Extends;
    ReapExtends(db, now);
    NewLeaseExtends(db, Reap(db, now), AcquireLease(sha, db, task, resource, context, ttl, now, id).db, task, id);
  }

  lemma NewLeaseExtends(db: Tables, reaped: Tables, db': Tables, task: string, id: string)
    requires Extends(db, reaped) && task in reaped.states && reaped.states[task].state == Ready && !(id in reaped.leases)
    requires id in db'.leases && task in db'.states && db'.states[task].state == Leased
    requires db' == reaped.(leases := reaped.leases[id := db'.leases[id]], states := reaped.states[task := db'.states[task]])
    ensures Extends(db, db')
  {
  }

  lemma RecordExtends(sha: Hash, db: Tables, lease: string, report: Report, id: string)
    requires RecordAttempt(sha, db, lease, report, id).Done?
    ensures Extends(db, RecordAttempt(sha, db, lease, report, id).db)
  {
    hide DecodeTask, AttemptsOf, OutcomeOf, DigestOf;
  }

  lemma CommitExtends(db: Tables, id: string, now: int)
    requires CommitAccepted(db, id, now).Done?
    ensures Extends(db, CommitAccepted(db, id, now).db)
  {
    hide Loads, CanonicalJson, Receipt;
  }

  lemma SubmitExtends(sha: Hash, db: Tables, spec: TaskSpec, now: int)
    requires db.states.Keys == db.tasks.Keys && SubmitTask(sha, db, spec, now).Done?
    ensures Extends(db, SubmitTask(sha, db, spec, now).db)
  {
    hide Loads, TaskText, SpecHash;
  }

  lemma RegisterExtends(sha: Hash, db: Tables, spec: ResourceSpec, now: int)
    requires RegisterResource(sha, db, spec, now).Done?
    ensures Extends(db, RegisterResource(sha, db, spec, now).db)
  {
    hide Loads, ResourceText, SpecHash;
  }

  lemma StepKeeps(sha: Hash, past: seq<Tables>, op: Operation)
    requires past != [] && Possible(op) && Valid(sha, past[|past| - 1])
    requires forall i :: 0 <= i < |past| ==> SpecsGrow(past[i], past[|past| - 1])
    ensures Valid(sha, Step(sha, past, op)) && Extends(past[|past| - 1], Step(sha, past, op))
  {
    hide Valid, Extends, SubmitTask, RegisterResource, Reap, CheckEligible, AcquireLease, RecordAttempt, CommitAccepted, SpecsGrow, IsTask, IsResource;
    var db := past[|past| - 1];
    assert Extends(db, db) by { ExtendsSelf(db); }
    match op
    case Submit(spec, now) =>
      if SubmitTask(sha, db, spec, now).Done? {
        SubmitKeeps(sha, db, spec, now);
        ValidKeys(sha, db);
        SubmitExtends(sha, db, spec, now);
      }
    case Register(spec, now) =>
      if RegisterResource(sha, db, spec, now).Done? {
        RegisterKeeps(sha, db, spec, now);
        RegisterExtends(sha, db, spec, now);
      }
    case ReapExpired(now) =>
      ReapExtends(db, now);
      ReapAllKeeps(sha, db, now);
    case Acquire(readAt, task, resource, context, ttl, now, id) =>
      if readAt < |past| && CheckEligible(past[readAt], task, resource, context, ttl) == None &&
         AcquireLease(sha, db, task, resource, context, ttl, now, id).Done? {
        AcquireKeeps(sha, past[readAt], db, task, resource, context, ttl, now, id);
        AcquireExtends(sha, db, task, resource, context, ttl, now, id);
      }
    case Record(lease, report, id) =>
      if RecordAttempt(sha, db, lease, report, id).Done? {
        RecordKeeps(sha, db, lease, report, id);
        RecordExtends(sha, db, lease, report, id);
      }
    case Commit(id, now) =>
      if CommitAccepted(db, id, now).Done? {
        CommitKeeps(sha, db, id, now);
        CommitExtends(db, id, now);
      }
  }

  lemma ExtendsSelf(db: Tables)
    ensures Extends(db, db)
  {
  }

  lemma ValidKeys(sha: Hash, db: Tables)
    requires Valid(sha, db)
    ensures db.states.Keys == db.tasks.Keys
  {
    hide LeasesSound, AttemptsSound, TaskFits, CanonicalSound, TaskStored, ResourceStored;
  }

  lemma ReapAllKeeps(sha: Hash, db: Tables, now: int)
    requires Valid(sha, db)
    ensures Valid(sha, Reap(db, now))
  {
    hide Valid;
    ReapKeeps(sha, db, now, ExpiredLeases(db, now));
  }

  lemma DurableTransitive(a: Tables, b: Tables, c: Tables)
    requires Durable(a, b) && Durable(b, c)
    ensures Durable(a, c)
  {
  }

  /** The states of a run so far: all sound, each durable in every later one, consecutive
      ones a step of the automaton apart. */
  ghost predicate Sound(sha: Hash, states: seq<Tables>) {
    && (forall i :: 0 <= i < |states| ==> Valid(sha, states[i]))
    && (forall i, j :: 0 <= i <= j < |states| ==> Durable(states[i], states[j]))
    && (forall i :: 0 <= i < |states| - 1 ==> Extends(states[i], states[i + 1]))
  }

  lemma SoundGrows(sha: Hash, states: seq<Tables>, next: Tables)
    requires Sound(sha, states) && states != [] && Valid(sha, next) && Extends(states[|states| - 1], next)
    ensures Sound(sha, states + [next])
  {
    hide Valid, Durable, Extends;
    var n := |states|;
    var more := states + [next];
    ExtendsDurable(states[n - 1], next);
    DurableSelf(next);
    forall i | 0 <= i < |more| - 1 ensures Extends(more[i], more[i + 1]) {
      assert i < n - 1 ==> Extends(states[i], states[i + 1]);
    }
    forall i, j | 0 <= i <= j < |more| ensures Durable(more[i], more[j]) {
      if j < n {
        assert Durable(states[i], states[j]);
      } else if i < n {
        assert Durable(states[i], states[n - 1]);
        DurableTransitive(states[i], states[n - 1], next);
      }
    }
  }

  lemma ExtendsDurable(db: Tables, db': Tables)
    requires Extends(db, db')
    ensures Durable(db, db')
  {
    hide Durable;
  }

  lemma DurableSelf(db: Tables)
    ensures Durable(db, db)
  {
  }

  /** Every run is sound. */
  lemma {:induction false} RunsAreSound(sha: Hash, ops: seq<Operation>)
    requires AllPossible(ops)
    ensures Sound(sha, States(sha, ops))
  {
    hide Valid, Durable, Extends, Step, Possible, SpecsGrow;
    if ops == [] {
      EmptyValid(sha);
      DurableSelf(EMPTY);
    } else {
      var past := States(sha, ops[..|ops| - 1]);
      RunsAreSound(sha, ops[..|ops| - 1]);
      forall i | 0 <= i < |past| ensures SpecsGrow(past[i], past[|past| - 1]) {
        DurableSpecs(past[i], past[|past| - 1]);
      }
      StepKeeps(sha, past, ops[|ops| - 1]);
      SoundGrows(sha, past, Step(sha, past, ops[|ops| - 1]));
    }
  }

  lemma DurableSpecs(db: Tables, db': Tables)
    requires Durable(db, db')
    ensures SpecsGrow(db, db')
  {
    hide SpecsGrow;
  }

  /** A state the store can be in. */
  ghost predicate Reached(sha: Hash, ops: seq<Operation>, db: Tables) {
    AllPossible(ops) && db in States(sha, ops)
  }

  lemma ReachedValid(sha: Hash, ops: seq<Operation>, db: Tables)
    requires Reached(sha, ops, db)
    ensures Valid(sha, db)
  {
    hide Valid, States, AllPossible;
    RunsAreSound(sha, ops);
  }

  // ------------------------------------------------------------------- the lease

  ghost predicate HasOpenLease(db: Tables, l: string, t: string) {
    l in db.leases && IsOpen(db.leases[l]) && db.leases[l].task == t
  }

  /** A task is leased if and only if it has an open lease, which is then its only one and
      its active one; and no resource has two open leases. */
  lemma OneActiveLease(sha: Hash, ops: seq<Operation>, db: Tables)
    requires Reached(sha, ops, db)
    ensures forall t :: t in db.states ==> (db.states[t].state == Leased <==> exists l :: HasOpenLease(db, l, t))
    ensures forall t, l :: t in db.states && HasOpenLease(db, l, t) ==> db.states[t].activeLease == Some(l)
    ensures forall l, m :: l in db.leases && m in db.leases && IsOpen(db.leases[l]) && IsOpen(db.leases[m]) && l != m ==>
              db.leases[l].task != db.leases[m].task && db.leases[l].resource != db.leases[m].resource
  {
    hide Reached, SpecsStored, AttemptsSound, TaskFits, CanonicalSound, LeaseFits;
    ReachedValid(sha, ops, db);
    forall t | t in db.states ensures db.states[t].state == Leased <==> exists l :: HasOpenLease(db, l, t) {
      assert StateFits(db.leases, t, db.states[t]);
      if db.states[t].state == Leased {
        assert HasOpenLease(db, db.states[t].activeLease.value, t);
      }
    }
    forall l | l in db.leases ensures LeaseHeld(db.states, l, db.leases[l]) {
    }
  }

  /** Every lease ever stored joins an eligible task and resource within both context
      limits, though eligibility was read before the lease's own transaction. */
  lemma EveryLeaseEligible(sha: Hash, ops: seq<Operation>, db: Tables, l: string)
    requires Reached(sha, ops, db) && l in db.leases
    ensures var lease := db.leases[l];
            && lease.task in db.tasks && lease.resource in db.resources
            && DecodeTask(db.tasks[lease.task].text).Some? && DecodeResource(db.resources[lease.resource].text).Some?
            && Fits(DecodeTask(db.tasks[lease.task].text).value, DecodeResource(db.resources[lease.resource].text).value, lease.contextSize)
  {
    hide Reached, SpecsStored, AttemptsSound, TaskFits, CanonicalSound, Fits, DecodeTask, DecodeResource;
    ReachedValid(sha, ops, db);
    assert LeaseFits(db.tasks, db.resources, db.leases[l]);
  }

  /** After a lease has been acquired at `now`, no open lease has expired by then. */
  lemma AcquireLeavesNoneExpired(sha: Hash, db: Tables, task: string, resource: string, context: string, ttl: int, now: int, id: string)
    requires ttl > 0 && AcquireLease(sha, db, task, resource, context, ttl, now, id).Done?
    ensures ExpiredLeases(AcquireLease(sha, db, task, resource, context, ttl, now, id).db, now) == {}
  {
  }

  // ---------------------------------------------------------------- conservation

  function LeasesOf(db: Tables, t: string): set<string> {
    set l | l in db.leases && db.leases[l].task == t
  }

  /** Released at or after expiry. */
  function ReapedOf(db: Tables, t: string): set<string> {
    set l | l in db.leases && db.leases[l].task == t && db.leases[l].releasedAt.Some? && db.leases[l].expiresAt <= db.leases[l].releasedAt.value
  }

  function OpenOf(db: Tables, t: string): set<string> {
    set l | l in db.leases && db.leases[l].task == t && IsOpen(db.leases[l])
  }

  /** The leases that attempts were made under. */
  function UsedOf(db: Tables, t: string): set<string> {
    set a | a in AttemptsOf(db.attempts, t) && a in db.attempts :: db.attempts[a].lease
  }

  lemma {:induction false} ImageCount(attempts: map<string, Attempt>, ids: set<string>)
    requires forall a :: a in ids ==> a in attempts
    requires forall a, b :: a in ids && b in ids && attempts[a].lease == attempts[b].lease ==> a == b
    ensures |set a | a in ids && a in attempts :: attempts[a].lease| == |ids|
  {
    if ids != {} {
      var x :| x in ids;
      var rest := ids - {x};
      ImageCount(attempts, rest);
      var image := set a | a in rest && a in attempts :: attempts[a].lease;
      assert attempts[x].lease !in image;
      assert (set a | a in ids && a in attempts :: attempts[a].lease) == image + {attempts[x].lease};
    }
  }

  /** A lease of the task is open, was used by an attempt, or was reaped, and only one of
      these. */
  lemma LeasesPartition(db: Tables, t: string)
    requires LeasesSound(db) && AttemptsSound(db)
    ensures LeasesOf(db, t) == UsedOf(db, t) + ReapedOf(db, t) + OpenOf(db, t)
    ensures UsedOf(db, t) !! ReapedOf(db, t) !! OpenOf(db, t)
  {
    hide LeasesSound, DigestFits;
    forall l | l in UsedOf(db, t)
      ensures l in LeasesOf(db, t) && l !in ReapedOf(db, t) && l !in OpenOf(db, t)
    {
      var a :| a in AttemptsOf(db.attempts, t) && a in db.attempts && db.attempts[a].lease == l;
      assert AttemptFits(db.leases, db.attempts[a]);
    }
    forall l | l in LeasesOf(db, t)
      ensures l in UsedOf(db, t) + ReapedOf(db, t) + OpenOf(db, t)
    {
      assert ReleaseExplained(db.attempts, l, db.leases[l]);
      if HasAttempt(db.attempts, l) {
        var a :| a in db.attempts && db.attempts[a].lease == l;
        assert AttemptFits(db.leases, db.attempts[a]);
        assert a in AttemptsOf(db.attempts, t);
      }
    }
  }

  lemma OpenCount(db: Tables, t: string)
    requires LeasesSound(db) && t in db.states
    ensures |OpenOf(db, t)| == if db.states[t].state == Leased then 1 else 0
  {
    hide LeaseFits;
    assert StateFits(db.leases, t, db.states[t]);
    forall l | l in OpenOf(db, t) ensures db.states[t].activeLease == Some(l) && db.states[t].state == Leased {
      assert LeaseHeld(db.states, l, db.leases[l]);
    }
    if db.states[t].state == Leased {
      assert OpenOf(db, t) == {db.states[t].activeLease.value};
    } else {
      assert OpenOf(db, t) == {};
    }
  }

  /** Leases are conserved: those of a task are its attempts, its reaped leases, and one
      more while it is leased. */
  lemma LeasesConserved(sha: Hash, ops: seq<Operation>, db: Tables, t: string)
    requires Reached(sha, ops, db) && t in db.states
    ensures |LeasesOf(db, t)| == |AttemptsOf(db.attempts, t)| + |ReapedOf(db, t)| + (if db.states[t].state == Leased then 1 else 0)
  {
    hide Reached, LeasesOf, UsedOf, ReapedOf, OpenOf, AttemptsOf, LeasesSound, SpecsStored, TaskFits, CanonicalSound;
    ReachedValid(sha, ops, db);
    LeasesPartition(db, t);
    OpenCount(db, t);
    UsedCount(db, t);
  }

  lemma UsedCount(db: Tables, t: string)
    requires AttemptsSound(db)
    ensures |UsedOf(db, t)| == |AttemptsOf(db.attempts, t)|
  {
    hide AttemptFits, DigestFits, ReleaseExplained;
    ImageCount(db.attempts, AttemptsOf(db.attempts, t));
  }

  /** A released lease has an attempt if and only if it was released before it expired;
      and an attempt lies within its lease. */
  lemma ReleaseTellsAttempt(sha: Hash, ops: seq<Operation>, db: Tables)
    requires Reached(sha, ops, db)
    ensures forall l :: l in db.leases && db.leases[l].releasedAt.Some? ==>
              (HasAttempt(db.attempts, l) <==> db.leases[l].releasedAt.value < db.leases[l].expiresAt)
    ensures forall a :: a in db.attempts ==>
              && db.attempts[a].lease in db.leases
              && db.attempts[a].startedAt <= db.attempts[a].completedAt < db.leases[db.attempts[a].lease].expiresAt
  {
    hide Reached, LeasesSound, SpecsStored, TaskFits, CanonicalSound, DigestFits;
    ReachedValid(sha, ops, db);
    forall l | l in db.leases && db.leases[l].releasedAt.Some?
      ensures HasAttempt(db.attempts, l) <==> db.leases[l].releasedAt.value < db.leases[l].expiresAt
    {
      assert ReleaseExplained(db.attempts, l, db.leases[l]);
      if HasAttempt(db.attempts, l) {
        var a :| a in db.attempts && db.attempts[a].lease == l;
        assert AttemptFits(db.leases, db.attempts[a]);
      }
    }
    forall a | a in db.attempts ensures AttemptFits(db.leases, db.attempts[a]) {
    }
  }

  // ------------------------------------------------------------- task histories

  /** A task has at most one accepted attempt, and it has one if and only if the task is
      blocked or committed. */
  lemma OneAcceptedAttempt(sha: Hash, ops: seq<Operation>, db: Tables, t: string)
    requires Reached(sha, ops, db) && t in db.tasks
    ensures t in db.states
    ensures forall a, b :: IsAccepted(db, a, t) && IsAccepted(db, b, t) ==> a == b
    ensures (exists a :: IsAccepted(db, a, t)) <==> db.states[t].state == Blocked || db.states[t].state == Committed
  {
    hide Reached, LeasesSound, SpecsStored, AttemptsSound, CanonicalSound, DecodeTask, HistoryFits;
    ReachedValid(sha, ops, db);
    assert TaskFits(db, t);
    AcceptedHistory(db, t, db.states[t].state, DecodeTask(db.tasks[t].text).value.retryBudget);
  }

  ghost predicate IsAccepted(db: Tables, a: string, t: string) {
    a in db.attempts && db.attempts[a].task == t && db.attempts[a].outcome == Accepted
  }

  lemma AcceptedHistory(db: Tables, t: string, state: TaskState, budget: int)
    requires HistoryFits(db.attempts, t, state, budget)
    ensures forall a, b :: IsAccepted(db, a, t) && IsAccepted(db, b, t) ==> a == b
    ensures (exists a :: IsAccepted(db, a, t)) <==> state == Blocked || state == Committed
  {
    var mine := AttemptsOf(db.attempts, t);
    assert forall a :: IsAccepted(db, a, t) ==> a in mine && !Repeatable(db.attempts[a]);
    if state == Blocked || state == Committed {
      var a :| Decides(db.attempts, mine, a) && db.attempts[a].outcome == Accepted;
      assert IsAccepted(db, a, t);
    }
  }

  /** A task that is ready or leased has made no more attempts than its retry budget, all
      of them retry-safe and none unknown or accepted; no task ever makes more than one
      beyond it. */
  lemma RetryBound(sha: Hash, ops: seq<Operation>, db: Tables, t: string)
    requires Reached(sha, ops, db) && t in db.tasks
    ensures t in db.states && DecodeTask(db.tasks[t].text).Some?
    ensures var budget := DecodeTask(db.tasks[t].text).value.retryBudget;
            var mine := AttemptsOf(db.attempts, t);
            && |mine| <= budget + 1
            && (db.states[t].state == Ready || db.states[t].state == Leased ==>
                  |mine| <= budget && forall a :: a in mine ==>
                    db.attempts[a].retrySafe && db.attempts[a].outcome != Uncertain && db.attempts[a].outcome != Accepted)
            && (db.states[t].state == Failed ==>
                  (exists a :: a in mine && !db.attempts[a].retrySafe) || |mine| == budget + 1)
  {
    hide Reached, LeasesSound, SpecsStored, AttemptsSound, CanonicalSound, DecodeTask;
    ReachedValid(sha, ops, db);
    assert TaskFits(db, t);
  }

  /** Unknown, failed and committed are final. */
  predicate Final(state: TaskState) {
    state == Unknown || state == Failed || state == Committed
  }

  lemma {:induction false} FinalStays(sha: Hash, states: seq<Tables>, i: nat, j: nat, t: string)
    requires Sound(sha, states) && i <= j < |states|
    requires t in states[i].states && Final(states[i].states[t].state)
    ensures t in states[j].states && states[j].states[t].state == states[i].states[t].state
    decreases j
  {
    hide Valid, Durable;
    if i < j {
      FinalStays(sha, states, i, j - 1, t);
      assert Extends(states[j - 1], states[j - 1 + 1]);
    }
  }

  /** Every task follows READY -> LEASED -> {READY, BLOCKED, UNKNOWN, FAILED} and BLOCKED ->
      COMMITTED, never leaves a final state, and nothing recorded is ever altered. */
  lemma RunsFollowTheAutomaton(sha: Hash, ops: seq<Operation>, i: nat, j: nat, t: string)
    requires AllPossible(ops) && i <= j <= |ops|
    ensures var states := States(sha, ops);
            && Durable(states[i], states[j])
            && (i < |ops| && t in states[i].states ==>
                  t in states[i + 1].states && Edge(states[i].states[t].state, states[i + 1].states[t].state))
            && (t in states[i].states && Final(states[i].states[t].state) ==>
                  t in states[j].states && states[j].states[t].state == states[i].states[t].state)
  {
    var states := States(sha, ops);
    RunsAreSound(sha, ops);
    hide States, AllPossible, Valid, Durable;
    if i < |ops| {
      assert Extends(states[i], states[i + 1]);
    }
    if t in states[i].states && Final(states[i].states[t].state) {
      FinalStays(sha, states, i, j, t);
    }
  }

  // ------------------------------------------------------------ canonical results

  /** A task has a canonical row if and only if it is committed; the row names its accepted
      attempt, whose digest is the one the task expects. */
  lemma CanonicalIsAccepted(sha: Hash, ops: seq<Operation>, db: Tables, t: string)
    requires Reached(sha, ops, db) && t in db.states
    ensures db.states[t].state == Committed <==> t in db.canonical
    ensures t in db.canonical ==>
              && t in db.tasks && DecodeTask(db.tasks[t].text).Some?
              && IsAccepted(db, db.canonical[t].attempt, t) && db.states[t].canonical == Some(db.canonical[t].attempt)
              && db.attempts[db.canonical[t].attempt].digest == Some(DecodeTask(db.tasks[t].text).value.expected)
  {
    hide Reached, LeasesSound, SpecsStored, DecodeTask, TaskFits, AttemptFits, ReleaseExplained, CanonicalJson, Receipt;
    ReachedValid(sha, ops, db);
    if t in db.canonical {
      assert CanonicalFits(db, t);
      assert DigestFits(db.tasks, db.attempts[db.canonical[t].attempt]);
    }
  }

  /** Committing an attempt fails only if there is no such attempt or it was not accepted:
      no other canonical result can stand in the way, nor the state of the task. */
  lemma CommitFailsOnlyIf(sha: Hash, ops: seq<Operation>, db: Tables, id: string, now: int)
    requires Reached(sha, ops, db)
    ensures var answer := CommitAccepted(db, id, now);
            && (answer == Raised(NoSuchKey) <==> id !in db.attempts)
            && (answer == Raised(WrongState) <==> id in db.attempts && db.attempts[id].outcome != Accepted)
            && (answer.Done? <==> id in db.attempts && db.attempts[id].outcome == Accepted)
  {
    hide Reached, Valid, States;
    ReachedValid(sha, ops, db);
    if id in db.attempts && db.attempts[id].outcome == Accepted {
      CommitSucceeds(sha, ops, db, id, now);
    } else {
      hide CanonicalJson, Receipt, Loads;
    }
  }

  lemma CommitSucceeds(sha: Hash, ops: seq<Operation>, db: Tables, id: string, now: int)
    requires Reached(sha, ops, db) && id in db.attempts && db.attempts[id].outcome == Accepted
    ensures CommitAccepted(db, id, now).Done?
  {
    hide Reached, Valid, States, CanonicalJson, Receipt, Loads, DecodeTask;
    ReachedValid(sha, ops, db);
    var t := db.attempts[id].task;
    AttemptTask(sha, db, id);
    OneAcceptedAttempt(sha, ops, db, t);
    assert IsAccepted(db, id, t);
    CanonicalIsAccepted(sha, ops, db, t);
    if t in db.canonical {
      ReceiptLoads(sha, db, t);
    } else {
      forall u | u in db.canonical ensures db.canonical[u].attempt != id {
        CanonicalTask(sha, db, u);
      }
    }
  }

  lemma AttemptTask(sha: Hash, db: Tables, id: string)
    requires Valid(sha, db) && id in db.attempts
    ensures db.attempts[id].task in db.tasks && db.attempts[id].task in db.states
  {
    hide LeasesSound, TaskFits, CanonicalSound, TaskStored, ResourceStored, DecodeTask;
    assert DigestFits(db.tasks, db.attempts[id]);
  }

  lemma CanonicalTask(sha: Hash, db: Tables, t: string)
    requires Valid(sha, db) && t in db.canonical
    ensures db.canonical[t].attempt in db.attempts && db.attempts[db.canonical[t].attempt].task == t
  {
    hide LeasesSound, TaskFits, SpecsStored, AttemptsSound, CanonicalJson, Receipt;
    assert CanonicalFits(db, t);
  }

  lemma ReceiptWellFormed(id: string, a: Attempt, specHash: string, committedAt: int)
    ensures WellFormed(Receipt(id, a, specHash, committedAt))
  {
    var fs := Receipt(id, a, specHash, committedAt).fields;
    assert |fs[0].key| == 6 && |fs[1].key| == 7 && |fs[2].key| == 14 && |fs[3].key| == 10 && |fs[4].key| == 11;
    assert |fs[5].key| == 12 && |fs[6].key| == 13 && |fs[7].key| == 10 && |fs[8].key| == 7 && |fs[9].key| == 12;
    assert fs[1].key[0] == 't' && fs[8].key[0] == 'o' && fs[3].key[0] == 'a' && fs[7].key[0] == 'r' && fs[5].key[2] == 'n' && fs[9].key[2] == 'm';
    assert DistinctKeys(fs);
  }

  /** What a receipt loads as is the receipt, with its keys sorted. */
  lemma ReceiptLoads(sha: Hash, db: Tables, t: string)
    requires Valid(sha, db) && t in db.canonical
    ensures var row := db.canonical[t];
            && t in db.tasks && row.attempt in db.attempts
            && Loads(row.receipt) == Some(Canonical.Normal(Receipt(row.attempt, db.attempts[row.attempt], db.tasks[t].hash, row.committedAt)))
  {
    hide LeasesSound, TaskFits, SpecsStored, AttemptsSound, Receipt, Canonical.Normal, Loads;
    assert CanonicalFits(db, t);
    var row := db.canonical[t];
    var receipt := Receipt(row.attempt, db.attempts[row.attempt], db.tasks[t].hash, row.committedAt);
    ReceiptWellFormed(row.attempt, db.attempts[row.attempt], db.tasks[t].hash, row.committedAt);
    Canonical.NormalWellFormed(receipt);
    RoundTrip.LoadsInvertsPrint(COMPACT_ASCII, Canonical.Normal(receipt));
  }

  /** The states of a run are those of its beginning, one step further. */
  lemma {:induction false} StateAfter(sha: Hash, ops: seq<Operation>, i: nat)
    requires i < |ops|
    ensures States(sha, ops)[..i + 1] == States(sha, ops[..i])
    ensures States(sha, ops)[i + 1] == Step(sha, States(sha, ops[..i]), ops[i])
  {
    hide Step;
    var n := |ops| - 1;
    var past := States(sha, ops[..n]);
    if i == n {
      assert States(sha, ops)[..n + 1] == past;
    } else {
      StateAfter(sha, ops[..n], i);
      assert ops[..n][..i] == ops[..i];
      assert States(sha, ops)[..i + 1] == past[..i + 1];
    }
  }

  lemma ReceiptSame(receipt: Json)
    requires WellFormed(receipt)
    ensures Canonical.Same(Canonical.Normal(receipt), receipt)
  {
    Canonical.NormalWellFormed(receipt);
    NormalTwice(receipt);
    Canonical.NormalFormIsFaithful(Canonical.Normal(receipt), receipt);
  }

  /** What a successful commit returns is the receipt its canonical row then holds. */
  lemma CommitReturnsReceipt(sha: Hash, db: Tables, id: string, now: int)
    requires Valid(sha, db) && CommitAccepted(db, id, now).Done?
    ensures var answer := CommitAccepted(db, id, now);
            var t := db.attempts[id].task;
            && t in answer.db.canonical && answer.db.canonical[t].attempt == id && t in answer.db.tasks && id in answer.db.attempts
            && Canonical.Same(answer.value, Receipt(id, answer.db.attempts[id], answer.db.tasks[t].hash, answer.db.canonical[t].committedAt))
  {
    hide Valid, CanonicalJson, Receipt, Loads, Canonical.Same, Canonical.Normal;
    var t := db.attempts[id].task;
    if t in db.canonical {
      ReceiptLoads(sha, db, t);
      ReceiptWellFormed(id, db.attempts[id], db.tasks[t].hash, db.canonical[t].committedAt);
      ReceiptSame(Receipt(id, db.attempts[id], db.tasks[t].hash, db.canonical[t].committedAt));
    } else {
      var receipt := Receipt(id, db.attempts[id], db.tasks[t].hash, now);
      ReceiptWellFormed(id, db.attempts[id], db.tasks[t].hash, now);
      SameSelf(receipt);
    }
  }

  lemma SameSelf(j: Json)
    requires WellFormed(j)
    ensures Canonical.Same(j, j)
  {
    Canonical.NormalFormIsFaithful(j, j);
  }

  lemma SameBothWays(a: Json, b: Json, c: Json)
    requires WellFormed(a) && WellFormed(b) && WellFormed(c) && Canonical.Same(a, b) && Canonical.Same(c, b)
    ensures Canonical.Same(a, c)
  {
    Canonical.SameHasOneNormalForm(a, b);
    Canonical.SameHasOneNormalForm(c, b);
    Canonical.NormalFormIsFaithful(a, c);
  }

  /** Committing the same attempt again, at any later time and whatever happened in
      between, changes nothing and returns the original receipt, key order aside. */
  lemma CommitIsIdempotent(sha: Hash, ops: seq<Operation>, i: nat, j: nat, id: string, now: int, later: int)
    requires AllPossible(ops) && i < j <= |ops| && ops[i] == Commit(id, now)
    requires CommitAccepted(States(sha, ops)[i], id, now).Done?
    ensures var first := CommitAccepted(States(sha, ops)[i], id, now);
            var again := CommitAccepted(States(sha, ops)[j], id, later);
            again.Done? && again.db == States(sha, ops)[j] && Canonical.Same(again.value, first.value)
  {
    hide *;
    var states := States(sha, ops);
    RunsAreSound(sha, ops);
    var db, after, db' := states[i], states[i + 1], states[j];
    SoundParts(sha, states, i, i + 1);
    SoundParts(sha, states, i + 1, j);
    CommitStepIs(sha, ops, i, id, now);
    var first := CommitAccepted(db, id, now);
    assert first.db == after;
    CommitReturnsReceipt(sha, db, id, now);
    CommitKnows(db, id, now);
    var t := db.attempts[id].task;
    ReceiptKept(after, db', id, t);
    CommitAgain(sha, db', id, later, t);
    var again := CommitAccepted(db', id, later);
    var receipt := Receipt(id, db'.attempts[id], db'.tasks[t].hash, db'.canonical[t].committedAt);
    CommitReturnsReceipt(sha, db', id, later);
    CommitWellFormed(sha, db, id, now);
    CommitWellFormed(sha, db', id, later);
    ReceiptWellFormed(id, db'.attempts[id], db'.tasks[t].hash, db'.canonical[t].committedAt);
    SameBothWays(again.value, receipt, first.value);
  }

  lemma CommitKnows(db: Tables, id: string, now: int)
    requires CommitAccepted(db, id, now).Done?
    ensures id in db.attempts
  {
  }

  lemma SoundParts(sha: Hash, states: seq<Tables>, i: nat, j: nat)
    requires Sound(sha, states) && i <= j < |states|
    ensures Valid(sha, states[i]) && Valid(sha, states[j]) && Durable(states[i], states[j])
  {
    hide Valid, Durable, Extends;
  }

  lemma CommitStepIs(sha: Hash, ops: seq<Operation>, i: nat, id: string, now: int)
    requires i < |ops| && ops[i] == Commit(id, now) && CommitAccepted(States(sha, ops)[i], id, now).Done?
    ensures States(sha, ops)[i + 1] == CommitAccepted(States(sha, ops)[i], id, now).db
  {
    StateAfter(sha, ops, i);
    hide CommitAccepted, States;
    assert States(sha, ops)[i] == States(sha, ops)[..i + 1][i];
  }

  lemma ReceiptKept(db: Tables, db': Tables, id: string, t: string)
    requires Durable(db, db') && t in db.canonical && t in db.tasks && id in db.attempts && db.canonical[t].attempt == id
    ensures t in db'.canonical && db'.canonical[t] == db.canonical[t]
    ensures t in db'.tasks && db'.tasks[t] == db.tasks[t]
    ensures id in db'.attempts && db'.attempts[id] == db.attempts[id]
  {
  }

  lemma CommitAgain(sha: Hash, db: Tables, id: string, now: int, t: string)
    requires Valid(sha, db) && t in db.canonical && db.canonical[t].attempt == id
    ensures CommitAccepted(db, id, now).Done? && CommitAccepted(db, id, now).db == db
    ensures id in db.attempts && db.attempts[id].task == t
  {
    hide LeasesSound, TaskFits, SpecsStored, AttemptsSound, CanonicalJson, Receipt, Loads;
    assert CanonicalFits(db, t);
    ReceiptLoads(sha, db, t);
  }

  lemma CommitWellFormed(sha: Hash, db: Tables, id: string, now: int)
    requires Valid(sha, db) && CommitAccepted(db, id, now).Done?
    ensures WellFormed(CommitAccepted(db, id, now).value)
  {
    hide Valid, CanonicalJson, Receipt, Loads, Canonical.Normal;
    var t := db.attempts[id].task;
    if t in db.canonical {
      ReceiptLoads(sha, db, t);
      ReceiptWellFormed(id, db.attempts[id], db.tasks[t].hash, db.canonical[t].committedAt);
      Canonical.NormalWellFormed(Receipt(id, db.attempts[id], db.tasks[t].hash, db.canonical[t].committedAt));
    } else {
      ReceiptWellFormed(id, db.attempts[id], db.tasks[t].hash, now);
    }
  }

  // --------------------------------------------------------- errors that cannot be

  /** An attempt is refused only for what the caller passed or the state of its lease: an
      open lease is always its task's active authority, and never used twice. */
  lemma RecordFailsOnlyIf(sha: Hash, ops: seq<Operation>, db: Tables, lease: string, report: Report, id: string)
    requires Reached(sha, ops, db)
    ensures var answer := RecordAttempt(sha, db, lease, report, id);
            var usable := lease in db.leases && IsOpen(db.leases[lease]) && report.completedAt < db.leases[lease].expiresAt;
            && (answer == Raised(BadValue) <==> !report.Sensible())
            && (answer == Raised(LeaseRefused) <==> report.Sensible() && !usable)
            && (answer == Raised(Duplicate) <==> report.Sensible() && usable && id in db.attempts)
            && (answer.Done? <==> report.Sensible() && usable && id !in db.attempts)
  {
    hide Reached, Valid, AttemptsOf, OutcomeOf, DigestOf, NextState, DecodeTask;
    ReachedValid(sha, ops, db);
    if lease in db.leases && IsOpen(db.leases[lease]) {
      OpenLeaseUsable(sha, db, lease);
    }
  }

  lemma OpenLeaseUsable(sha: Hash, db: Tables, lease: string)
    requires Valid(sha, db) && lease in db.leases && IsOpen(db.leases[lease])
    ensures var t := db.leases[lease].task;
            && t in db.states && db.states[t].state == Leased && db.states[t].activeLease == Some(lease)
            && t in db.tasks && DecodeTask(db.tasks[t].text).Some?
    ensures forall a :: a in db.attempts ==> db.attempts[a].lease != lease
  {
    hide TaskFits, SpecsStored, CanonicalSound, DigestFits, ReleaseExplained, DecodeTask, DecodeResource, Fits, StateFits;
    assert LeaseFits(db.tasks, db.resources, db.leases[lease]) && LeaseHeld(db.states, lease, db.leases[lease]);
    forall a | a in db.attempts ensures db.attempts[a].lease != lease {
      assert AttemptFits(db.leases, db.attempts[a]);
    }
  }

  /** The guard in the reaping loop never fails: an expired open lease is always the active
      lease of its task. */
  lemma ReapGuardHolds(sha: Hash, ops: seq<Operation>, db: Tables, now: int, lease: string)
    requires Reached(sha, ops, db) && lease in ExpiredLeases(db, now)
    ensures var t := db.leases[lease].task;
            t in db.states && db.states[t].state == Leased && db.states[t].activeLease == Some(lease)
  {
    hide Reached, Valid;
    ReachedValid(sha, ops, db);
    OpenLeaseUsable(sha, db, lease);
  }

  /** Once eligibility has been checked, the lease transaction fails only because the task
      is not ready after reaping, the resource is busy, or the identifier is taken. */
  lemma AcquireFailsOnlyIf(sha: Hash, ops: seq<Operation>, i: nat, j: nat, task: string, resource: string,
                           context: string, ttl: int, now: int, id: string)
    requires AllPossible(ops) && i <= j <= |ops|
    requires CheckEligible(States(sha, ops)[i], task, resource, context, ttl) == None
    ensures var db := States(sha, ops)[j];
            var reaped := Reap(db, now);
            && task in reaped.states
            && (AcquireLease(sha, db, task, resource, context, ttl, now, id).Done? <==>
                  && reaped.states[task].state == Ready && id !in db.leases
                  && forall l :: l in db.leases && IsOpen(db.leases[l]) && db.leases[l].resource == resource ==> db.leases[l].expiresAt <= now)
  {
    var states := States(sha, ops);
    RunsAreSound(sha, ops);
    hide States, AllPossible, Valid, Durable, CheckEligible, Fits, IsExpired, AcquireLease;
    SoundParts(sha, states, i, j);
    TaskStays(sha, states[i], states[j], task, resource, context, ttl, now);
    ReapAllKeeps(sha, states[j], now);
    if Reap(states[j], now).states[task].state == Ready {
      ReadyMeans(sha, Reap(states[j], now), task);
    }
    AcquireCases(sha, states[j], task, resource, context, ttl, now, id);
  }

  lemma TaskStays(sha: Hash, seen: Tables, db: Tables, task: string, resource: string, context: string, ttl: int, now: int)
    requires Valid(sha, db) && Durable(seen, db) && CheckEligible(seen, task, resource, context, ttl) == None
    ensures task in Reap(db, now).states
  {
    ValidKeys(sha, db);
    hide Valid, Fits, DecodeTask, DecodeResource, LeaseExtends;
  }

  lemma ReadyMeans(sha: Hash, db: Tables, task: string)
    requires Valid(sha, db) && task in db.states && db.states[task].state == Ready
    ensures forall l :: l in db.leases && IsOpen(db.leases[l]) ==> db.leases[l].task != task
  {
    hide SpecsStored, AttemptsSound, TaskFits, CanonicalSound, LeaseFits, StateFits;
    forall l | l in db.leases && IsOpen(db.leases[l]) ensures db.leases[l].task != task {
      assert LeaseHeld(db.states, l, db.leases[l]);
    }
  }

  lemma AcquireCases(sha: Hash, db: Tables, task: string, resource: string, context: string, ttl: int, now: int, id: string)
    requires task in Reap(db, now).states
    requires var reaped := Reap(db, now);
             reaped.states[task].state == Ready ==> forall l :: l in reaped.leases && IsOpen(reaped.leases[l]) ==> reaped.leases[l].task != task
    ensures AcquireLease(sha, db, task, resource, context, ttl, now, id).Done? <==>
              && Reap(db, now).states[task].state == Ready && id !in db.leases
              && forall l :: l in db.leases && IsOpen(db.leases[l]) && db.leases[l].resource == resource ==> db.leases[l].expiresAt <= now
  {
    var reaped := Reap(db, now);
    assert reaped.leases.Keys == db.leases.Keys;
    forall l | l in db.leases
      ensures reaped.leases[l].resource == db.leases[l].resource && reaped.leases[l].task == db.leases[l].task
      ensures IsOpen(reaped.leases[l]) <==> IsOpen(db.leases[l]) && db.leases[l].expiresAt > now
    {
    }
  }

  // --------------------------------------------------------------- resubmission

  lemma StoredTask(sha: Hash, db: Tables, id: string)
    requires Valid(sha, db) && id in db.tasks
    ensures TaskStored(sha, id, db.tasks[id])
  {
    hide LeasesSound, AttemptsSound, TaskFits, CanonicalSound, TaskStored, ResourceStored;
  }

  /** Submitting a task under a known identifier succeeds, changing nothing, exactly if it
      is the stored specification, and is a conflict otherwise. */
  lemma ResubmissionExact(sha: Hash, ops: seq<Operation>, db: Tables, spec: TaskSpec, now: int)
    requires Reached(sha, ops, db) && IsTask(spec) && spec.taskId in db.tasks
    requires BT.NoCollision(sha, db.tasks[spec.taskId].text, TaskText(spec))
    ensures var answer := SubmitTask(sha, db, spec, now);
            if DecodeTask(db.tasks[spec.taskId].text) == Some(spec) then answer.Done? && answer.db == db
            else answer == Raised(Conflict)
  {
    hide Reached, Valid, IsTask, TaskText, DecodeTask, SpecHash, Loads;
    ReachedValid(sha, ops, db);
    StoredTask(sha, db, spec.taskId);
    SubmitDigest(sha, spec);
    TaskRoundTrip(spec);
  }
}

