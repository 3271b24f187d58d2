/** The harness store as it is written: tables changed step by step inside a transaction,
    a loop that reaps, and a rollback on every exception. Each method does exactly what
    its function on the tables says, and a method that raises leaves the tables as they
    were, even if it reaped on the way. */
module HarnessStore {
  import opened Json
  import opened Binding
  import opened HarnessSpecs
  import opened HarnessTables
  import opened HarnessInvariant
  import opened HarnessPreservation
  import opened HarnessTheorems

  datatype Result<+T> = Ok(value: T) | Err(error: Error)

  /** A method did what the function says: all of it, or nothing. */
  ghost predicate Did<T(!new)>(before: Tables, answer: Answer<T>, after: Tables, r: Result<T>) {
    match answer
    case Done(db, value) => after == db && r == Ok(value)
    case Raised(error) => after == before && r == Err(error)
  }

  class Store {
    const sha: Hash
    var tables: Tables
    /** What a rollback goes back to. */
    var saved: Tables

    ghost predicate Sound()
      reads this
    {
      Valid(sha, tables)
    }

    constructor (sha: Hash)
      ensures Sound() && tables == EMPTY && this.sha == sha
    {
      this.sha := sha;
      this.tables, this.saved := EMPTY, EMPTY;
      new;
      EmptyValid(sha);
    }

    method Begin()
      modifies this`saved
      ensures saved == tables
    {
      saved := tables;
    }

    method Rollback()
      modifies this`tables
      ensures tables == saved
    {
      tables := saved;
    }

    /** Anything other clients do between two statements of this one. */
    method Others()
      requires Sound()
      modifies this
      ensures Sound() && Durable(old(tables), tables)
    {
      DurableSelf(tables);
    }

    /** `submit_task`. */
    method SubmitTask(spec: TaskSpec, now: int) returns (r: Result<string>)
      requires Sound() && IsTask(spec)
      modifies this
      ensures Sound() && Did(old(tables), HarnessTables.SubmitTask(sha, old(tables), spec, now), tables, r)
    {
      hide Valid, IsTask, TaskText, SpecHash, Loads;
      ghost var before := tables;
      var raw := TaskText(spec);
      SubmitDigest(sha, spec);
      var digest := SpecHash(sha, Loads(raw).value);
      Begin();
      if spec.taskId in tables.tasks {
        if tables.tasks[spec.taskId].hash != digest {
          Rollback();
          return Err(Conflict);
        }
        return Ok(digest);
      }
      SubmitKeeps(sha, before, spec, now);
      tables := tables.(tasks := tables.tasks[spec.taskId := SpecRow(raw, digest, now)]);
      tables := tables.(states := tables.states[spec.taskId := StateRow(Ready, None, None, now)]);
      return Ok(digest);
    }

    /** `register_resource`. */
    method RegisterResource(spec: ResourceSpec, now: int) returns (r: Result<string>)
      requires Sound() && IsResource(spec)
      modifies this
      ensures Sound() && Did(old(tables), HarnessTables.RegisterResource(sha, old(tables), spec, now), tables, r)
    {
      hide Valid, IsResource, ResourceText, SpecHash, Loads;
      ghost var before := tables;
      var raw := ResourceText(spec);
      RegisterDigest(sha, spec);
      var digest := SpecHash(sha, Loads(raw).value);
      Begin();
      if spec.resourceId in tables.resources {
        if tables.resources[spec.resourceId].hash != digest {
          Rollback();
          return Err(Conflict);
        }
        return Ok(digest);
      }
      RegisterKeeps(sha, before, spec, now);
      tables := tables.(resources := tables.resources[spec.resourceId := SpecRow(raw, digest, now)]);
      return Ok(digest);
    }

    /** `_reap_expired_tx`: release every expired lease and make its task ready again, if
        the lease is its active one. */
    method ReapExpiredTx(now: int) returns (count: nat)
      requires Sound()
      modifies this`tables
      ensures Sound() && tables == Reap(old(tables), now) && count == |ExpiredLeases(old(tables), now)|
    {
      hide Valid, ExpiredLeases, Reaped, SortedNames;
      ghost var before := tables;
      var expired := ExpiredLeases(tables, now);
      var rows := SortedNames(expired);
      ReapedNone(before, now);
      ghost var done: set<string> := {};
      for i := 0 to |rows|
        invariant tables == Reaped(before, now, done) && done <= expired
        invariant forall k :: k in done <==> k in rows[..i]
      {
        var lease := rows[i];
        NextRow(before, now, rows, i, done);
        ReapStep(sha, before, now, done, lease);
        tables := tables.(leases := tables.leases[lease := tables.leases[lease].(releasedAt := Some(now))]);
        var task := tables.leases[lease].task;
        if task in tables.states && tables.states[task].state == Leased && tables.states[task].activeLease == Some(lease) {
          var row := tables.states[task].(state := Ready, activeLease := None, updatedAt := now);
          tables := tables.(states := tables.states[task := row]);
        }
        done := done + {lease};
      }
      AllRows(rows, done, expired);
      ReapKeeps(sha, before, now, expired);
      return |rows|;
    }

    /** `reap_expired`. */
    method ReapExpired(now: int) returns (count: nat)
      requires Sound()
      modifies this
      ensures Sound() && tables == Reap(old(tables), now) && count == |ExpiredLeases(old(tables), now)|
    {
      Begin();
      count := ReapExpiredTx(now);
    }

    /** `acquire_lease`: eligibility is checked before the transaction, so other clients may
        act in between; what the transaction reaped is undone if it raises. */
    method AcquireLease(task: string, resource: string, context: string, ttl: int, now: int, id: string)
      returns (r: Result<Lease>, ghost before: Tables)
      requires Sound()
      modifies this
      ensures Sound() && Durable(old(tables), before)
      ensures match CheckEligible(old(tables), task, resource, context, ttl)
              case Some(error) => r == Err(error) && tables == old(tables)
              case None => Did(before, HarnessTables.AcquireLease(sha, before, task, resource, context, ttl, now, id), tables, r)
    {
      hide Valid, Durable, DecodeTask, DecodeResource, Fits, Reap, LeaseTaken;
      before := tables;
      DurableSelf(tables);
      if ttl <= 0 { return Err(BadValue), before; }
      if task !in tables.tasks { return Err(NoSuchKey), before; }
      var taskSpec := DecodeTask(tables.tasks[task].text);
      if taskSpec.None? { return Err(BadValue), before; }
      if resource !in tables.resources { return Err(NoSuchKey), before; }
      var resourceSpec := DecodeResource(tables.resources[resource].text);
      if resourceSpec.None? { return Err(BadValue), before; }
      if !Fits(taskSpec.value, resourceSpec.value, |context|) { return Err(Ineligible), before; }
      ghost var seen := tables;
      assert CheckEligible(seen, task, resource, context, ttl) == None;
      hide CheckEligible;
      Others();
      Begin();
      before := tables;
      DurableSpecs(seen, before);
      ghost var answer := HarnessTables.AcquireLease(sha, before, task, resource, context, ttl, now, id);
      if answer.Done? {
        AcquireKeeps(sha, seen, before, task, resource, context, ttl, now, id);
      }
      var _ := ReapExpiredTx(now);
      if task !in tables.states {
        Rollback();
        return Err(NoSuchKey), before;
      }
      if tables.states[task].state != Ready {
        Rollback();
        return Err(LeaseRefused), before;
      }
      if LeaseTaken(tables, id, task, resource) {
        Rollback();
        return Err(LeaseRefused), before;
      }
      var lease := Lease(task, resource, sha(context), |context|, now, now + ttl, None);
      tables := tables.(leases := tables.leases[id := lease]);
      var row := tables.states[task].(state := Leased, activeLease := Some(id), updatedAt := now);
      tables := tables.(states := tables.states[task := row]);
      return Ok(lease), before;
    }

    /** `record_attempt`. */
    method RecordAttempt(lease: string, report: Report, id: string) returns (r: Result<Attempt>)
      requires Sound()
      modifies this
      ensures Sound() && Did(old(tables), HarnessTables.RecordAttempt(sha, old(tables), lease, report, id), tables, r)
    {
      hide Valid, DecodeTask, Reap, OutcomeOf, DigestOf, NextState, AttemptsOf;
      ghost var before := tables;
      ghost var answer := HarnessTables.RecordAttempt(sha, before, lease, report, id);
      if answer.Done? {
        RecordKeeps(sha, before, lease, report, id);
      }
      if !report.Sensible() { return Err(BadValue); }
      Begin();
      if lease !in tables.leases || !IsOpen(tables.leases[lease]) {
        Rollback();
        return Err(LeaseRefused);
      }
      var l := tables.leases[lease];
      if l.expiresAt <= report.completedAt {
        var _ := ReapExpiredTx(report.completedAt);
        Rollback();
        return Err(LeaseRefused);
      }
      if l.task !in tables.states || tables.states[l.task].state != Leased || tables.states[l.task].activeLease != Some(lease) {
        Rollback();
        return Err(WrongState);
      }
      if l.task !in tables.tasks {
        Rollback();
        return Err(NoSuchKey);
      }
      var spec := DecodeTask(tables.tasks[l.task].text);
      if spec.None? {
        Rollback();
        return Err(BadValue);
      }
      var outcome := OutcomeOf(sha, report, spec.value.expected);
      var attempt := Attempt(l.task, l.resource, lease, l.contextHash, DigestOf(sha, report), report.ref, outcome, report.retrySafe,
                             report.Started(), report.completedAt);
      if id in tables.attempts || exists a :: a in tables.attempts && tables.attempts[a].lease == lease {
        Rollback();
        return Err(Duplicate);
      }
      tables := tables.(attempts := tables.attempts[id := attempt]);
      tables := tables.(leases := tables.leases[lease := l.(releasedAt := Some(report.completedAt))]);
      var count := |AttemptsOf(tables.attempts, l.task)|;
      var next := NextState(outcome, report.retrySafe, count, spec.value.retryBudget);
      var row := tables.states[l.task].(state := next, activeLease := None, updatedAt := report.completedAt);
      tables := tables.(states := tables.states[l.task := row]);
      return Ok(attempt);
    }

    /** `commit_accepted`. */
    method CommitAccepted(id: string, now: int) returns (r: Result<Json>)
      requires Sound()
      modifies this
      ensures Sound() && Did(old(tables), HarnessTables.CommitAccepted(old(tables), id, now), tables, r)
    {
      hide Valid, CanonicalJson, Receipt, Loads;
      ghost var before := tables;
      ghost var answer := HarnessTables.CommitAccepted(before, id, now);
      if answer.Done? {
        CommitKeeps(sha, before, id, now);
      }
      Begin();
      if id !in tables.attempts {
        Rollback();
        return Err(NoSuchKey);
      }
      var attempt := tables.attempts[id];
      if attempt.outcome != Accepted {
        Rollback();
        return Err(WrongState);
      }
      if attempt.task in tables.canonical {
        var existing := tables.canonical[attempt.task];
        if existing.attempt != id {
          Rollback();
          return Err(Conflict);
        }
        var loaded := Loads(existing.receipt);
        if loaded.None? {
          Rollback();
          return Err(BadValue);
        }
        return Ok(loaded.value);
      }
      if attempt.task !in tables.states || tables.states[attempt.task].state != Blocked {
        Rollback();
        return Err(WrongState);
      }
      if attempt.task !in tables.tasks {
        Rollback();
        return Err(NoSuchKey);
      }
      var receipt := Receipt(id, attempt, tables.tasks[attempt.task].hash, now);
      if exists t :: t in tables.canonical && tables.canonical[t].attempt == id {
        Rollback();
        return Err(Duplicate);
      }
      tables := tables.(canonical := tables.canonical[attempt.task := CanonicalRow(id, CanonicalJson(receipt), now)]);
      var row := tables.states[attempt.task].(state := Committed, canonical := Some(id), activeLease := None, updatedAt := now);
      tables := tables.(states := tables.states[attempt.task := row]);
      return Ok(receipt);
    }
  }

  lemma ReapedNone(db: Tables, now: int)
    ensures Reaped(db, now, {}) == db
  {
    assert Reaped(db, now, {}).leases == db.leases;
    assert Reaped(db, now, {}).states == db.states;
  }

  lemma NextRow(db: Tables, now: int, rows: seq<string>, i: nat, done: set<string>)
    requires i < |rows| && rows == SortedNames(ExpiredLeases(db, now))
    requires forall k :: k in done <==> k in rows[..i]
    ensures rows[i] in ExpiredLeases(db, now) && rows[i] !in done
    ensures forall k :: k in done + {rows[i]} <==> k in rows[..i + 1]
  {
    hide SortedNames, ExpiredLeases;
    assert rows[..i + 1] == rows[..i] + [rows[i]];
  }

  lemma AllRows(rows: seq<string>, done: set<string>, expired: set<string>)
    requires rows == SortedNames(expired) && forall k :: k in done <==> k in rows[..|rows|]
    ensures done == expired
  {
    hide SortedNames;
    assert rows[..|rows|] == rows;
    assert forall k :: k in done <==> k in expired;
  }

  /** Reaping one more lease: its own row, and the state of its task, whose active lease it
      is. */
  lemma ReapStep(sha: Hash, db: Tables, now: int, done: set<string>, lease: string)
    requires Valid(sha, db) && lease in ExpiredLeases(db, now) && lease !in done
    ensures var some := Reaped(db, now, done);
            var task := db.leases[lease].task;
            && lease in some.leases && some.leases[lease] == db.leases[lease]
            && task in some.states && some.states[task] == db.states[task] && some.states[task].state == Leased
            && some.states[task].activeLease == Some(lease)
            && Reaped(db, now, done + {lease}) ==
                 some.(leases := some.leases[lease := some.leases[lease].(releasedAt := Some(now))],
                       states := some.states[task := some.states[task].(state := Ready, activeLease := None, updatedAt := now)])
  {
    hide Valid, ExpiredLeases, IsExpired;
    ExpiredIsOpen(db, now, lease);
    OpenLeaseUsable(sha, db, lease);
    ReapStepLeases(db, now, done, lease);
    ReapStepStates(sha, db, now, done, lease);
    hide Reaped;
    ReapedRest(db, now, done);
    ReapedRest(db, now, done + {lease});
  }

  lemma ExpiredIsOpen(db: Tables, now: int, lease: string)
    requires lease in ExpiredLeases(db, now)
    ensures lease in db.leases && IsOpen(db.leases[lease])
  {
  }

  /** Reaping touches leases and states only. */
  lemma ReapedRest(db: Tables, now: int, ids: set<string>)
    ensures Reaped(db, now, ids) == db.(leases := Reaped(db, now, ids).leases, states := Reaped(db, now, ids).states)
  {
  }

  lemma ReapStepLeases(db: Tables, now: int, done: set<string>, lease: string)
    requires lease in db.leases && lease !in done
    ensures var some := Reaped(db, now, done);
            && lease in some.leases && some.leases[lease] == db.leases[lease]
            && Reaped(db, now, done + {lease}).leases == some.leases[lease := some.leases[lease].(releasedAt := Some(now))]
  {
    hide ReapedState;
  }

  lemma ReapStepStates(sha: Hash, db: Tables, now: int, done: set<string>, lease: string)
    requires Valid(sha, db) && lease in db.leases && lease !in done
    requires var task := db.leases[lease].task;
             task in db.states && db.states[task].state == Leased && db.states[task].activeLease == Some(lease)
    ensures var some := Reaped(db, now, done).states;
            var task := db.leases[lease].task;
            && task in some && some[task] == db.states[task]
            && Reaped(db, now, done + {lease}).states == some[task := some[task].(state := Ready, activeLease := None, updatedAt := now)]
  {
    hide Valid;
    var task := db.leases[lease].task;
    var some, more := Reaped(db, now, done).states, Reaped(db, now, done + {lease}).states;
    forall t | t in db.states && t != task ensures more[t] == some[t] {
      if db.states[t].state == Leased && db.states[t].activeLease == Some(lease) {
        ActiveIsOwn(sha, db, t, lease);
        assert false;
      }
    }
  }

  lemma ActiveIsOwn(sha: Hash, db: Tables, t: string, lease: string)
    requires Valid(sha, db) && t in db.states && db.states[t].state == Leased && db.states[t].activeLease == Some(lease)
    ensures lease in db.leases && db.leases[lease].task == t
  {
    hide SpecsStored, AttemptsSound, TaskFits, CanonicalSound, LeaseFits, LeaseHeld;
    assert StateFits(db.leases, t, db.states[t]);
  }
}
