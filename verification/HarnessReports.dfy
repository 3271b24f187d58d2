/** What the harness store makes of what its callers pass: the specifications they build,
    the leases they ask for, the attempts they report, the receipts they are given. */
module HarnessReports {
  import opened Json
  import opened Text
  import opened Plans
  import opened Binding
  import opened HarnessSpecs
  import opened HarnessTables
  import opened HarnessInvariant
  import opened HarnessPreservation
  import opened HarnessTheorems
  import Canonical

  // ------------------------------------------------------------- specifications

  /** Trimmed, in code-point order, and just the given names without the blanks around
      them: none blank, none twice. */
  ghost predicate Listed(values: seq<string>, listed: seq<string>) {
    && |listed| == |values|
    && (forall i, j :: 0 <= i < j < |listed| ==> Canonical.Before(listed[i], listed[j]))
    && (forall name :: name in listed <==> exists v :: v in values && HasNonBlank(v) && name == Strip(v))
  }

  lemma NormalizeExact(values: seq<string>)
    ensures NormalizeCapabilities(values).Built? ==> Listed(values, NormalizeCapabilities(values).value)
    ensures NormalizeCapabilities(values).ValueError? ==> forall listed :: !Listed(values, listed)
  {
    hide SortedNames, Strip, HasNonBlank, Canonical.Before;
    forall v | v in values ensures Strip(v) != "" <==> HasNonBlank(v) {
      var _, _ := StripMeans(v);
    }
    forall listed | Listed(values, listed) ensures |values| == |Stripped(values)| {
      ListedCount(values, listed);
    }
  }

  lemma ListedCount(values: seq<string>, listed: seq<string>)
    requires Listed(values, listed)
    ensures |values| == |Stripped(values)|
  {
    hide Strip, HasNonBlank, Canonical.Before;
    forall v | v in values ensures Strip(v) != "" <==> HasNonBlank(v) {
      var _, _ := StripMeans(v);
    }
    OrderedCount(listed);
    assert (set name | name in listed) == Stripped(values);
  }

  lemma {:induction false} OrderedCount(names: seq<string>)
    requires forall i, j :: 0 <= i < j < |names| ==> Canonical.Before(names[i], names[j])
    ensures |set name | name in names| == |names|
  {
    if names != [] {
      var last := |names| - 1;
      var front := names[..last];
      OrderedCount(front);
      forall i | 0 <= i < last ensures names[i] != names[last] {
        Canonical.BeforeStrict(names[i], names[last]);
      }
      assert names[last] !in front;
      assert (set name | name in names) == (set name | name in front) + {names[last]};
    }
  }

  /** Sixty-four hexadecimal characters, capitals written small. */
  ghost predicate HexOf(value: string, digest: string) {
    && |digest| == 64 && |Strip(value)| == 64
    && forall i :: 0 <= i < 64 ==>
         && ('0' <= digest[i] <= '9' || 'a' <= digest[i] <= 'f')
         && (Strip(value)[i] == digest[i] || ('A' <= Strip(value)[i] <= 'F' && Strip(value)[i] as int + 32 == digest[i] as int))
  }

  lemma DigestExact(value: string)
    ensures forall digest :: ValidateDigest(value) == Built(digest) <==> HexOf(value, digest)
  {
    hide Strip;
    forall digest ensures ValidateDigest(value) == Built(digest) <==> HexOf(value, digest) {
      if HexOf(value, digest) {
        assert Lower(Strip(value)) == digest;
      }
    }
  }

  /** One of the five mutation classes, by number. */
  ghost predicate MutationClass(m: string, level: int) {
    0 <= level <= 4 && |m| == 2 && m[0] == 'M' && m[1] as int == 48 + level
  }

  lemma MutationExact(m: string)
    ensures IsMutation(m) <==> exists level :: MutationClass(m, level)
    ensures IsMutation(m) ==> MutationClass(m, MutationLevel(m))
  {
    if IsMutation(m) {
      assert MutationClass(m, MutationLevel(m));
    }
  }

  /** What a task specification object is made of, and from what. */
  ghost predicate TaskFrom(raw: TaskSpec, t: TaskSpec) {
    && HasNonBlank(raw.taskId) && HasNonBlank(raw.intentRef) && HasNonBlank(raw.domain)
    && t.taskId == Strip(raw.taskId) && t.intentRef == Strip(raw.intentRef) && t.domain == Strip(raw.domain)
    && Listed(raw.capabilities, t.capabilities) && HexOf(raw.expected, t.expected)
    && (exists level :: MutationClass(raw.mutation, level)) && t.mutation == raw.mutation
    && (raw.contextBudget.Some? ==> raw.contextBudget.value >= 0) && t.contextBudget == raw.contextBudget
    && raw.retryBudget >= 0 && t.retryBudget == raw.retryBudget
  }

  /** A task specification is built exactly if its parts are acceptable, and from them. */
  lemma BuildTaskExact(raw: TaskSpec)
    ensures BuildTask(raw).Built? ==> TaskFrom(raw, BuildTask(raw).value)
    ensures BuildTask(raw).ValueError? ==> forall t :: !TaskFrom(raw, t)
  {
    hide Strip, HasNonBlank, NormalizeCapabilities, ValidateDigest, Listed, HexOf, IsMutation, MutationClass;
    var _, _ := StripMeans(raw.taskId);
    var _, _ := StripMeans(raw.intentRef);
    var _, _ := StripMeans(raw.domain);
    NormalizeExact(raw.capabilities);
    DigestExact(raw.expected);
    MutationExact(raw.mutation);
    if ValidateDigest(raw.expected).Built? {
      assert HexOf(raw.expected, ValidateDigest(raw.expected).value);
    }
  }

  ghost predicate ResourceFrom(raw: ResourceSpec, r: ResourceSpec) {
    && HasNonBlank(raw.resourceId) && r.resourceId == Strip(raw.resourceId)
    && Listed(raw.capabilities, r.capabilities)
    && (exists level :: MutationClass(raw.mutation, level)) && r.mutation == raw.mutation
    && r.zeroSpend == raw.zeroSpend
    && (raw.contextLimit.Some? ==> raw.contextLimit.value >= 0) && r.contextLimit == raw.contextLimit
  }

  lemma BuildResourceExact(raw: ResourceSpec)
    ensures BuildResource(raw).Built? ==> ResourceFrom(raw, BuildResource(raw).value)
    ensures BuildResource(raw).ValueError? ==> forall r :: !ResourceFrom(raw, r)
  {
    hide Strip, HasNonBlank, NormalizeCapabilities, Listed, IsMutation, MutationClass;
    var _, _ := StripMeans(raw.resourceId);
    NormalizeExact(raw.capabilities);
    MutationExact(raw.mutation);
  }

  // --------------------------------------------------------------------- leasing

  /** The resource may take the task with a context of this size. */
  ghost predicate MayTake(t: TaskSpec, r: ResourceSpec, size: nat) {
    && r.zeroSpend
    && (forall c :: c in t.capabilities ==> c in r.capabilities)
    && (exists needed, allowed :: MutationClass(t.mutation, needed) && MutationClass(r.mutation, allowed) && needed <= allowed)
    && (t.contextBudget.Some? && r.contextLimit.Some? ==> t.contextBudget.value <= r.contextLimit.value)
    && (t.contextBudget.Some? ==> size <= t.contextBudget.value)
    && (r.contextLimit.Some? ==> size <= r.contextLimit.value)
  }

  lemma FitsExact(t: TaskSpec, r: ResourceSpec, size: nat)
    ensures Fits(t, r, size) <==> MayTake(t, r, size)
  {
    MutationExact(t.mutation);
    MutationExact(r.mutation);
    hide IsMutation, MutationLevel;
    if Fits(t, r, size) {
      assert MutationClass(t.mutation, MutationLevel(t.mutation)) && MutationClass(r.mutation, MutationLevel(r.mutation));
    }
  }

  /** Every lease ever stored joins a task and a resource that may take it: free of charge,
      with every capability, a mutation class at least the task's, room for the task's
      context budget, and a context within both limits. */
  lemma EveryLeaseTaken(sha: Hash, ops: seq<Operation>, db: Tables, l: string)
    requires Reached(sha, ops, db) && l in db.leases
    ensures var lease := db.leases[l];
            && lease.task in db.tasks && lease.resource in db.resources
            && DecodeTask(db.tasks[lease.task].text).Some? && DecodeResource(db.resources[lease.resource].text).Some?
            && MayTake(DecodeTask(db.tasks[lease.task].text).value, DecodeResource(db.resources[lease.resource].text).value, lease.contextSize)
  {
    hide Reached, Fits, MayTake, DecodeTask, DecodeResource;
    EveryLeaseEligible(sha, ops, db, l);
    var lease := db.leases[l];
    FitsExact(DecodeTask(db.tasks[lease.task].text).value, DecodeResource(db.resources[lease.resource].text).value, lease.contextSize);
  }

  /** The checks before the lease transaction: a positive time to live, a known task and a
      known resource, and a resource that may take the task. */
  lemma EligibilityExact(sha: Hash, seen: Tables, task: string, resource: string, context: string, ttl: int)
    requires Valid(sha, seen)
    ensures var answer := CheckEligible(seen, task, resource, context, ttl);
            if ttl <= 0 then answer == Some(BadValue)
            else if task !in seen.tasks || resource !in seen.resources then answer == Some(NoSuchKey)
            else
              && DecodeTask(seen.tasks[task].text).Some? && DecodeResource(seen.resources[resource].text).Some?
              && answer == if MayTake(DecodeTask(seen.tasks[task].text).value, DecodeResource(seen.resources[resource].text).value, |context|)
                           then None else Some(Ineligible)
  {
    hide Valid, DecodeTask, DecodeResource, Fits, MayTake;
    if task in seen.tasks {
      StoredDecodes(sha, seen, task);
      if resource in seen.resources {
        ResourceDecodes(sha, seen, resource);
        FitsExact(DecodeTask(seen.tasks[task].text).value, DecodeResource(seen.resources[resource].text).value, |context|);
      }
    }
  }

  lemma StoredDecodes(sha: Hash, db: Tables, id: string)
    requires Valid(sha, db) && id in db.tasks
    ensures DecodeTask(db.tasks[id].text).Some?
  {
    hide Valid, DecodeTask;
    StoredTask(sha, db, id);
  }

  lemma ResourceDecodes(sha: Hash, db: Tables, id: string)
    requires Valid(sha, db) && id in db.resources
    ensures DecodeResource(db.resources[id].text).Some?
  {
    hide LeasesSound, AttemptsSound, TaskFits, CanonicalSound, TaskStored, DecodeResource;
    assert ResourceStored(sha, id, db.resources[id]);
  }

  /** Reaping at `now` releases at `now` just the open leases that have expired by then,
      makes just the tasks ready that were leased under one of those, and changes nothing
      else. */
  ghost predicate ReapedBy(db: Tables, db': Tables, now: int) {
    && db' == db.(leases := db'.leases, states := db'.states)
    && db'.leases.Keys == db.leases.Keys && db'.states.Keys == db.states.Keys
    && (forall l :: l in db.leases ==> db'.leases[l] == ReapedLeaseRow(db.leases[l], now))
    && (forall t :: t in db.states ==> db'.states[t] == ReapedTaskRow(db, db.states[t], now))
  }

  ghost function ReapedLeaseRow(l: Lease, now: int): Lease {
    if l.releasedAt == None && l.expiresAt <= now then
      Lease(l.task, l.resource, l.contextHash, l.contextSize, l.acquiredAt, l.expiresAt, Some(now))
    else l
  }

  ghost function ReapedTaskRow(db: Tables, row: StateRow, now: int): StateRow {
    if row.state == Leased && row.activeLease.Some? && row.activeLease.value in db.leases &&
       db.leases[row.activeLease.value].releasedAt == None && db.leases[row.activeLease.value].expiresAt <= now then
      StateRow(Ready, None, row.canonical, now)
    else row
  }

  lemma ReapExact(db: Tables, now: int)
    ensures ReapedBy(db, Reap(db, now), now)
  {
  }

  /** A lease that is granted is the one asked for, from now for the time to live, with the
      hash and the size of the context; the task is leased under it; and besides what
      reaping did, nothing else has changed. */
  ghost predicate LeasedAsAsked(sha: Hash, reaped: Tables, db': Tables, lease: Lease, task: string, resource: string, context: string,
                                ttl: int, now: int, id: string)
  {
    && lease.task == task && lease.resource == resource && lease.contextHash == sha(context) && lease.contextSize == |context|
    && lease.acquiredAt == now && lease.expiresAt == now + ttl && lease.releasedAt == None
    && task in reaped.states
    && db' == reaped.(leases := reaped.leases[id := lease],
                      states := reaped.states[task := StateRow(Leased, Some(id), reaped.states[task].canonical, now)])
  }

  lemma LeaseExact(sha: Hash, db: Tables, task: string, resource: string, context: string, ttl: int, now: int, id: string)
    requires AcquireLease(sha, db, task, resource, context, ttl, now, id).Done?
    ensures var answer := AcquireLease(sha, db, task, resource, context, ttl, now, id);
            exists reaped :: ReapedBy(db, reaped, now) && LeasedAsAsked(sha, reaped, answer.db, answer.value, task, resource, context, ttl, now, id)
  {
    hide ReapedBy, Reap, LeaseTaken;
    ReapExact(db, now);
    var answer := AcquireLease(sha, db, task, resource, context, ttl, now, id);
    assert LeasedAsAsked(sha, Reap(db, now), answer.db, answer.value, task, resource, context, ttl, now, id);
  }

  // -------------------------------------------------------------------- attempts

  /** What a report says, taken by itself: the outcome, the digest and the next state of a
      task with this expectation and budget, this being its attempt number `made`. */
  ghost predicate ReportTells(sha: Hash, report: Report, expected: string, budget: int, made: nat,
                              outcome: Outcome, digest: Option<string>, next: TaskState)
  {
    var again := if report.retrySafe && made <= budget then Ready else Failed;
    match report.failure
    case Some(UnknownOutcome) => outcome == Uncertain && digest == None && next == Unknown
    case Some(OutrightFailure) => outcome == Unsuccessful && digest == None && next == again
    case None =>
      report.result.Some? && digest == Some(sha(report.result.value)) &&
      if sha(report.result.value) == expected then outcome == Accepted && next == Blocked
      else outcome == Rejected && next == again
  }

  /** The attempt stored is what was reported under its lease; the lease is released; the
      task is in the state the report calls for; nothing else has changed. */
  ghost predicate RecordedAsReported(sha: Hash, db: Tables, db': Tables, a: Attempt, lease: string, report: Report, id: string) {
    && lease in db.leases && id !in db.attempts
    && var l := db.leases[lease];
    && l.task in db.tasks && l.task in db.states && DecodeTask(db.tasks[l.task].text).Some?
    && var spec := DecodeTask(db.tasks[l.task].text).value;
    && var made := |set b | b in db.attempts && db.attempts[b].task == l.task| + 1;
    && a.task == l.task && a.resource == l.resource && a.lease == lease && a.contextHash == l.contextHash
    && a.ref == report.ref && a.retrySafe == report.retrySafe && a.completedAt == report.completedAt
    && a.startedAt == (if report.startedAt.Some? then report.startedAt.value else report.completedAt)
    && exists next ::
         && ReportTells(sha, report, spec.expected, spec.retryBudget, made, a.outcome, a.digest, next)
         && db' == db.(attempts := db.attempts[id := a],
                       leases := db.leases[lease := Lease(l.task, l.resource, l.contextHash, l.contextSize, l.acquiredAt, l.expiresAt, Some(report.completedAt))],
                       states := db.states[l.task := StateRow(next, None, db.states[l.task].canonical, report.completedAt)])
  }

  /** A recorded attempt, and the state it leaves its task in, follow from the report. */
  lemma RecordExact(sha: Hash, db: Tables, lease: string, report: Report, id: string)
    requires RecordAttempt(sha, db, lease, report, id).Done?
    ensures var answer := RecordAttempt(sha, db, lease, report, id);
            RecordedAsReported(sha, db, answer.db, answer.value, lease, report, id)
  {
    hide DecodeTask, AttemptsOf, ReportTells, OutcomeOf, DigestOf, NextState;
    var answer := RecordAttempt(sha, db, lease, report, id);
    var l := db.leases[lease];
    var spec := DecodeTask(db.tasks[l.task].text).value;
    AddedToOne(db.attempts, id, answer.value, l.task);
    MadeSoFar(db.attempts, l.task);
    ReportExact(sha, report, spec.expected, spec.retryBudget, |AttemptsOf(answer.db.attempts, l.task)|);
  }

  lemma MadeSoFar(attempts: map<string, Attempt>, task: string)
    ensures AttemptsOf(attempts, task) == set b | b in attempts && attempts[b].task == task
  {
  }

  lemma ReportExact(sha: Hash, report: Report, expected: string, budget: int, made: nat)
    requires report.Sensible()
    ensures var outcome := OutcomeOf(sha, report, expected);
            ReportTells(sha, report, expected, budget, made, outcome, DigestOf(sha, report), NextState(outcome, report.retrySafe, made, budget))
  {
  }

  /** A report makes sense if it has a result or a failure and not both, an unknown outcome
      is not called retry-safe, and it does not end before it starts. */
  ghost predicate Consistent(report: Report) {
    && (report.result.Some? <==> report.failure.None?)
    && (report.failure == Some(UnknownOutcome) ==> !report.retrySafe)
    && (report.startedAt.Some? ==> report.startedAt.value <= report.completedAt)
  }

  /** When an attempt is refused, and as what. */
  lemma RecordRefusalExact(sha: Hash, ops: seq<Operation>, db: Tables, lease: string, report: Report, id: string)
    requires Reached(sha, ops, db)
    ensures var answer := RecordAttempt(sha, db, lease, report, id);
            var usable := lease in db.leases && db.leases[lease].releasedAt == None && report.completedAt < db.leases[lease].expiresAt;
            && (answer == Raised(BadValue) <==> !Consistent(report))
            && (answer == Raised(LeaseRefused) <==> Consistent(report) && !usable)
            && (answer == Raised(Duplicate) <==> Consistent(report) && usable && id in db.attempts)
            && (answer.Done? <==> Consistent(report) && usable && id !in db.attempts)
  {
    hide Reached, RecordAttempt;
    RecordFailsOnlyIf(sha, ops, db, lease, report, id);
    assert report.Sensible() <==> Consistent(report);
  }

  // -------------------------------------------------------------------- receipts

  /** What a receipt says, key by key, about the attempt and its task. */
  ghost predicate ReceiptSays(receipt: Json, id: string, a: Attempt, specHash: string, committedAt: int) {
    && receipt.Obj?
    && Get(receipt.fields, "schema") == Some(Str("axiom-harness/receipt-v1"))
    && Get(receipt.fields, "task_id") == Some(Str(a.task))
    && Get(receipt.fields, "task_spec_hash") == Some(Str(specHash))
    && Get(receipt.fields, "attempt_id") == Some(Str(id))
    && Get(receipt.fields, "resource_id") == Some(Str(a.resource))
    && Get(receipt.fields, "context_hash") == Some(Str(a.contextHash))
    && Get(receipt.fields, "result_digest") == Some(if a.digest.Some? then Str(a.digest.value) else Null)
    && Get(receipt.fields, "result_ref") == Some(if a.ref.Some? then Str(a.ref.value) else Null)
    && Get(receipt.fields, "outcome") == Some(Str("ACCEPTED"))
    && Get(receipt.fields, "committed_at") == Some(Int(committedAt))
    && |receipt.fields| == 10
  }

  lemma ReceiptBuilt(id: string, a: Attempt, specHash: string, committedAt: int)
    ensures ReceiptSays(Receipt(id, a, specHash, committedAt), id, a, specHash, committedAt)
  {
    hide Get, WellFormed;
    var fs := Receipt(id, a, specHash, committedAt).fields;
    ReceiptDistinct(id, a, specHash, committedAt);
    FieldsFound(fs);
    assert fs[0].key == "schema" && fs[1].key == "task_id" && fs[2].key == "task_spec_hash" && fs[3].key == "attempt_id" && fs[4].key == "resource_id";
    assert fs[5].key == "context_hash" && fs[6].key == "result_digest" && fs[7].key == "result_ref" && fs[8].key == "outcome" && fs[9].key == "committed_at";
  }

  lemma ReceiptDistinct(id: string, a: Attempt, specHash: string, committedAt: int)
    ensures DistinctKeys(Receipt(id, a, specHash, committedAt).fields)
  {
    ReceiptWellFormed(id, a, specHash, committedAt);
    hide DistinctKeys;
  }

  /** The receipt says the same once its canonical text has been read back. */
  lemma ReceiptReread(receipt: Json, id: string, a: Attempt, specHash: string, committedAt: int)
    requires WellFormed(receipt) && ReceiptSays(receipt, id, a, specHash, committedAt)
    ensures Loads(CanonicalJson(receipt)).Some? && ReceiptSays(Loads(CanonicalJson(receipt)).value, id, a, specHash, committedAt)
  {
    hide Get, Loads, CanonicalJson, Reread;
    var fs := receipt.fields;
    CanonicalReadsBack(fs);
    PlainKey(fs, "schema");
    PlainKey(fs, "task_id");
    PlainKey(fs, "task_spec_hash");
    PlainKey(fs, "attempt_id");
    PlainKey(fs, "resource_id");
    PlainKey(fs, "context_hash");
    PlainKey(fs, "result_digest");
    PlainKey(fs, "result_ref");
    PlainKey(fs, "outcome");
    PlainKey(fs, "committed_at");
    RereadCount(fs);
  }

  lemma RereadCount(fs: seq<Field>)
    ensures |Reread(fs)| == |fs|
  {
    Canonical.SortKeeps(Canonical.NormalFields(fs));
  }

  /** Whatever a commit returns, the first time or later, and whatever the canonical row of
      its task holds, says just what the attempt and the task are. */
  lemma CommitSays(sha: Hash, db: Tables, id: string, now: int)
    requires Valid(sha, db) && CommitAccepted(db, id, now).Done?
    ensures var answer := CommitAccepted(db, id, now);
            && id in answer.db.attempts
            && var a := answer.db.attempts[id];
            && a.task in answer.db.canonical && a.task in answer.db.tasks
            && var row := answer.db.canonical[a.task];
            && row.attempt == id
            && ReceiptSays(answer.value, id, a, answer.db.tasks[a.task].hash, row.committedAt)
            && Loads(row.receipt).Some? && ReceiptSays(Loads(row.receipt).value, id, a, answer.db.tasks[a.task].hash, row.committedAt)
            && (a.task !in db.canonical ==> row.committedAt == now)
  {
    hide Valid, Loads, CanonicalJson, Receipt, ReceiptSays;
    var t := db.attempts[id].task;
    var answer := CommitAccepted(db, id, now);
    if t in db.canonical {
      StoredReceipt(sha, db, t);
    } else {
      var receipt := Receipt(id, db.attempts[id], db.tasks[t].hash, now);
      ReceiptBuilt(id, db.attempts[id], db.tasks[t].hash, now);
      ReceiptWellFormed(id, db.attempts[id], db.tasks[t].hash, now);
      ReceiptReread(receipt, id, db.attempts[id], db.tasks[t].hash, now);
    }
  }

  lemma StoredReceipt(sha: Hash, db: Tables, t: string)
    requires Valid(sha, db) && t in db.canonical
    ensures var row := db.canonical[t];
            && t in db.tasks && row.attempt in db.attempts && db.attempts[row.attempt].task == t
            && Loads(row.receipt).Some?
            && ReceiptSays(Loads(row.receipt).value, row.attempt, db.attempts[row.attempt], db.tasks[t].hash, row.committedAt)
  {
    hide LeasesSound, TaskFits, SpecsStored, AttemptsSound, Receipt, Loads, CanonicalJson, ReceiptSays;
    assert CanonicalFits(db, t);
    var row := db.canonical[t];
    var a, hash := db.attempts[row.attempt], db.tasks[t].hash;
    ReceiptBuilt(row.attempt, a, hash, row.committedAt);
    ReceiptWellFormed(row.attempt, a, hash, row.committedAt);
    ReceiptReread(Receipt(row.attempt, a, hash, row.committedAt), row.attempt, a, hash, row.committedAt);
  }

  /** The hash a receipt carries is that of the task's stored text. */
  lemma SpecHashStored(sha: Hash, db: Tables, t: string)
    requires Valid(sha, db) && t in db.tasks
    ensures db.tasks[t].hash == sha(db.tasks[t].text)
  {
    hide Valid, DecodeTask, TaskText, IsTask;
    StoredTask(sha, db, t);
  }
}
