/** Every step of every executor, in any interleaving, keeps the invariant. */
module LedgerPreservation {
  import opened Json
  import opened Plans
  import opened Binding
  import opened EffectLedger
  import opened ToolCalls
  import opened LedgerSystem
  import opened LedgerInvariant
  import Canonical
  import PT = PlanTheorems
  import BT = BindingTheorems
  import RoundTrip = JsonRoundTrip

  // ------------------------------------------------------------------- frames

  /** The ledger, the dispatches and the invocations are as before. */
  ghost predicate SameHistory(s: System, s': System) {
    && s'.run.effects == s.run.effects && s'.run.events == s.run.events && s'.run.bound == s.run.bound
    && s'.dispatches == s.dispatches && s'.trace == s.trace
  }

  lemma HistoryKeepsLocal(c: Config, s: System, s': System, e: nat, ex: Executor)
    requires Local(c, s, e, ex) && SameHistory(s, s')
    ensures Local(c, s', e, ex)
  {
    hide Presentable, Agrees, Retryable, WellFormedReply, WellFormed, Print, Admitted, Progress, AllSucceeded;
    ProgressKept(s, s', ex);
    AdmittedKept(c, s, s', ex);
    assert AllSucceeded(c, s) ==> AllSucceeded(c, s') by { AllSucceededKept(c, s, s'); }
  }

  /** No recorded success is ever changed. */
  ghost predicate KeepsSuccesses(s: System, s': System) {
    forall j :: j in s.run.effects ==> j in s'.run.effects && (s.run.effects[j].state == Succeeded ==> s'.run.effects[j] == s.run.effects[j])
  }

  lemma ProgressKept(s: System, s': System, ex: Executor)
    requires KeepsSuccesses(s, s')
    ensures forall i: nat :: Progress(s, ex, i) ==> Progress(s', ex, i)
  {
    hide WellFormed, Print;
    forall i: nat | Progress(s, ex, i) ensures Progress(s', ex, i) {
      forall j: nat | j < i ensures Holds(s', ex, j) {
        assert Holds(s, ex, j);
      }
    }
  }

  lemma AdmittedKept(c: Config, s: System, s': System, ex: Executor)
    requires KeepsSuccesses(s, s')
    ensures Admitted(c, s, ex) ==> Admitted(c, s', ex)
  {
    hide Agrees;
  }

  lemma AllSucceededKept(c: Config, s: System, s': System)
    requires KeepsSuccesses(s, s') && s'.dispatches == s.dispatches
    ensures AllSucceeded(c, s) ==> AllSucceeded(c, s')
  {
  }

  lemma HistoryKeepsShared(c: Config, s: System, s': System)
    requires Shared(c, s) && SameHistory(s, s') && s'.run.exitCode == s.run.exitCode
    requires s.executors.Keys <= s'.executors.Keys
    ensures Shared(c, s')
  {
    hide Committable, RecordedText, EventFits, Earlier, RetryFollows, Bind, Canonical.Same, Print, Loads;
    assert SettledSteps(s') == SettledSteps(s);
    assert forall j :: 0 <= j < |s.run.events| && EventFits(c, s, j) ==> EventFits(c, s', j) by {
      forall j | 0 <= j < |s.run.events| && EventFits(c, s, j) ensures EventFits(c, s', j) { EventKept(c, s, s', j); }
    }
    VerdictKept(c, s, s');
  }

  lemma EventKept(c: Config, s: System, s': System, j: nat)
    requires EventFits(c, s, j)
    requires j < |s'.run.events| && s'.run.events[j] == s.run.events[j]
    requires j in s.run.effects ==> j in s'.run.effects && s'.run.effects[j] == s.run.effects[j]
    ensures EventFits(c, s', j)
  {
    hide Canonical.Same, Loads, StepName, StepArgs;
  }

  lemma VerdictKept(c: Config, s: System, s': System)
    requires Verdict(c, s) && s'.run.effects == s.run.effects && s'.dispatches == s.dispatches
    requires s'.run.exitCode == s.run.exitCode
    ensures Verdict(c, s')
  {
  }

  /** A step of one executor that changes nothing durable. */
  lemma PrivateStep(c: Config, s: System, s': System, e: nat, ex: Executor)
    requires Inv(c, s) && s' == At(s, e, ex) && Local(c, s, e, ex)
    ensures Inv(c, s')
  {
    hide Local, Shared;
    HistoryKeepsShared(c, s, s');
    forall f | f in s'.executors ensures Local(c, s', f, s'.executors[f]) {
      HistoryKeepsLocal(c, s, s', f, s'.executors[f]);
    }
  }

  // ------------------------------------------------------------ private steps

  lemma SpawnKeeps(c: Config, s: System, e: nat, r: Request)
    requires Inv(c, s) && Next(c, s, Spawn(e, r)).Some?
    ensures Inv(c, Next(c, s, Spawn(e, r)).value)
  {
    hide Shared, Presentable;
    PrivateStep(c, s, Next(c, s, Spawn(e, r)).value, e, Executor(r, Checking, map[], []));
  }

  lemma CrashKeeps(c: Config, s: System, e: nat)
    requires Inv(c, s) && Next(c, s, Crash(e)).Some?
    ensures Inv(c, Next(c, s, Crash(e)).value)
  {
    hide Shared, Presentable;
    PrivateStep(c, s, Next(c, s, Crash(e)).value, e, s.executors[e].(pc := Dead));
  }

  /** Admission takes a snapshot that is right about successes. */
  lemma CheckLocal(c: Config, s: System, e: nat, ex: Executor, rows: map<nat, Row>)
    requires Shared(c, s) && Presentable(c, ex.request)
    requires BoundEffects(c.sha, s.run, ex.request.plan, ex.request.registry, ex.request.authorization) == Accept(rows)
    requires FirstUncertain(rows, 0, |ex.request.plan.steps|) == |ex.request.plan.steps|
    ensures rows == s.run.effects
    ensures Local(c, s, e, ex.(pc := AtStep(0), snapshot := rows, results := []))
  {
    hide *;
    var ex' := ex.(pc := AtStep(0), snapshot := rows, results := []);
    Accepted(c, s, ex.request, rows);
    AdmissionAgrees(c, ex.request);
    ToolsCount(c, ex.request);
    SnapshotAdmitted(c, s, ex');
    Beginning(c, s, e, ex');
  }

  lemma Accepted(c: Config, s: System, r: Request, rows: map<nat, Row>)
    requires Shared(c, s)
    requires BoundEffects(c.sha, s.run, r.plan, r.registry, r.authorization) == Accept(rows)
    ensures Committable(c) && rows == s.run.effects
    ensures CheckBinding(c.sha, Bind(c.sha, c.request.plan, c.request.registry, c.request.authorization).value,
                         r.plan, r.registry, r.authorization).Accept?
    ensures forall i: nat :: i in rows <==> i < Tools(c)
  {
    hide CheckBinding, Bind, Committable, Events, Trace, Verdict, ToolSteps;
  }

  lemma SnapshotAdmitted(c: Config, s: System, ex: Executor)
    requires Agrees(c, ex.request) && ex.snapshot == s.run.effects
    requires forall i: nat :: i in ex.snapshot <==> i < Tools(c)
    requires Tools(c) < |ex.request.plan.steps| == FirstUncertain(ex.snapshot, 0, |ex.request.plan.steps|)
    ensures Admitted(c, s, ex)
  {
    hide Agrees, FirstUncertain;
    forall j: nat | j < Tools(c) ensures ex.snapshot[j].state == IntentRecorded || ex.snapshot[j].state == Succeeded {
      assert !Uncertain(ex.snapshot[j]);
    }
  }

  lemma ToolsCount(c: Config, r: Request)
    requires Agrees(c, r)
    ensures Tools(c) < |r.plan.steps|
  {
    hide StepAgrees;
  }

  lemma Beginning(c: Config, s: System, e: nat, ex: Executor)
    requires Admitted(c, s, ex) && ex.pc == AtStep(0) && ex.results == []
    ensures Local(c, s, e, ex)
  {
    hide Admitted;
  }

  lemma CheckKeeps(c: Config, s: System, e: nat)
    requires Inv(c, s) && Next(c, s, Check(e)).Some?
    ensures Inv(c, Next(c, s, Check(e)).value)
  {
    hide Shared, Presentable, BoundEffects, Admitted, Progress;
    var ex := s.executors[e];
    var r := ex.request;
    var s' := Next(c, s, Check(e)).value;
    match BoundEffects(c.sha, s.run, r.plan, r.registry, r.authorization)
    case Refuse(reason) =>
      RefusedAtCheck(c, s, r);
      PrivateStep(c, s, s', e, ex.(pc := Blocked(reason)));
    case Accept(rows) =>
      if FirstUncertain(rows, 0, |r.plan.steps|) < |r.plan.steps| {
        PrivateStep(c, s, s', e, s'.executors[e]);
      } else {
        CheckLocal(c, s, e, ex, rows);
        PrivateStep(c, s, s', e, ex.(pc := AtStep(0), snapshot := rows, results := []));
      }
  }

  lemma RefusedAtCheck(c: Config, s: System, r: Request)
    ensures var b := BoundEffects(c.sha, s.run, r.plan, r.registry, r.authorization);
            b.Refuse? ==> !b.reason.OutcomeDenied? && !b.reason.DispatchDenied?
  {
    hide PlanDigest, ContractText, Loads, PlanToJson, AuthorizationToJson;
    AuthorizationRefusals(c.sha, r.authorization);
  }

  lemma AuthorizationRefusals(sha: Hash, a: Option<Json>)
    ensures forall j, plan :: ValidateAuthorization(sha, j, plan).Refuse? ==>
              !ValidateAuthorization(sha, j, plan).reason.OutcomeDenied? && !ValidateAuthorization(sha, j, plan).reason.DispatchDenied?
  {
  }

  /** Reusing a recorded success adds the recorded result. */
  lemma ReuseLocal(c: Config, s: System, e: nat, ex: Executor, i: nat, value: Json)
    requires Rows(c, s) && i < Tools(c) && Admitted(c, s, ex) && Progress(s, ex, i)
    requires ex.snapshot[i].state == Succeeded && ex.snapshot[i].result.Some? && Loads(ex.snapshot[i].result.value) == Some(value)
    ensures Local(c, s, e, ex.(pc := AtStep(i + 1), results := ex.results + [value]))
  {
    hide Agrees, Print, Loads, WellFormed;
    var ex' := ex.(pc := AtStep(i + 1), results := ex.results + [value]);
    assert Terminal(s.run.effects[i]) && i < |s.dispatches|;
    assert RecordedText(s.run.effects[i].result.value);
    forall j: nat | j < i + 1 ensures Holds(s, ex', j) {
      assert j < i ==> Holds(s, ex, j);
    }
    assert Admitted(c, s, ex');
  }

  /** At the halt everything has succeeded. */
  lemma HaltLocal(c: Config, s: System, e: nat, ex: Executor, i: nat)
    requires Rows(c, s) && i <= Tools(c) && Admitted(c, s, ex) && Progress(s, ex, i)
    requires ex.request.plan.steps[i].Halt?
    ensures Local(c, s, e, ex.(pc := Finishing(0)))
  {
    hide RecordedText, Print, WellFormed, Canonical.Same;
    assert i < Tools(c) ==> StepAgrees(c, ex.request, i);
    assert i == Tools(c);
    forall j: nat | j < Tools(c) ensures Holds(s, ex.(pc := Finishing(0)), j) && s.run.effects[j].state == Succeeded {
      assert Holds(s, ex, j);
    }
    assert i > 0 ==> Holds(s, ex, i - 1);
  }

  lemma AdvanceKeeps(c: Config, s: System, e: nat)
    requires Inv(c, s) && Next(c, s, Advance(e)).Some?
    ensures Inv(c, Next(c, s, Advance(e)).value)
  {
    hide Presentable, Admitted, Progress, Rows, Events, Trace, Verdict, Committable, Bind, Loads;
    var ex, s' := s.executors[e], Next(c, s, Advance(e)).value;
    var i := ex.pc.i;
    assert Local(c, s, e, ex);
    assert Agrees(c, ex.request) by { AdmittedAgrees(c, s, ex); }
    if ex.request.plan.steps[i].Halt? {
      HaltLocal(c, s, e, ex, i);
      PrivateStep(c, s, s', e, ex.(pc := Finishing(0)));
    } else {
      var value := Loads(ex.snapshot[i].result.value).value;
      ReuseLocal(c, s, e, ex, i, value);
      PrivateStep(c, s, s', e, ex.(pc := AtStep(i + 1), results := ex.results + [value]));
    }
  }

  lemma AdmittedAgrees(c: Config, s: System, ex: Executor)
    requires Admitted(c, s, ex)
    ensures Agrees(c, ex.request)
  {
    hide Agrees;
  }

  // ---------------------------------------------------------------- finishing

  lemma FinishKeeps(c: Config, s: System, e: nat)
    requires Inv(c, s) && Next(c, s, Finish(e)).Some?
    ensures Inv(c, Next(c, s, Finish(e)).value)
  {
    hide Shared, Presentable, Progress, AllSucceeded;
    var ex, s' := s.executors[e], Next(c, s, Finish(e)).value;
    var ex' := ex.(pc := Done(ex.pc.code));
    assert Local(c, s, e, ex);
    ProgressMoves(s, ex, ex');
    PrivateStep(c, s, At(s, e, ex'), e, ex');
    AllSucceededKept(c, s, At(s, e, ex'));
    ProgressKept(s, At(s, e, ex'), ex');
    FinishShared(c, At(s, e, ex'), ex', ex.pc.code);
    hide Local;
    forall f | f in s'.executors ensures Local(c, s', f, s'.executors[f]) {
      HistoryKeepsLocal(c, At(s, e, ex'), s', f, s'.executors[f]);
    }
  }

  lemma ProgressMoves(s: System, ex: Executor, ex': Executor)
    requires ex'.results == ex.results
    ensures forall i: nat :: Progress(s, ex, i) ==> Progress(s, ex', i)
  {
    hide WellFormed, Print;
    forall i: nat | Progress(s, ex, i) ensures Progress(s, ex', i) {
      forall j: nat | j < i ensures Holds(s, ex', j) {
        assert Holds(s, ex, j);
      }
    }
  }

  lemma FinishShared(c: Config, s: System, ex: Executor, code: int)
    requires Shared(c, s) && Ended(c, s, ex, code)
    ensures Shared(c, s.(run := FinishRun(s.run, code)))
  {
    hide Progress, Committable, Bind, Verdict;
    var s' := s.(run := s.run.(exitCode := None));
    assert Verdict(c, s') by { hide AllSucceeded, Failed; assert s'.run.exitCode.None?; FreshVerdict(c, s'); }
    RowsOnly(c, s, s.(run := FinishRun(s.run, code)));
    EndedVerdict(c, s, ex, code);
  }

  lemma FreshVerdict(c: Config, s: System)
    requires s.run.exitCode.None?
    ensures Verdict(c, s)
  {
  }

  lemma EndedVerdict(c: Config, s: System, ex: Executor, code: int)
    requires Ended(c, s, ex, code)
    ensures Verdict(c, s.(run := FinishRun(s.run, code)))
  {
    hide Progress;
    AllSucceededKept(c, s, s.(run := FinishRun(s.run, code)));
  }

  lemma RowsOnly(c: Config, s: System, s': System)
    requires Rows(c, s) && Events(c, s) && Trace(c, s) && SameHistory(s, s') && s'.executors == s.executors
    ensures Rows(c, s') && Events(c, s') && Trace(c, s')
  {
    hide RecordedText, EventFits, Earlier, RetryFollows, Bind, Canonical.Same, Print, Loads;
    assert SettledSteps(s') == SettledSteps(s);
    forall j | 0 <= j < |s.run.events| ensures EventFits(c, s', j) { EventKept(c, s, s', j); }
  }
}
