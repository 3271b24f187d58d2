/** The executor as it is written: a loop over the plan with an inner retry loop, its
    transactions on the database and its tool calls interleaved with whatever other
    executors do. Every one of its moves is a step of the ledger's transition system. */
module Execution {
  import opened Json
  import opened Plans
  import opened Binding
  import opened EffectLedger
  import opened ToolCalls
  import opened History
  import opened LedgerSystem
  import opened LedgerInvariant
  import opened LedgerPreservation
  import opened LedgerWork
  import opened LedgerSafety
  import opened LedgerOutcome
  import opened CrashRefinement
  import opened Schedules
  import opened LedgerReplies
  import PT = PlanTheorems
  import BT = BindingTheorems

  /** How `_execute` ends: halted, a failed step, or `RecoveryBlocked`. */
  datatype Ending = Halted | Errored | Recovery(reason: Refusal)

  /** `Outcome` and the event of a step, as the executor builds them. */
  function EventOf(request: Request, i: nat, outcome: Outcome): Event {
    Event(i, StepName(request, i), Print(COMPACT, Obj(StepArgs(request, i))), ResultText(outcome))
  }

  /** `bound_effects` refuses the request, or a row is uncertain. */
  ghost predicate CheckRefuses(sha: Hash, run: Run, r: Request) {
    var rows := BoundEffects(sha, run, r.plan, r.registry, r.authorization);
    rows.Refuse? || FirstUncertain(rows.value, 0, |r.plan.steps|) < |r.plan.steps|
  }

  /** What `run_plan` makes of the call: the plan does not parse, or `_execute` ended. */
  datatype Returned = Rejected(problem: Problem) | Ended(ending: Ending)

  /** Every plan is printed and parsed against the registry before it is executed. */
  function Reparsed(plan: Plan, registry: Registry): Parsed<Plan> {
    ParseText(Print(DEFAULT, PlanToJson(plan)), registry)
  }

  /** SHA-256 tells what the caller presents from what was committed, if they differ. */
  ghost predicate ToldApart(c: Config, plan: Plan, registry: Registry) {
    && BT.NoCollision(c.sha, BT.PlanText(c.request.plan), BT.PlanText(plan))
    && BT.NoCollision(c.sha, ContractText(c.request.registry), ContractText(registry))
  }

  class DurableRun {
    const sha: Hash
    const database: Database
    const id: nat
    const tools: Oracle
    /** The invocations so far: what the tools' replies may depend on. */
    var calls: seq<Call>
    ghost const config: Config
    /** Whether other executors may be at work on the run. */
    ghost const contended: bool
    ghost var system: System
    ghost var schedule: seq<Action>

    /** The database row is the run of a state that the schedule so far leads to. */
    ghost predicate Valid()
      reads this, database
    {
      && database.Valid() && id in database.runs && database.runs[id] == system.run && calls == system.trace
      && sha == config.sha && ReachedWith(config, tools, schedule, system)
      && forall before: seq<Call>, i: nat :: WellFormedReply(tools(before, i))
    }

    ghost predicate Is(e: nat, ex: LedgerSystem.Executor)
      reads this
    {
      Holder(system, e, ex)
    }

    /** Nobody else has touched the rows from step `i` on. */
    ghost predicate Untouched(i: nat, rows: map<nat, Row>)
      reads this
    {
      contended || forall j :: j in rows && i <= j ==> j in system.run.effects && system.run.effects[j] == rows[j]
    }

    /** The other runs of the database are as they were, unless others interfered. */
    twostate predicate OtherRunsKept()
      reads this, database
    {
      contended || database.runs - {id} == old(database.runs) - {id}
    }

    /** Take up a run that has just been committed. */
    constructor (sha: Hash, database: Database, id: nat, tools: Oracle, ghost config: Config, ghost contended: bool)
      requires Committable(config) && sha == config.sha
      requires database.Valid() && id in database.runs && database.runs[id] == Init(config).run
      requires forall before: seq<Call>, i: nat :: WellFormedReply(tools(before, i))
      ensures Valid() && this.sha == sha && this.database == database && this.id == id && this.tools == tools
      ensures this.config == config && this.contended == contended && system == Init(config)
    {
      hide ReachedWith, Committable, Init, WellFormedReply;
      NothingReached(config, tools);
      this.sha, this.database, this.id, this.tools, this.calls := sha, database, id, tools, [];
      this.config, this.contended := config, contended;
      this.system, this.schedule := Init(config), [];
    }

    /** What other executors do between two steps of this one: anything the transition
        system allows, as long as they leave its own state alone. */
    method Interfere(ghost e: nat, ghost ex: LedgerSystem.Executor)
      requires Valid() && Is(e, ex)
      modifies this, database
      ensures Valid() && Is(e, ex)
      ensures !contended ==> system == old(system) && database.runs == old(database.runs) && calls == old(calls)
    {
    }

    /** Account for a step that has been taken. */
    ghost method Took(a: Action, s: System)
      requires ReachedWith(config, tools, schedule, system) && Next(config, system, a) == Some(s) && Follows(tools, system, a)
      modifies this`system, this`schedule
      ensures ReachedWith(config, tools, schedule, system) && system == s
    {
      hide *;
      StepReached(config, tools, schedule, system, a, s);
      schedule, system := schedule + [a], s;
    }

    /** `bound_effects`, and the loop that refuses an uncertain row. */
    method CheckRows(ghost e: nat, request: Request, ghost ex: LedgerSystem.Executor) returns (r: Checked<map<nat, Row>>)
      requires Valid() && Is(e, ex) && ex.pc == Checking && ex.request == request
      modifies this`system, this`schedule
      ensures Valid()
      ensures r.Refuse? ==> Is(e, ex.(pc := Blocked(r.reason))) && CheckRefuses(sha, old(system.run), request)
      ensures r.Accept? ==> Is(e, ex.(pc := AtStep(0), snapshot := r.value, results := [])) && Untouched(0, r.value)
    {
      hide ReachedWith, BoundEffects, WellFormedReply, Next, CheckStep;
      NextCheck(config, system, e, ex);
      ghost var s := system;
      r := database.BoundRows(sha, id, request.plan, request.registry, request.authorization);
      if r.Accept? {
        var i, count := 0, |request.plan.steps|;
        while i < count && !(i in r.value && Uncertain(r.value[i]))
          invariant 0 <= i <= count
          invariant FirstUncertain(r.value, 0, count) == FirstUncertain(r.value, i, count)
        {
          i := i + 1;
        }
        CheckedRows(config, s, e, ex, r.value);
        if i < count {
          r := Refuse(UncertainEffect(i));
        }
      } else {
        CheckRefused(config, s, e, ex, r.reason);
      }
      Took(Check(e), CheckStep(config, s, e, ex));
    }

    /** The halt ends the loop. */
    ghost method Halts(e: nat, ex: LedgerSystem.Executor)
      requires Valid() && Is(e, ex) && ex.pc.AtStep?
      requires ex.pc.i < |ex.request.plan.steps| && ex.request.plan.steps[ex.pc.i].Halt?
      modifies this`system, this`schedule
      ensures Valid() && Is(e, ex.(pc := Finishing(0)))
    {
      hide ReachedWith, WellFormedReply, Next, SendStep;
      NextAdvance(config, system, e, ex);
      Took(Advance(e), At(system, e, ex.(pc := Finishing(0))));
    }

    /** A recorded success is loaded instead of invoking the tool. */
    method Reuse(ghost e: nat, recorded: Row, ghost ex: LedgerSystem.Executor, ghost i: nat) returns (value: Json)
      requires Valid() && Is(e, ex) && ex.pc == AtStep(i) && i < Tools(config)
      requires i in ex.snapshot && ex.snapshot[i] == recorded && recorded.state == Succeeded
      modifies this`system, this`schedule
      ensures Valid() && Is(e, ex.(pc := AtStep(i + 1), results := ex.results + [value])) && system.run == old(system.run)
    {
      hide ReachedWith, WellFormedReply, Next, SendStep, AdvanceStep, Loads, Inv, Tools;
      ReachedInvariant(config, tools, schedule, system);
      CanReuse(config, system, e, ex, i);
      value := Loads(recorded.result.value).value;
      NextAdvance(config, system, e, ex);
      ReuseStep(system, e, ex, i, value);
      Took(Advance(e), At(system, e, ex.(pc := AtStep(i + 1), results := ex.results + [value])));
    }

    /** The dispatch transaction. */
    method Dispatch(ghost e: nat, i: nat, ghost ex: LedgerSystem.Executor) returns (r: Checked<()>)
      requires Valid() && Is(e, ex) && ex.pc == AtStep(i)
      requires i < |ex.request.plan.steps| && ex.request.plan.steps[i].ToolCall? && i in ex.snapshot && ex.snapshot[i].state != Succeeded
      modifies this`system, this`schedule, database`runs
      ensures Valid() && OtherRunsKept()
      ensures r.Refuse? ==> Is(e, ex.(pc := Blocked(r.reason))) && !RowIs(old(system), i, IntentRecorded)
      ensures r.Accept? ==> Is(e, ex.(pc := Calling(i, 1)))
      ensures forall j :: j in old(system.run.effects) && j != i ==> j in system.run.effects && system.run.effects[j] == old(system.run.effects[j])
    {
      hide ReachedWith, WellFormedReply, Next, AdvanceStep;
      NextAdvance(config, system, e, ex);
      ghost var s' := SendStep(system, e, ex).value;
      r := database.Dispatch(id, i);
      Took(Send(e), s');
    }

    /** Enter the tool. */
    method EnterTool(ghost e: nat, i: nat, a: nat, ghost ex: LedgerSystem.Executor) returns (at: nat)
      requires Valid() && Is(e, ex) && ex.pc == Calling(i, a)
      modifies this
      ensures Valid() && Is(e, ex.(pc := Inside(i, a, at))) && system.run == old(system.run)
    {
      hide ReachedWith, WellFormedReply, Next;
      NextEnter(config, system, e, ex, i, a);
      at := |calls|;
      calls := calls + [Call(i, a, None)];
      Took(Enter(e), At(system, e, ex.(pc := Inside(i, a, at))).(trace := calls));
    }

    /** Come back from the tool, with a reply or an exception. */
    method LeaveTool(ghost e: nat, i: nat, a: nat, at: nat, ghost ex: LedgerSystem.Executor) returns (reply: Reply)
      requires Valid() && Is(e, ex) && ex.pc == Inside(i, a, at)
      modifies this
      ensures Valid() && Is(e, ex.(pc := Back(i, a, reply))) && system.run == old(system.run)
    {
      hide ReachedWith, WellFormedReply, Next, Inv;
      ReachedInvariant(config, tools, schedule, system);
      StillInside(config, system, e, ex);
      reply := tools(calls[..at], i);
      NextReturn(config, system, e, ex, i, a, at, reply);
      calls := calls[at := Call(i, a, Some(reply))];
      Took(Return(e, reply), At(system, e, ex.(pc := Back(i, a, reply))).(trace := calls));
    }

    /** The transaction that saves the last error before another attempt. */
    method SaveError(ghost e: nat, request: Request, i: nat, a: nat, reply: Reply, ghost ex: LedgerSystem.Executor)
      requires Valid() && Is(e, ex) && ex.request == request && ex.pc == Back(i, a, reply)
      requires Retryable(reply) && a < Allowed(request, i)
      modifies this`system, this`schedule, database`runs
      ensures Valid() && Is(e, ex.(pc := Calling(i, a + 1)))
      ensures OtherRunsKept()
      ensures forall j :: j in old(system.run.effects) && j != i ==> j in system.run.effects && system.run.effects[j] == old(system.run.effects[j])
    {
      hide ReachedWith, WellFormedReply, Next, Local, Inv, Settle, ResultText, Print, StepName, StepArgs, Allowed, Retryable, CommitStep, Open;
      BackReady(e, ex);
      NextCommit(config, system, e, ex);
      CommitCases(config, system, e, ex, i, a, reply);
      var outcome := Settle(StepName(request, i), reply);
      ghost var s' := CommitStep(system, e, ex);
      assert i in system.run.effects && system.run.effects[i].state == Dispatching by { OpenRow(system, i); }
      var r := database.Observe(id, EventOf(request, i, outcome), false, true);
      Took(Commit(e), s');
    }

    /** The transaction that commits the outcome of a step with its event. */
    method SaveOutcome(ghost e: nat, request: Request, i: nat, a: nat, reply: Reply, ghost ex: LedgerSystem.Executor) returns (outcome: Outcome)
      requires Valid() && Is(e, ex) && ex.request == request && ex.pc == Back(i, a, reply)
      requires !(Retryable(reply) && a < Allowed(request, i))
      modifies this`system, this`schedule, database`runs
      ensures Valid() && outcome == Settle(StepName(request, i), reply)
      ensures outcome.Good? ==> Is(e, ex.(pc := AtStep(i + 1), results := ex.results + [outcome.value]))
      ensures outcome.Bad? ==> Is(e, ex.(pc := Finishing(1)))
      ensures OtherRunsKept()
      ensures forall j :: j in old(system.run.effects) && j != i ==> j in system.run.effects && system.run.effects[j] == old(system.run.effects[j])
    {
      hide ReachedWith, WellFormedReply, Next, Local, Inv, Settle, ResultText, Print, StepName, StepArgs, Allowed, Retryable, CommitStep, Open;
      BackReady(e, ex);
      NextCommit(config, system, e, ex);
      CommitCases(config, system, e, ex, i, a, reply);
      outcome := Settle(StepName(request, i), reply);
      ghost var s' := CommitStep(system, e, ex);
      assert i in system.run.effects && system.run.effects[i].state == Dispatching by { OpenRow(system, i); }
      var r := database.Observe(id, EventOf(request, i, outcome), outcome.Good?, false);
      Took(Commit(e), s');
    }

    /** The rows are as they were, apart from step `i`, unless others interfered. */
    twostate predicate OnlyRow(i: nat)
      reads this
    {
      contended || forall j :: j in old(system.run.effects) && j != i ==> j in system.run.effects && system.run.effects[j] == old(system.run.effects[j])
    }

    /** The retry loop: invoke until the tool comes back or the attempts are used up. */
    method Attempts(ghost e: nat, request: Request, i: nat, ghost ex: LedgerSystem.Executor) returns (attempt: nat, reply: Reply)
      requires Valid() && Is(e, ex) && ex.pc == Calling(i, 1) && ex.request == request
      modifies this, database
      ensures Valid() && Is(e, ex.(pc := Back(i, attempt, reply))) && OnlyRow(i) && OtherRunsKept()
      ensures !(Retryable(reply) && attempt < Allowed(request, i))
    {
      hide ReachedWith, WellFormedReply, Allowed, Retryable, Valid, Is;
      var most := Allowed(request, i);
      AllowedPositive(request, i);
      attempt := 1;
      reply := TimedOut;
      while true
        invariant 1 <= attempt <= most
        invariant Valid() && Is(e, ex.(pc := Calling(i, attempt))) && OnlyRow(i) && OtherRunsKept()
        decreases most - attempt
      {
        Interfere(e, ex.(pc := Calling(i, attempt)));
        var at := EnterTool(e, i, attempt, ex.(pc := Calling(i, attempt)));
        Interfere(e, ex.(pc := Inside(i, attempt, at)));
        reply := LeaveTool(e, i, attempt, at, ex.(pc := Inside(i, attempt, at)));
        if !Retryable(reply) || attempt == most { break; }
        Interfere(e, ex.(pc := Back(i, attempt, reply)));
        SaveError(e, request, i, attempt, reply, ex.(pc := Back(i, attempt, reply)));
        attempt := attempt + 1;
      }
    }

    /** Dispatch a step, invoke its tool, commit the outcome. */
    method Perform(ghost e: nat, request: Request, i: nat, ghost effects: map<nat, Row>, ghost ex: LedgerSystem.Executor)
      returns (r: Checked<Outcome>)
      requires Valid() && Is(e, ex) && ex.pc == AtStep(i) && ex.request == request && ex.snapshot == effects
      requires i < |request.plan.steps| && request.plan.steps[i].ToolCall?
      requires i in effects && effects[i].state == IntentRecorded && Untouched(i, effects)
      modifies this, database
      ensures Valid() && Untouched(i + 1, effects) && OtherRunsKept()
      ensures r.Refuse? ==> Is(e, ex.(pc := Blocked(r.reason))) && contended
      ensures r.Accept? && r.value.Good? ==> Is(e, ex.(pc := AtStep(i + 1), results := ex.results + [r.value.value]))
      ensures r.Accept? && r.value.Bad? ==> Is(e, ex.(pc := Finishing(1)))
    {
      hide ReachedWith, WellFormedReply, Allowed, Retryable, Settle, StepName, Valid, Is;
      var dispatched := Dispatch(e, i, ex);
      if dispatched.Refuse? { return Refuse(dispatched.reason); }
      var attempt, reply := Attempts(e, request, i, ex.(pc := Calling(i, 1)));
      ghost var back := ex.(pc := Back(i, attempt, reply));
      Interfere(e, back);
      var outcome := SaveOutcome(e, request, i, attempt, reply, back);
      return Accept(outcome);
    }

    /** `_execute`: check the rows, then walk the plan, reusing recorded successes and
        dispatching, invoking and committing the other tool steps. */
    method Execute(ghost e: nat, request: Request, ghost before: LedgerSystem.Executor)
      returns (ending: Ending, results: seq<Json>, ghost ex: LedgerSystem.Executor)
      requires Valid() && Is(e, before) && before.pc == Checking && before.request == request
      modifies this, database
      ensures Valid() && Is(e, ex) && ex.request == request && OtherRunsKept()
      ensures match ending
              case Halted => ex.pc == Finishing(0) && ex.results == results
              case Errored => ex.pc == Finishing(1)
              case Recovery(reason) => ex.pc == Blocked(reason)
      ensures !contended && ending.Recovery? ==>
                CheckRefuses(sha, old(system.run), request) && database.runs == old(database.runs) && calls == old(calls)
    {
      hide ReachedWith, WellFormedReply, Allowed, Retryable, Settle, StepName, Valid, Is;
      results := [];
      ex := before;
      Interfere(e, ex);
      var rows := CheckRows(e, request, ex);
      if rows.Refuse? {
        ex := ex.(pc := Blocked(rows.reason));
        return Recovery(rows.reason), results, ex;
      }
      var effects := rows.value;
      results := [];
      ex := ex.(pc := AtStep(0), snapshot := effects, results := []);
      for i := 0 to |request.plan.steps|
        invariant Valid() && Is(e, ex) && ex.request == request && ex.pc == AtStep(i) && ex.snapshot == effects && ex.results == results
        invariant Untouched(i, effects) && OtherRunsKept()
      {
        Interfere(e, ex);
        if request.plan.steps[i].Halt? {
          Halts(e, ex);
          ex := ex.(pc := Finishing(0));
          return Halted, results, ex;
        }
        StepReady(e, ex, i);
        if effects[i].state == Succeeded {
          var value := Reuse(e, effects[i], ex, i);
          results := results + [value];
          ex := ex.(pc := AtStep(i + 1), results := results);
        } else {
          var performed := Perform(e, request, i, effects, ex);
          if performed.Refuse? {
            ex := ex.(pc := Blocked(performed.reason));
            return Recovery(performed.reason), results, ex;
          } else if performed.value.Bad? {
            ex := ex.(pc := Finishing(1));
            return Errored, results, ex;
          }
          results := results + [performed.value.value];
          ex := ex.(pc := AtStep(i + 1), results := results);
        }
      }
      RunsOut(e, ex);
      ex := ex.(pc := Finishing(1));
      return Errored, results, ex;
    }

    /** A new executor for a call that brings this request. */
    ghost method Arrive(request: Request) returns (e: nat, ex: LedgerSystem.Executor)
      requires Valid() && Presentable(config, request)
      modifies this`system, this`schedule
      ensures Valid() && Is(e, ex) && ex.request == request && ex.pc == Checking && system.run == old(system.run)
    {
      hide ReachedWith, WellFormedReply, Next, Presentable;
      e := Unused(system.executors.Keys);
      ex := LedgerSystem.Executor(request, Checking, map[], []);
      NextSpawn(config, system, e, request);
      Took(Spawn(e, request), At(system, e, ex));
    }

    /** `finish_run`. */
    method Conclude(ghost e: nat, code: int, ghost ex: LedgerSystem.Executor)
      requires Valid() && Is(e, ex) && ex.pc == Finishing(code)
      modifies this`system, this`schedule, database`runs
      ensures Valid() && Is(e, ex.(pc := Done(code))) && database.runs[id].exitCode == Some(code) && OtherRunsKept()
    {
      hide ReachedWith, WellFormedReply, Next;
      NextFinish(config, system, e, ex, code);
      ghost var s' := At(system, e, ex.(pc := Done(code))).(run := FinishRun(system.run, code));
      database.Finish(id, code);
      Took(Finish(e), s');
    }

    /** What a finished run looks like, wherever its executors crashed: the uninterrupted
        run. */
    lemma Finished(e: nat, ex: LedgerSystem.Executor, code: int)
      requires Valid() && Is(e, ex) && ex.pc == Done(code) && database.runs[id].exitCode == Some(code)
      ensures Uninterrupted(config, tools) == Final(code, calls, database.runs[id].effects)
      ensures Explained(config, calls, database.runs[id].effects)
      ensures code == 0 ==> ReturnsRecorded(config, database.runs[id].effects, ex.results)
    {
      hide ReachedWith, WellFormedReply, Inv, ReturnsRecorded, Uninterrupted, AllSucceeded, Explained;
      CrashRefinement.CrashRefinement(config, tools, schedule, system);
      ExplainedNow();
      ReachedInvariant(config, tools, schedule, system);
      if code == 0 {
        DoneReturns(config, system, e);
      }
    }

    lemma ExplainedNow()
      requires Valid()
      ensures Explained(config, calls, database.runs[id].effects)
    {
      hide WellFormedReply, Explained, Reached, FollowsAll;
      ReachedExplained(config, schedule, system);
    }

    /** Execute, and finish the run unless recovery was refused. Whoever else was at it
        and wherever they crashed, a call that halts leaves and returns what the
        uninterrupted run would. */
    method ExecuteAndFinish(request: Request) returns (ending: Ending, results: seq<Json>)
      requires Valid() && Presentable(config, request)
      modifies this, database
      ensures Valid() && OtherRunsKept() && id in database.runs
      ensures match ending
              case Halted =>
                && database.runs[id].exitCode == Some(0)
                && Uninterrupted(config, tools) == Final(0, calls, database.runs[id].effects)
                && Explained(config, calls, database.runs[id].effects)
                && ReturnsRecorded(config, database.runs[id].effects, results)
              case Errored =>
                && database.runs[id].exitCode == Some(1)
                && Uninterrupted(config, tools) == Final(1, calls, database.runs[id].effects)
                && Explained(config, calls, database.runs[id].effects)
              case Recovery(_) =>
                !contended ==> CheckRefuses(sha, old(system.run), request) && database.runs == old(database.runs) && calls == old(calls)
    {
      hide ReachedWith, WellFormedReply, Is, Valid, Presentable, CheckRefuses, Uninterrupted, ReturnsRecorded, Explained;
      ghost var e, arrived := Arrive(request);
      ghost var ex;
      ending, results, ex := Execute(e, request, arrived);
      match ending {
        case Halted =>
          Interfere(e, ex);
          Conclude(e, 0, ex);
          Finished(e, ex.(pc := Done(0)), 0);
        case Errored =>
          Interfere(e, ex);
          Conclude(e, 1, ex);
          Finished(e, ex.(pc := Done(1)), 1);
        case Recovery(_) =>
      }
      RowPresent();
    }

    lemma RowPresent()
      requires Valid()
      ensures id in database.runs
    {
    }

    /** `run_plan` on this run: parse the plan again, then execute or recover it. */
    method RunPlan(plan: Plan, registry: Registry, authorization: Option<Json>) returns (ret: Returned, results: seq<Json>)
      requires Valid()
      requires forall q :: Reparsed(plan, registry) == Ok(q) ==> ToldApart(config, q, registry)
      modifies this, database
      ensures Valid() && OtherRunsKept()
      ensures match ret
              case Rejected(problem) => Reparsed(plan, registry) == Err(problem) && database.runs == old(database.runs) && calls == old(calls)
              case Ended(Halted) =>
                && database.runs[id].exitCode == Some(0)
                && Uninterrupted(config, tools) == Final(0, calls, database.runs[id].effects)
                && Explained(config, calls, database.runs[id].effects)
                && ReturnsRecorded(config, database.runs[id].effects, results)
              case Ended(Errored) =>
                && database.runs[id].exitCode == Some(1)
                && Uninterrupted(config, tools) == Final(1, calls, database.runs[id].effects)
                && Explained(config, calls, database.runs[id].effects)
              case Ended(Recovery(_)) =>
                !contended ==>
                  && Reparsed(plan, registry).Ok?
                  && CheckRefuses(sha, old(system.run), Request(Reparsed(plan, registry).value, registry, authorization))
                  && database.runs == old(database.runs) && calls == old(calls)
    {
      hide ReachedWith, WellFormedReply, Valid, ParseText, Print, PlanToJson, ToldApart, CheckRefuses, Uninterrupted, ReturnsRecorded, Explained;
      results := [];
      var parsed := ParsePlan(Print(DEFAULT, PlanToJson(plan)), registry);
      if parsed.Err? { return Rejected(parsed.problem), results; }
      var request := Request(parsed.value, registry, authorization);
      ParsedIsPresentable(config, Print(DEFAULT, PlanToJson(plan)), request);
      var ending;
      ending, results := ExecuteAndFinish(request);
      return Ended(ending), results;
    }

    /** Running off the end of the plan would be an error. */
    ghost method RunsOut(e: nat, ex: LedgerSystem.Executor)
      requires Valid() && Is(e, ex) && ex.pc.AtStep? && ex.pc.i >= |ex.request.plan.steps|
      modifies this`system, this`schedule
      ensures Valid() && Is(e, ex.(pc := Finishing(1)))
    {
      hide ReachedWith, WellFormedReply, Next, SendStep;
      NextAdvance(config, system, e, ex);
      Took(Advance(e), At(system, e, ex.(pc := Finishing(1))));
    }

    /** At a tool step, the snapshot has its row, an intent or a success. */
    lemma StepReady(e: nat, ex: LedgerSystem.Executor, i: nat)
      requires Valid() && Is(e, ex) && ex.pc == AtStep(i)
      requires i < |ex.request.plan.steps| && ex.request.plan.steps[i].ToolCall?
      ensures i < Tools(config) && i in ex.snapshot
      ensures ex.snapshot[i].state == IntentRecorded || ex.snapshot[i].state == Succeeded
    {
      hide ReachedWith, WellFormedReply, Local, Inv, Admitted;
      ReachedInvariant(config, tools, schedule, system);
      LocalOf(config, system, e);
      OtherwiseMeans(config, system, e, ex);
      BeforeHalt(config, system, ex, i);
      AdmittedParts(config, system, ex, i);
    }

    /** An executor with a reply in hand owns the open row. */
    lemma BackReady(e: nat, ex: LedgerSystem.Executor)
      requires Valid() && Is(e, ex) && ex.pc.Back?
      ensures Open(system, ex.pc.i)
      ensures Allowed(ex.request, ex.pc.i) == Allowed(config.request, ex.pc.i)
      ensures StepName(ex.request, ex.pc.i) == StepName(config.request, ex.pc.i)
    {
      hide ReachedWith, WellFormedReply, Local, Inv, StepName, Allowed, Open, Agrees, Print;
      ReachedInvariant(config, tools, schedule, system);
      LocalOf(config, system, e);
      BackLast(config, system, e, ex);
      EventContent(config, ex.request, ex.pc.i);
    }
  }

  lemma ReuseStep(s: System, e: nat, ex: LedgerSystem.Executor, i: nat, value: Json)
    requires ex.pc == AtStep(i) && i < |ex.request.plan.steps| && ex.request.plan.steps[i].ToolCall?
    requires i in ex.snapshot && ex.snapshot[i].state == Succeeded && ex.snapshot[i].result.Some?
    requires Loads(ex.snapshot[i].result.value) == Some(value)
    ensures AdvanceStep(s, e, ex) == Some(At(s, e, ex.(pc := AtStep(i + 1), results := ex.results + [value])))
  {
    hide Loads;
  }

  lemma OpenRow(s: System, i: nat)
    requires Open(s, i)
    ensures i in s.run.effects && s.run.effects[i].state == Dispatching
  {
  }

  lemma CanReuse(c: Config, s: System, e: nat, ex: LedgerSystem.Executor, i: nat)
    requires Inv(c, s) && Holder(s, e, ex) && ex.pc == AtStep(i) && i < Tools(c)
    requires i in ex.snapshot && ex.snapshot[i].state == Succeeded
    ensures i < |ex.request.plan.steps| && ex.request.plan.steps[i].ToolCall?
    ensures ex.snapshot[i].result.Some? && Loads(ex.snapshot[i].result.value).Some?
  {
    hide Inv, Events, Trace, Verdict, Progress, StepAgrees, Print, WellFormed, Loads, Local;
    LocalOf(c, s, e);
    OtherwiseMeans(c, s, e, ex);
    InvParts(c, s);
    AdmittedParts(c, s, ex, i);
    ToolAt(c, ex.request, i);
    assert Terminal(s.run.effects[i]) && RecordedText(s.run.effects[i].result.value);
  }

  lemma AdmittedParts(c: Config, s: System, ex: LedgerSystem.Executor, i: nat)
    requires Admitted(c, s, ex) && i < Tools(c)
    ensures Agrees(c, ex.request) && i < |ex.request.plan.steps|
    ensures i in ex.snapshot && i in s.run.effects
    ensures ex.snapshot[i].state == IntentRecorded || ex.snapshot[i].state == Succeeded
    ensures ex.snapshot[i].state == Succeeded ==> ex.snapshot[i] == s.run.effects[i]
  {
    hide StepAgrees;
  }

  lemma BeforeHalt(c: Config, s: System, ex: LedgerSystem.Executor, i: nat)
    requires Admitted(c, s, ex) && i < |ex.request.plan.steps| && ex.request.plan.steps[i].ToolCall?
    ensures i < Tools(c)
  {
    hide StepAgrees;
  }

  lemma StillInside(c: Config, s: System, e: nat, ex: LedgerSystem.Executor)
    requires Inv(c, s) && Holder(s, e, ex) && ex.pc.Inside?
    ensures |s.trace| > 0 && ex.pc.at == |s.trace| - 1
  {
    hide Inv, Local;
    LocalOf(c, s, e);
    InsideLast(c, s, e, ex);
  }

  /** How a first run ends: the plan does not parse, the authorization is refused, or
      there is a new run. */
  datatype Started = NotAPlan(problem: Problem) | NotAuthorized(reason: Refusal) | Began(id: nat, ending: Ending)

  /** `run_plan` without a run to recover: commit a new run, execute it, finish it. With
      nobody else at work it ends as the uninterrupted run does, never as a refused
      recovery, and no other run of the database changes. */
  method RunFresh(sha: Hash, database: Database, tools: Oracle, plan: Plan, registry: Registry, authorization: Option<Json>, ghost contended: bool)
    returns (ret: Started, results: seq<Json>)
    requires database.Valid()
    requires forall before: seq<Call>, i: nat :: WellFormedReply(tools(before, i))
    modifies database
    ensures match ret
            case NotAPlan(problem) => Reparsed(plan, registry) == Err(problem) && database.runs == old(database.runs)
            case NotAuthorized(reason) =>
              && Reparsed(plan, registry).Ok? && database.runs == old(database.runs)
              && Bind(sha, Reparsed(plan, registry).value, registry, authorization) == Refuse(reason)
            case Began(id, ending) =>
              && Reparsed(plan, registry).Ok? && id !in old(database.runs)
              && (!contended ==>
                    var final := Uninterrupted(Config(sha, Request(Reparsed(plan, registry).value, registry, authorization)), tools);
                    && id in database.runs && database.runs - {id} == old(database.runs)
                    && database.runs[id].effects == final.rows && database.runs[id].exitCode == Some(final.code)
                    && ending == (if final.code == 0 then Halted else Errored)
                    && (final.code == 0 ==>
                          ReturnsRecorded(Config(sha, Request(Reparsed(plan, registry).value, registry, authorization)), final.rows, results))
                    && Explained(Config(sha, Request(Reparsed(plan, registry).value, registry, authorization)), final.trace, final.rows))
  {
    hide ReachedWith, WellFormedReply, ParseText, Print, PlanToJson, CheckRefuses, Uninterrupted, ReturnsRecorded, Explained, Bind, Init, NewRun,
         Presentable, Committable, DurableRun.Valid;
    results := [];
    var parsed := ParsePlan(Print(DEFAULT, PlanToJson(plan)), registry);
    if parsed.Err? { return NotAPlan(parsed.problem), results; }
    var begun := database.BeginRun(sha, parsed.value, registry, authorization);
    if begun.Refuse? { return NotAuthorized(begun.reason), results; }
    ghost var config := Config(sha, Request(parsed.value, registry, authorization));
    OwnRequest(config, Print(DEFAULT, PlanToJson(plan)));
    assert database.runs - {begun.value} == old(database.runs);
    var run := new DurableRun(sha, database, begun.value, tools, config, contended);
    var ending;
    ending, results := run.ExecuteAndFinish(Request(parsed.value, registry, authorization));
    return Began(begun.value, ending), results;
  }

  /** A request is admitted to the run it has just committed. */
  lemma OwnRequest(c: Config, text: string)
    requires ParseText(text, c.request.registry) == Ok(c.request.plan)
    requires Bind(c.sha, c.request.plan, c.request.registry, c.request.authorization).Accept?
    ensures Committable(c) && Presentable(c, c.request)
    ensures Init(c).run == NewRun(Bind(c.sha, c.request.plan, c.request.registry, c.request.authorization).value, c.request.plan)
    ensures !CheckRefuses(c.sha, Init(c).run, c.request)
  {
    hide ParseText, Bind, CheckBinding, BT.PlanText, ContractText, PT.ValidPlan, PT.WellFormedPlan;
    PT.ParsedPlanWellFormed(text, c.request.registry);
    BT.OwnBindingAccepted(c.sha, c.request.plan, c.request.registry, c.request.authorization);
  }

  /** There is always a name for another executor. */
  lemma {:induction false} Unused(used: set<nat>) returns (e: nat)
    ensures forall x :: x in used ==> x < e
  {
    if used == {} {
      e := 0;
    } else {
      var x :| x in used;
      var rest := Unused(used - {x});
      e := if x < rest then rest else x + 1;
      forall y | y in used ensures y < e {
        assert y == x || y in used - {x};
      }
    }
  }

  lemma ParsedIsPresentable(c: Config, text: string, request: Request)
    requires ParseText(text, request.registry) == Ok(request.plan) && ToldApart(c, request.plan, request.registry)
    ensures Presentable(c, request)
  {
    hide ParseText, BT.NoCollision, PT.ValidPlan, PT.WellFormedPlan;
    PT.ParsedPlanWellFormed(text, request.registry);
  }

  lemma CheckedRows(c: Config, s: System, e: nat, ex: LedgerSystem.Executor, rows: map<nat, Row>)
    requires BoundEffects(c.sha, s.run, ex.request.plan, ex.request.registry, ex.request.authorization) == Accept(rows)
    ensures rows == s.run.effects
    ensures var i := FirstUncertain(rows, 0, |ex.request.plan.steps|);
            CheckStep(c, s, e, ex) ==
              if i < |ex.request.plan.steps| then At(s, e, ex.(pc := Blocked(UncertainEffect(i))))
              else At(s, e, ex.(pc := AtStep(0), snapshot := rows, results := []))
  {
    hide CheckBinding, FirstUncertain;
  }

  lemma CheckRefused(c: Config, s: System, e: nat, ex: LedgerSystem.Executor, reason: Refusal)
    requires BoundEffects(c.sha, s.run, ex.request.plan, ex.request.registry, ex.request.authorization) == Refuse(reason)
    ensures CheckStep(c, s, e, ex) == At(s, e, ex.(pc := Blocked(reason)))
  {
    hide BoundEffects;
  }
}
