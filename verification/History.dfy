/** The history database: a table of durable runs, each method one transaction. */
module History {
  import opened Json
  import opened Plans
  import opened Binding
  import opened EffectLedger

  class Database {
    var runs: map<nat, Run>
    var nextId: nat

    /** Row ids are handed out in order. */
    ghost predicate Valid() reads this {
      forall id :: id in runs ==> id < nextId
    }

    constructor ()
      ensures Valid() && runs == map[]
    {
      runs, nextId := map[], 0;
    }

    /** `begin_run`: validate the authorization, then commit the binding and one intent a
        tool step; a refusal leaves the database as it was. */
    method BeginRun(sha: Hash, plan: Plan, registry: Registry, authorization: Option<Json>) returns (r: Checked<nat>)
      requires Valid()
      modifies this
      ensures Valid()
      ensures match Bind(sha, plan, registry, authorization)
              case Refuse(reason) => r == Refuse(reason) && runs == old(runs)
              case Accept(bound) => r == Accept(old(nextId)) && old(nextId) !in old(runs) && runs == old(runs)[old(nextId) := NewRun(bound, plan)]
    {
      hide ContractText, PlanToJson, PlanDigest, ValidateAuthorization, Print;
      var bound := Bind(sha, plan, registry, authorization);
      if bound.Refuse? { return Refuse(bound.reason); }
      var effects: map<nat, Row> := map[];
      for i := 0 to |plan.steps|
        invariant effects.Keys == set k: nat | k in ToolSteps(plan) && k < i
        invariant forall k :: k in effects ==> effects[k] == Row(IntentRecorded, None)
      {
        if plan.steps[i].ToolCall? {
          effects := effects[i := Row(IntentRecorded, None)];
        }
      }
      assert effects == NewRun(bound.value, plan).effects;
      var id := nextId;
      runs, nextId := runs[id := Run(bound.value, effects, [], None)], nextId + 1;
      return Accept(id);
    }

    /** `bound_effects`. */
    method BoundRows(sha: Hash, id: nat, plan: Plan, registry: Registry, authorization: Option<Json>) returns (r: Checked<map<nat, Row>>)
      ensures r == if id in runs then BoundEffects(sha, runs[id], plan, registry, authorization) else Refuse(NoLedger)
    {
      if id !in runs { return Refuse(NoLedger); }
      var run := runs[id];
      var checked := CheckBinding(sha, run.bound, plan, registry, authorization);
      if checked.Refuse? { return Refuse(checked.reason); }
      if run.effects.Keys != ToolSteps(plan) { return Refuse(LedgerIncomplete); }
      return Accept(run.effects);
    }

    /** `dispatch_effect`. */
    method Dispatch(id: nat, step: nat) returns (r: Checked<()>)
      requires Valid() && id in runs
      modifies this`runs
      ensures Valid()
      ensures match DispatchEffect(old(runs[id]), step)
              case Refuse(reason) => r == Refuse(reason) && runs == old(runs)
              case Accept(run) => r == Accept(()) && runs == old(runs)[id := run]
    {
      if step !in runs[id].effects || runs[id].effects[step].state != IntentRecorded { return Refuse(DispatchDenied(step)); }
      var row := runs[id].effects[step].(state := Dispatching);
      runs := runs[id := runs[id].(effects := runs[id].effects[step := row])];
      return Accept(());
    }

    /** `observe_effect`: a retry keeps the state and logs nothing. */
    method Observe(id: nat, event: Event, succeeded: bool, retrying: bool) returns (r: Checked<()>)
      requires Valid() && id in runs
      modifies this`runs
      ensures Valid()
      ensures match (if retrying then ObserveRetry(old(runs[id]), event.step, event.result) else ObserveOutcome(old(runs[id]), event, succeeded))
              case Refuse(reason) => r == Refuse(reason) && runs == old(runs)
              case Accept(run) => r == Accept(()) && runs == old(runs)[id := run]
    {
      var state := if retrying then Dispatching else if succeeded then Succeeded else FailedUnknown;
      var run := runs[id];
      if event.step !in run.effects || run.effects[event.step].state != Dispatching { return Refuse(OutcomeDenied(event.step)); }
      run := run.(effects := run.effects[event.step := Row(state, Some(event.result))]);
      if !retrying {
        run := run.(events := run.events + [event]);
      }
      runs := runs[id := run];
      return Accept(());
    }

    /** `finish_run`. */
    method Finish(id: nat, code: int)
      requires Valid() && id in runs
      modifies this`runs
      ensures Valid() && runs == old(runs)[id := FinishRun(old(runs[id]), code)]
    {
      runs := runs[id := runs[id].(exitCode := Some(code))];
    }
  }
}
