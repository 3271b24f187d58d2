/** The durable record of one run: its binding, one effect row a tool step, the event
    log and the exit code, with the transactions that change them. */
module EffectLedger {
  import opened Json
  import opened Plans
  import opened Binding

  datatype EffectState = IntentRecorded | Dispatching | Succeeded | FailedUnknown

  /** A row of `effects`; the result is JSON text. */
  datatype Row = Row(state: EffectState, result: Option<string>)

  /** A row of `events`; arguments and result are JSON text. */
  datatype Event = Event(step: nat, tool: string, args: string, result: string)

  datatype Run = Run(bound: Bound, effects: map<nat, Row>, events: seq<Event>, exitCode: Option<int>)

  function ToolSteps(plan: Plan): set<nat> {
    set i: nat | i < |plan.steps| && plan.steps[i].ToolCall?
  }

  /** What `begin_run` commits: the binding and an intent for every tool step. */
  function NewRun(bound: Bound, plan: Plan): Run {
    Run(bound, map i | i in ToolSteps(plan) :: Row(IntentRecorded, None), [], None)
  }

  /** `bound_effects`: the binding checks, then the rows, which must be those of the
      plan's tool steps. */
  function BoundEffects(sha: Hash, run: Run, plan: Plan, registry: Registry, authorization: Option<Json>): Checked<map<nat, Row>> {
    match CheckBinding(sha, run.bound, plan, registry, authorization)
    case Refuse(reason) => Refuse(reason)
    case Accept(_) => if run.effects.Keys != ToolSteps(plan) then Refuse(LedgerIncomplete) else Accept(run.effects)
  }

  /** A row that neither awaits dispatch nor succeeded blocks recovery. */
  predicate Uncertain(row: Row) {
    row.state == Dispatching || row.state == FailedUnknown
  }

  /** The first uncertain row in step order, or `count`. */
  function FirstUncertain(rows: map<nat, Row>, from: nat, count: nat): (i: nat)
    requires from <= count
    ensures from <= i <= count
    ensures forall k: nat :: from <= k < i && k in rows ==> !Uncertain(rows[k])
    ensures i < count ==> i in rows && Uncertain(rows[i])
    decreases count - from
  {
    if from == count || (from in rows && Uncertain(rows[from])) then from else FirstUncertain(rows, from + 1, count)
  }

  /** `dispatch_effect`: a compare-and-set from intent to dispatching. */
  function DispatchEffect(run: Run, step: nat): Checked<Run> {
    if step in run.effects && run.effects[step].state == IntentRecorded then
      Accept(run.(effects := run.effects[step := run.effects[step].(state := Dispatching)]))
    else Refuse(DispatchDenied(step))
  }

  /** `observe_effect` while retrying: keep the state, save the last error. */
  function ObserveRetry(run: Run, step: nat, result: string): Checked<Run> {
    if step in run.effects && run.effects[step].state == Dispatching then
      Accept(run.(effects := run.effects[step := Row(Dispatching, Some(result))]))
    else Refuse(OutcomeDenied(step))
  }

  /** `observe_effect` at the end of a step: the outcome and its event in one commit. */
  function ObserveOutcome(run: Run, event: Event, succeeded: bool): Checked<Run> {
    if event.step in run.effects && run.effects[event.step].state == Dispatching then
      var row := Row(if succeeded then Succeeded else FailedUnknown, Some(event.result));
      Accept(run.(effects := run.effects[event.step := row], events := run.events + [event]))
    else Refuse(OutcomeDenied(event.step))
  }

  /** `finish_run`. */
  function FinishRun(run: Run, code: int): Run {
    run.(exitCode := Some(code))
  }
}
