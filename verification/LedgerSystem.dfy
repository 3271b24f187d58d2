/** One durable run and everything that may act on it: any number of executors, each
    with its own program counter and stale snapshot, interleaved at the boundaries of
    SQLite transactions and tool invocations, any of them able to crash between two
    steps. */
module LedgerSystem {
  import opened Json
  import opened Plans
  import opened Binding
  import opened EffectLedger
  import opened ToolCalls
  import PT = PlanTheorems
  import BT = BindingTheorems

  /** What a call of `run_plan` on the run brings along. */
  datatype Request = Request(plan: Plan, registry: Registry, authorization: Option<Json>)

  /** The committed request and the digest function. */
  datatype Config = Config(sha: Hash, request: Request)

  /** Where an executor is. */
  datatype Pc =
    | Checking                                       // before `bound_effects`
    | AtStep(i: nat)                                 // at the head of the loop over the plan
    | Calling(i: nat, attempt: nat)                  // dispatched, about to enter the tool
    | Inside(i: nat, attempt: nat, at: nat)          // in the tool, call number `at` of the trace
    | Back(i: nat, attempt: nat, reply: Reply)       // about to commit what came back
    | Finishing(code: int)                           // about to call `finish_run`
    | Done(code: int)
    | Blocked(reason: Refusal)                       // `RecoveryBlocked`: returned without finishing
    | Dead                                           // crashed

  datatype Executor = Executor(request: Request, pc: Pc, snapshot: map<nat, Row>, results: seq<Json>)

  /** An invocation of a tool; no reply while it runs or if it never returned. */
  datatype Call = Call(step: nat, attempt: nat, reply: Option<Reply>)

  /** A successful compare-and-set. */
  datatype Dispatch = Dispatch(owner: nat, step: nat)

  /** The durable run, the executors, and two histories that only grow: who dispatched
      what, and the invocations. */
  datatype System = System(run: Run, executors: map<nat, Executor>, dispatches: seq<Dispatch>, trace: seq<Call>)

  datatype Action =
    | Spawn(e: nat, request: Request)
    | Check(e: nat)
    | Advance(e: nat)
    | Send(e: nat)
    | Enter(e: nat)
    | Return(e: nat, reply: Reply)
    | Commit(e: nat)
    | Finish(e: nat)
    | Crash(e: nat)

  /** A request that could be committed: a valid plan and, if present, a valid
      authorization. */
  ghost predicate Committable(c: Config) {
    && PT.ValidPlan(c.request.plan, c.request.registry)
    && PT.WellFormedPlan(c.request.plan)
    && Bind(c.sha, c.request.plan, c.request.registry, c.request.authorization).Accept?
  }

  /** Requests that `run_plan` gets as far as `_execute` with: the plan has been re-parsed
      against the caller's registry. Plans and contracts that collide with the committed
      ones under SHA-256 are left aside. */
  ghost predicate Presentable(c: Config, request: Request) {
    && PT.ValidPlan(request.plan, request.registry)
    && PT.WellFormedPlan(request.plan)
    && BT.NoCollision(c.sha, BT.PlanText(c.request.plan), BT.PlanText(request.plan))
    && BT.NoCollision(c.sha, ContractText(c.request.registry), ContractText(request.registry))
  }

  /** The state `begin_run` leaves behind. */
  ghost function Init(c: Config): System
    requires Committable(c)
  {
    var bound := Bind(c.sha, c.request.plan, c.request.registry, c.request.authorization).value;
    System(NewRun(bound, c.request.plan), map[], [], [])
  }

  function At(s: System, e: nat, ex: Executor): System {
    s.(executors := s.executors[e := ex])
  }

  /** `bound_effects`, then the check that no row is uncertain. */
  function CheckStep(c: Config, s: System, e: nat, ex: Executor): System {
    var r := ex.request;
    match BoundEffects(c.sha, s.run, r.plan, r.registry, r.authorization)
    case Refuse(reason) => At(s, e, ex.(pc := Blocked(reason)))
    case Accept(rows) =>
      var i := FirstUncertain(rows, 0, |r.plan.steps|);
      if i < |r.plan.steps| then At(s, e, ex.(pc := Blocked(UncertainEffect(i))))
      else At(s, e, ex.(pc := AtStep(0), snapshot := rows, results := []))
  }

  /** The steps of the loop that touch nothing durable: halting, running off the plan,
      and reusing a recorded success. */
  function AdvanceStep(s: System, e: nat, ex: Executor): Option<System>
    requires ex.pc.AtStep?
  {
    var i, steps := ex.pc.i, ex.request.plan.steps;
    if i >= |steps| then Some(At(s, e, ex.(pc := Finishing(1))))
    else if steps[i].Halt? then Some(At(s, e, ex.(pc := Finishing(0))))
    else if i in ex.snapshot && ex.snapshot[i].state == Succeeded && ex.snapshot[i].result.Some? then
      match Loads(ex.snapshot[i].result.value)
      case None => None
      case Some(value) => Some(At(s, e, ex.(pc := AtStep(i + 1), results := ex.results + [value])))
    else None
  }

  /** The dispatch transaction. */
  function SendStep(s: System, e: nat, ex: Executor): Option<System>
    requires ex.pc.AtStep?
  {
    var i, steps := ex.pc.i, ex.request.plan.steps;
    if i < |steps| && steps[i].ToolCall? && i in ex.snapshot && ex.snapshot[i].state != Succeeded then
      match DispatchEffect(s.run, i)
      case Refuse(reason) => Some(At(s, e, ex.(pc := Blocked(reason))))
      case Accept(run) =>
        Some(At(s, e, ex.(pc := Calling(i, 1))).(run := run, dispatches := s.dispatches + [Dispatch(e, i)]))
    else None
  }

  function StepName(request: Request, i: nat): string {
    if i < |request.plan.steps| && request.plan.steps[i].ToolCall? then request.plan.steps[i].name else ""
  }

  function StepArgs(request: Request, i: nat): seq<Field> {
    if i < |request.plan.steps| && request.plan.steps[i].ToolCall? then request.plan.steps[i].args else []
  }

  /** The attempts a step's tool allows. */
  function Allowed(request: Request, i: nat): nat {
    if StepName(request, i) in request.registry then MaxAttempts(request.registry[StepName(request, i)]) else 1
  }

  /** The transaction after an invocation: save the error and try again, or commit the
      outcome with its event. */
  function CommitStep(s: System, e: nat, ex: Executor): System
    requires ex.pc.Back?
  {
    var Back(i, attempt, reply) := ex.pc;
    var name := StepName(ex.request, i);
    var outcome := Settle(name, reply);
    if Retryable(reply) && attempt < Allowed(ex.request, i) then
      match ObserveRetry(s.run, i, ResultText(outcome))
      case Refuse(reason) => At(s, e, ex.(pc := Blocked(reason)))
      case Accept(run) => At(s, e, ex.(pc := Calling(i, attempt + 1))).(run := run)
    else
      var event := Event(i, name, Print(COMPACT, Obj(StepArgs(ex.request, i))), ResultText(outcome));
      match ObserveOutcome(s.run, event, outcome.Good?)
      case Refuse(reason) => At(s, e, ex.(pc := Blocked(reason)))
      case Accept(run) =>
        match outcome
        case Good(value) => At(s, e, ex.(pc := AtStep(i + 1), results := ex.results + [value])).(run := run)
        case Bad(_) => At(s, e, ex.(pc := Finishing(1))).(run := run)
  }

  /** One atomic step, if the action is possible. */
  ghost function Next(c: Config, s: System, a: Action): Option<System> {
    if a.Spawn? then
      if a.e !in s.executors && Presentable(c, a.request) then Some(At(s, a.e, Executor(a.request, Checking, map[], [])))
      else None
    else if a.e !in s.executors then None
    else
      var ex := s.executors[a.e];
      match a
      case Check(e) => if ex.pc.Checking? then Some(CheckStep(c, s, e, ex)) else None
      case Advance(e) => if ex.pc.AtStep? then AdvanceStep(s, e, ex) else None
      case Send(e) => if ex.pc.AtStep? then SendStep(s, e, ex) else None
      case Enter(e) =>
        if ex.pc.Calling? then
          Some(At(s, e, ex.(pc := Inside(ex.pc.i, ex.pc.attempt, |s.trace|)))
               .(trace := s.trace + [Call(ex.pc.i, ex.pc.attempt, None)]))
        else None
      case Return(e, reply) =>
        if ex.pc.Inside? && ex.pc.at < |s.trace| && WellFormedReply(reply) then
          Some(At(s, e, ex.(pc := Back(ex.pc.i, ex.pc.attempt, reply)))
               .(trace := s.trace[ex.pc.at := Call(ex.pc.i, ex.pc.attempt, Some(reply))]))
        else None
      case Commit(e) => if ex.pc.Back? then Some(CommitStep(s, e, ex)) else None
      case Finish(e) =>
        if ex.pc.Finishing? then Some(At(s, e, ex.(pc := Done(ex.pc.code))).(run := FinishRun(s.run, ex.pc.code))) else None
      case Crash(e) => if ex.pc.Done? || ex.pc.Blocked? || ex.pc.Dead? then None else Some(At(s, e, ex.(pc := Dead)))
  }

  /** A schedule that can be carried out from a state. */
  ghost predicate Possible(c: Config, s: System, schedule: seq<Action>)
    decreases |schedule|
  {
    schedule == [] || (Next(c, s, schedule[0]).Some? && Possible(c, Next(c, s, schedule[0]).value, schedule[1..]))
  }

  /** The state a schedule leads to. */
  ghost function After(c: Config, s: System, schedule: seq<Action>): System
    requires Possible(c, s, schedule)
    decreases |schedule|
  {
    if schedule == [] then s else After(c, Next(c, s, schedule[0]).value, schedule[1..])
  }
}
