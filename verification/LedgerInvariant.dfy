/** What every reachable state of a durable run satisfies. */
module LedgerInvariant {
  import opened Json
  import opened Plans
  import opened Binding
  import opened EffectLedger
  import opened ToolCalls
  import opened LedgerSystem
  import Canonical
  import PT = PlanTheorems
  import BT = BindingTheorems
  import RoundTrip = JsonRoundTrip

  /** The number of tool steps of the committed plan; the halt comes after them. */
  ghost function Tools(c: Config): nat {
    if c.request.plan.steps == [] then 0 else |c.request.plan.steps| - 1
  }

  /** A request that asks for the committed work: the same tools with the same arguments
      and the same retry allowance, then the halt. */
  ghost predicate Agrees(c: Config, r: Request) {
    && |r.plan.steps| == Tools(c) + 1 && r.plan.steps[Tools(c)].Halt?
    && forall i :: 0 <= i < Tools(c) ==> StepAgrees(c, r, i)
  }

  ghost predicate StepAgrees(c: Config, r: Request, i: nat) {
    && i < |r.plan.steps| && r.plan.steps[i].ToolCall?
    && StepName(r, i) == StepName(c.request, i)
    && Allowed(r, i) == Allowed(c.request, i)
    && Canonical.Same(Obj(StepArgs(c.request, i)), Obj(StepArgs(r, i)))
    && WellFormed(Obj(StepArgs(r, i)))
  }

  // -------------------------------------------------------------- shared state

  ghost predicate RecordedText(text: string) {
    Loads(text).Some? && WellFormed(Loads(text).value) && Print(COMPACT, Loads(text).value) == text
  }

  ghost predicate Terminal(row: Row) {
    row.state == Succeeded || row.state == FailedUnknown
  }

  /** The dispatches so far are those of steps 0, 1, 2, ... in order, one each; the rows
      read succeeded, then at most one dispatching or failed, then intents untouched. */
  ghost predicate Rows(c: Config, s: System) {
    var m := |s.dispatches|;
    && m <= Tools(c)
    && (forall i: nat :: i in s.run.effects <==> i < Tools(c))
    && (forall j :: 0 <= j < m ==> s.dispatches[j].step == j && s.dispatches[j].owner in s.executors)
    && (forall j :: m <= j < Tools(c) ==> s.run.effects[j] == Row(IntentRecorded, None))
    && (forall j :: 0 <= j < m - 1 ==> s.run.effects[j].state == Succeeded)
    && (m > 0 ==> s.run.effects[m - 1].state != IntentRecorded)
    && (forall j :: 0 <= j < m && Terminal(s.run.effects[j]) ==>
          s.run.effects[j].result.Some? && RecordedText(s.run.effects[j].result.value))
  }

  /** The steps whose outcome is recorded. */
  ghost function SettledSteps(s: System): int {
    var m := |s.dispatches|;
    if m > 0 && m - 1 in s.run.effects && s.run.effects[m - 1].state == Dispatching then m - 1 else m
  }

  ghost predicate EventFits(c: Config, s: System, j: nat) {
    && j < |s.run.events| && j in s.run.effects
    && var event := s.run.events[j];
    && event.step == j && event.tool == StepName(c.request, j)
    && s.run.effects[j].result == Some(event.result)
    && Loads(event.args).Some? && Canonical.Same(Obj(StepArgs(c.request, j)), Loads(event.args).value)
  }

  /** One event for each recorded outcome, in step order, with the row's own result. */
  ghost predicate Events(c: Config, s: System) {
    |s.run.events| == SettledSteps(s) && forall j :: 0 <= j < |s.run.events| ==> EventFits(c, s, j)
  }

  ghost predicate Earlier(a: Call, b: Call) {
    a.step < b.step || (a.step == b.step && a.attempt < b.attempt)
  }

  /** A repeated attempt directly follows one that raised or timed out. */
  ghost predicate RetryFollows(trace: seq<Call>, t: nat) {
    t < |trace| &&
    (trace[t].attempt > 1 ==>
       t > 0 && trace[t - 1].step == trace[t].step && trace[t - 1].attempt == trace[t].attempt - 1 &&
       trace[t - 1].reply.Some? && Retryable(trace[t - 1].reply.value))
  }

  /** Invocations happen only for dispatched steps, in order of step and attempt, within
      the allowance; only the newest can be without a reply, and then its step is open. */
  ghost predicate Trace(c: Config, s: System) {
    && (forall t :: 0 <= t < |s.trace| ==> s.trace[t].step < |s.dispatches| && 1 <= s.trace[t].attempt <= Allowed(c.request, s.trace[t].step))
    && (forall t, u :: 0 <= t < u < |s.trace| ==> Earlier(s.trace[t], s.trace[u]))
    && (forall t :: 0 <= t < |s.trace| ==> RetryFollows(s.trace, t))
    && (forall t :: 0 <= t < |s.trace| && s.trace[t].reply.None? ==> t == |s.trace| - 1 && Open(s, s.trace[t].step))
  }

  /** The newest dispatched step, its outcome not yet recorded. */
  ghost predicate Open(s: System, i: nat) {
    i == |s.dispatches| - 1 && i in s.run.effects && s.run.effects[i].state == Dispatching
  }

  ghost predicate AllSucceeded(c: Config, s: System) {
    |s.dispatches| == Tools(c) && forall i :: 0 <= i < Tools(c) ==> i in s.run.effects && s.run.effects[i].state == Succeeded
  }

  /** The newest dispatched step failed. */
  ghost predicate Failed(s: System) {
    var m := |s.dispatches|;
    m > 0 && m - 1 in s.run.effects && s.run.effects[m - 1].state == FailedUnknown
  }

  /** The verdict agrees with the rows. */
  ghost predicate Verdict(c: Config, s: System) {
    s.run.exitCode.Some? ==>
      (s.run.exitCode.value == 0 && AllSucceeded(c, s)) || (s.run.exitCode.value == 1 && Failed(s))
  }

  ghost predicate Shared(c: Config, s: System) {
    && Committable(c)
    && s.run.bound == Bind(c.sha, c.request.plan, c.request.registry, c.request.authorization).value
    && Rows(c, s) && Events(c, s) && Trace(c, s) && Verdict(c, s)
  }

  // ------------------------------------------------------------- one executor

  /** Its snapshot is stale but right about successes. */
  ghost predicate Admitted(c: Config, s: System, ex: Executor) {
    && Agrees(c, ex.request)
    && forall j: nat :: j < Tools(c) ==>
         && j in ex.snapshot && j in s.run.effects
         && (ex.snapshot[j].state == IntentRecorded || ex.snapshot[j].state == Succeeded)
         && (ex.snapshot[j].state == Succeeded ==> ex.snapshot[j] == s.run.effects[j])
  }

  /** The first `i` steps have succeeded and the results it holds are the recorded ones. */
  ghost predicate Progress(s: System, ex: Executor, i: int) {
    && |ex.results| == i
    && forall j :: 0 <= j < i ==> Holds(s, ex, j)
  }

  ghost predicate Holds(s: System, ex: Executor, j: nat) {
    && j < |ex.results| && j in s.run.effects && WellFormed(ex.results[j])
    && s.run.effects[j] == Row(Succeeded, Some(Print(COMPACT, ex.results[j])))
  }

  /** It dispatched the newest step and is the one working on it. */
  ghost predicate Active(c: Config, s: System, e: nat, ex: Executor, i: nat, attempt: nat) {
    && Admitted(c, s, ex) && Progress(s, ex, i)
    && i < Tools(c) && Open(s, i) && s.dispatches[i].owner == e
    && 1 <= attempt <= Allowed(c.request, i)
  }

  /** The calls of the step so far are `k` attempts that may be retried. */
  ghost predicate Attempted(trace: seq<Call>, i: nat, k: nat) {
    if k == 0 then forall t :: 0 <= t < |trace| ==> trace[t].step < i && trace[t].reply.Some?
    else |trace| > 0 && (var last := trace[|trace| - 1];
      last.step == i && last.attempt == k && last.reply.Some? && Retryable(last.reply.value))
  }

  ghost predicate Local(c: Config, s: System, e: nat, ex: Executor) {
    match ex.pc
    case Checking => Presentable(c, ex.request)
    case Dead => true
    case Blocked(reason) => !reason.OutcomeDenied?
    case AtStep(i) => i <= Tools(c) && Admitted(c, s, ex) && Progress(s, ex, i)
    case Calling(i, a) => Active(c, s, e, ex, i, a) && Attempted(s.trace, i, a - 1)
    case Inside(i, a, at) => Active(c, s, e, ex, i, a) && at == |s.trace| - 1 && s.trace[at] == Call(i, a, None)
    case Back(i, a, reply) =>
      Active(c, s, e, ex, i, a) && WellFormedReply(reply) && |s.trace| > 0 && s.trace[|s.trace| - 1] == Call(i, a, Some(reply))
    case Finishing(code) => Ended(c, s, ex, code)
    case Done(code) => Ended(c, s, ex, code)
  }

  ghost predicate Ended(c: Config, s: System, ex: Executor, code: int) {
    (code == 0 && AllSucceeded(c, s) && Progress(s, ex, Tools(c))) ||
    (code == 1 && Failed(s) && Progress(s, ex, |s.dispatches| - 1))
  }

  ghost predicate Inv(c: Config, s: System) {
    Shared(c, s) && forall e :: e in s.executors ==> Local(c, s, e, s.executors[e])
  }

  // ---------------------------------------------------------------- beginnings

  lemma InitInv(c: Config)
    requires Committable(c)
    ensures Inv(c, Init(c))
  {
    hide Committable, Bind, RecordedText, EventFits, Earlier, RetryFollows, Allowed, Local;
    CommittedMeans(c);
    var s := Init(c);
    FreshRows(c);
    FreshVerdicts(c);
    assert SettledSteps(s) == 0;
  }

  lemma FreshVerdicts(c: Config)
    requires Committable(c)
    ensures Init(c).run.exitCode == None && Init(c).executors == map[] && Init(c).trace == [] && Init(c).dispatches == [] && Init(c).run.events == []
    ensures Init(c).run.bound == Bind(c.sha, c.request.plan, c.request.registry, c.request.authorization).value
  {
    hide Bind, PT.ValidPlan, PT.WellFormedPlan;
  }

  lemma FreshRows(c: Config)
    requires Committable(c)
    ensures forall i: nat :: i in Init(c).run.effects <==> i < Tools(c)
    ensures forall i :: i in Init(c).run.effects ==> Init(c).run.effects[i] == Row(IntentRecorded, None)
  {
    hide Bind, PT.WellFormedPlan, PT.ValidPlan, Tools;
    var s := Init(c);
    forall i: nat ensures i in s.run.effects <==> i < Tools(c) {
      ToolStepAt(c, i);
    }
  }

  lemma ToolStepAt(c: Config, i: nat)
    requires PT.ValidPlan(c.request.plan, c.request.registry)
    ensures i in ToolSteps(c.request.plan) <==> i < Tools(c)
  {
    hide ArgsConform;
    var steps := c.request.plan.steps;
    assert i < Tools(c) ==> PT.ValidCall(steps[i], c.request.registry);
    assert i >= Tools(c) && i < |steps| ==> i == |steps| - 1;
  }

  /** Passing the binding check means asking for the committed work. */
  lemma AdmissionAgrees(c: Config, r: Request)
    requires Committable(c) && Presentable(c, r)
    requires CheckBinding(c.sha, Bind(c.sha, c.request.plan, c.request.registry, c.request.authorization).value,
                          r.plan, r.registry, r.authorization).Accept?
    ensures Agrees(c, r)
  {
    hide *;
    var p, q := c.request.plan, r.plan;
    CommittedMeans(c);
    PresentedMeans(c, r);
    BT.CheckAcceptsExactly(c.sha, p, c.request.registry, c.request.authorization, q, r.registry, r.authorization);
    BT.SamePlanSteps(p, q);
    SameWorkAgrees(c, r);
  }

  lemma CommittedMeans(c: Config)
    requires Committable(c)
    ensures PT.ValidPlan(c.request.plan, c.request.registry) && PT.WellFormedPlan(c.request.plan)
    ensures Bind(c.sha, c.request.plan, c.request.registry, c.request.authorization).Accept?
  {
    hide PT.ValidPlan, PT.WellFormedPlan, Bind;
  }

  lemma PresentedMeans(c: Config, r: Request)
    requires Presentable(c, r)
    ensures PT.ValidPlan(r.plan, r.registry) && PT.WellFormedPlan(r.plan)
    ensures BT.NoCollision(c.sha, BT.PlanText(c.request.plan), BT.PlanText(r.plan))
    ensures BT.NoCollision(c.sha, ContractText(c.request.registry), ContractText(r.registry))
  {
    hide PT.ValidPlan, PT.WellFormedPlan, BT.NoCollision, BT.PlanText, ContractText;
  }

  lemma SameWorkAgrees(c: Config, r: Request)
    requires PT.ValidPlan(c.request.plan, c.request.registry) && PT.WellFormedPlan(r.plan)
    requires |c.request.plan.steps| == |r.plan.steps|
    requires forall i :: 0 <= i < |r.plan.steps| ==> BT.SameStep(c.request.plan.steps[i], r.plan.steps[i])
    requires SameContract(c.request.registry, r.registry)
    ensures Agrees(c, r)
  {
    hide StepAgrees, SameContract, PT.WellFormedPlan, ArgsConform, Canonical.Same, PT.ValidCall;
    var n := Tools(c);
    forall i | 0 <= i < n ensures StepAgrees(c, r, i) {
      assert PT.ValidCall(c.request.plan.steps[i], c.request.registry);
      assert BT.SameStep(c.request.plan.steps[i], r.plan.steps[i]);
      SameStepAgrees(c, r, i);
    }
    assert BT.SameStep(c.request.plan.steps[n], r.plan.steps[n]);
  }

  lemma SameStepAgrees(c: Config, r: Request, i: nat)
    requires i < |c.request.plan.steps| && i < |r.plan.steps|
    requires PT.ValidCall(c.request.plan.steps[i], c.request.registry)
    requires BT.SameStep(c.request.plan.steps[i], r.plan.steps[i])
    requires SameContract(c.request.registry, r.registry)
    requires PT.WellFormedPlan(r.plan)
    ensures StepAgrees(c, r, i)
  {
    hide ArgsConform, Canonical.Same, WellFormed, PT.WellFormedPlan;
    ArgsWellFormed(r.plan, i);
    assert SameTool(c.request.registry[StepName(r, i)], r.registry[StepName(r, i)]);
  }

  lemma ArgsWellFormed(plan: Plan, i: nat)
    requires PT.WellFormedPlan(plan) && i < |plan.steps| && plan.steps[i].ToolCall?
    ensures WellFormed(Obj(plan.steps[i].args))
  {
    var items := StepsToJson(plan.steps);
    var fs := PlanToJson(plan).fields;
    assert WellFormed(fs[1].value) && fs[1].value == Arr(items);
    assert WellFormed(items[i]) && items[i] == StepToJson(plan.steps[i]);
    assert WellFormed(items[i].fields[2].value);
  }
}
