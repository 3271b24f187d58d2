/** What holds of a durable run over its whole life, whatever its executors do and
    wherever they crash. */
module LedgerSafety {
  import opened Json
  import opened Plans
  import opened Binding
  import opened EffectLedger
  import opened ToolCalls
  import opened LedgerSystem
  import opened LedgerInvariant
  import opened LedgerPreservation
  import opened LedgerWork
  import Canonical
  import PT = PlanTheorems
  import RoundTrip = JsonRoundTrip

  /** A state that some schedule leads to. */
  ghost predicate Reached(c: Config, schedule: seq<Action>, s: System) {
    Committable(c) && Possible(c, Init(c), schedule) && s == After(c, Init(c), schedule)
  }

  lemma ReachedInv(c: Config, schedule: seq<Action>, s: System)
    requires Reached(c, schedule, s)
    ensures Inv(c, s)
  {
    AlwaysInv(c, schedule);
    hide *;
  }

  // ------------------------------------------------------------ the ledger rows

  ghost predicate RowIs(s: System, i: nat, state: EffectState) {
    i in s.run.effects && s.run.effects[i].state == state
  }

  ghost predicate Invoked(s: System, i: nat) {
    exists t :: 0 <= t < |s.trace| && s.trace[t].step == i
  }

  /** The rows of the tool steps read succeeded, then at most one dispatching or failed,
      then intents. */
  ghost predicate StaircaseRows(c: Config, s: System) {
    && (forall i: nat :: i in s.run.effects <==> i < Tools(c))
    && (forall i: nat, j: nat :: i < j < Tools(c) && !RowIs(s, j, IntentRecorded) ==> RowIs(s, i, Succeeded))
  }

  ghost predicate DispatchedOnce(s: System) {
    forall j, k :: 0 <= j < |s.dispatches| && 0 <= k < |s.dispatches| && s.dispatches[j].step == s.dispatches[k].step ==> j == k
  }

  /** Write-ahead: the tool of a step that is only an intent has not been entered. */
  ghost predicate IntentUntouched(s: System) {
    forall i: nat :: RowIs(s, i, IntentRecorded) ==> !Invoked(s, i) && s.run.effects[i].result == None
  }

  lemma Staircase(c: Config, schedule: seq<Action>, s: System)
    requires Reached(c, schedule, s)
    ensures StaircaseRows(c, s) && DispatchedOnce(s) && IntentUntouched(s)
  {
    hide Reached, Local, Committable, Bind, Events, Verdict, RecordedText, Earlier, RetryFollows, Allowed, Open;
    ReachedInv(c, schedule, s);
  }

  /** The executor dispatched the step it is about to invoke, whose row says so, and
      every earlier step has durably succeeded. */
  ghost predicate MayInvoke(s: System, e: nat, pc: Pc) {
    && pc.Calling?
    && pc.i < |s.dispatches| && s.dispatches[pc.i] == Dispatch(e, pc.i)
    && RowIs(s, pc.i, Dispatching) && forall j: nat :: j < pc.i ==> RowIs(s, j, Succeeded)
  }

  /** Only the executor that dispatched a step ever invokes its tool, and only once every
      earlier step has durably succeeded. */
  lemma OnlyTheDispatcherInvokes(c: Config, schedule: seq<Action>, s: System, e: nat)
    requires Reached(c, schedule, s) && Next(c, s, Enter(e)).Some?
    ensures e in s.executors && MayInvoke(s, e, s.executors[e].pc)
  {
    hide Reached, Committable, Bind, Events, Verdict, RecordedText, Trace, Admitted, Progress, Attempted, Presentable;
    ReachedInv(c, schedule, s);
    WorkingActive(c, s, e, s.executors[e]);
  }

  // ------------------------------------------------------- counting invocations

  function CallsOf(trace: seq<Call>, i: nat): nat {
    if trace == [] then 0
    else CallsOf(trace[..|trace| - 1], i) + (if trace[|trace| - 1].step == i then 1 else 0)
  }

  /** The part of the trace invariant that bounds its length. */
  ghost predicate Ordered(c: Config, trace: seq<Call>) {
    && (forall t :: 0 <= t < |trace| ==> 1 <= trace[t].attempt <= Allowed(c.request, trace[t].step))
    && (forall t, u :: 0 <= t < u < |trace| ==> Earlier(trace[t], trace[u]))
  }

  lemma OrderedPrefix(c: Config, trace: seq<Call>)
    requires Ordered(c, trace) && trace != []
    ensures Ordered(c, trace[..|trace| - 1])
  {
    hide Allowed, Earlier;
  }

  lemma AllowedAtMost(c: Config, i: nat)
    ensures Allowed(c.request, i) <= MAX_RETRIES
  {
  }

  lemma {:induction false} CallsBounded(c: Config, trace: seq<Call>, i: nat)
    requires Ordered(c, trace)
    ensures trace != [] ==>
              var last := trace[|trace| - 1];
              CallsOf(trace, i) <= if last.step < i then 0 else if last.step == i then last.attempt else Allowed(c.request, i)
    ensures CallsOf(trace, i) <= Allowed(c.request, i)
  {
    hide Allowed;
    if trace != [] {
      var rest := trace[..|trace| - 1];
      OrderedPrefix(c, trace);
      CallsBounded(c, rest, i);
      if rest != [] {
        assert Earlier(trace[|rest| - 1], trace[|rest|]);
      }
    }
  }

  lemma {:induction false} LengthBounded(c: Config, trace: seq<Call>)
    requires Ordered(c, trace)
    ensures trace != [] ==> |trace| <= 3 * trace[|trace| - 1].step + trace[|trace| - 1].attempt
  {
    hide Allowed;
    if |trace| > 1 {
      var rest := trace[..|trace| - 1];
      OrderedPrefix(c, trace);
      LengthBounded(c, rest);
      assert Earlier(trace[|rest| - 1], trace[|rest|]);
      AllowedAtMost(c, rest[|rest| - 1].step);
    }
  }

  /** Over the whole life of a run a tool step is invoked at most once, or three times if
      its tool is retry-safe; with at most 31 tool steps, at most 93 times in all. */
  lemma InvocationsBounded(c: Config, schedule: seq<Action>, s: System, i: nat)
    requires Reached(c, schedule, s) && i < Tools(c)
    ensures i < |c.request.plan.steps| && c.request.plan.steps[i].ToolCall? && c.request.plan.steps[i].name in c.request.registry
    ensures CallsOf(s.trace, i) <= if c.request.registry[c.request.plan.steps[i].name].retrySafe then 3 else 1
    ensures |s.trace| <= 31 * 3
  {
    hide *;
    ReachedInv(c, schedule, s);
    ReachedCommittable(c, schedule, s);
    ToolStepIs(c, i);
    TraceOrdered(c, s);
    CallsBounded(c, s.trace, i);
    AllowedIs(c, i);
    if s.trace != [] {
      LengthBounded(c, s.trace);
      LastCall(c, s);
    }
  }

  lemma AllowedIs(c: Config, i: nat)
    requires i < |c.request.plan.steps| && c.request.plan.steps[i].ToolCall?
    requires c.request.plan.steps[i].name in c.request.registry
    ensures Allowed(c.request, i) == if c.request.registry[c.request.plan.steps[i].name].retrySafe then 3 else 1
  {
  }

  lemma ReachedCommittable(c: Config, schedule: seq<Action>, s: System)
    requires Reached(c, schedule, s)
    ensures Committable(c)
  {
    hide Committable;
  }

  lemma ToolStepIs(c: Config, i: nat)
    requires Committable(c) && i < Tools(c)
    ensures i < |c.request.plan.steps| && c.request.plan.steps[i].ToolCall? && c.request.plan.steps[i].name in c.request.registry
    ensures Tools(c) <= 31
  {
    hide ArgsConform, Bind, PT.WellFormedPlan;
    assert PT.ValidCall(c.request.plan.steps[i], c.request.registry);
  }

  lemma TraceOrdered(c: Config, s: System)
    requires Inv(c, s)
    ensures Ordered(c, s.trace)
  {
    hide Local, Committable, Bind, Rows, Events, Verdict, Allowed, Earlier, RetryFollows, Open;
  }

  lemma LastCall(c: Config, s: System)
    requires Inv(c, s) && s.trace != []
    ensures s.trace[|s.trace| - 1].step < Tools(c) && s.trace[|s.trace| - 1].attempt <= 3
  {
    hide Local, Committable, Bind, Events, Verdict, RecordedText, Earlier, RetryFollows, Open;
  }

  /** A repeated invocation of a step directly follows one of the same step that raised
      or timed out: bad output is never retried. */
  lemma RetriesOnlyAfterExceptions(c: Config, schedule: seq<Action>, s: System, t: nat)
    requires Reached(c, schedule, s) && t < |s.trace| && s.trace[t].attempt > 1
    ensures t > 0 && s.trace[t - 1].step == s.trace[t].step && s.trace[t - 1].attempt == s.trace[t].attempt - 1
    ensures s.trace[t - 1].reply.Some? && (s.trace[t - 1].reply.value.Raised? || s.trace[t - 1].reply.value.TimedOut?)
  {
    hide Reached, Local, Committable, Bind, Rows, Events, Verdict, Allowed, Earlier, Open;
    ReachedInv(c, schedule, s);
    assert RetryFollows(s.trace, t);
  }

  // ------------------------------------------------------------- stuck for good

  /** The newest step failed, or it is dispatching and its executor is no longer at work. */
  ghost predicate Stuck(s: System) {
    var m := |s.dispatches|;
    Failed(s) || (m > 0 && Open(s, m - 1) && s.dispatches[m - 1].owner in s.executors && !Working(s.executors[s.dispatches[m - 1].owner].pc))
  }

  lemma StuckIdle(c: Config, s: System, f: nat)
    requires Inv(c, s) && Stuck(s) && f in s.executors
    ensures !Working(s.executors[f].pc)
  {
    hide Shared, Local, Admitted, Progress;
    if Working(s.executors[f].pc) {
      WorkingActive(c, s, f, s.executors[f]);
    }
  }

  /** The compare-and-set finds no intent: the executor is blocked and nothing changes. */
  ghost predicate SendRefused(s: System, e: nat, s': System) {
    && e in s.executors && s.executors[e].pc.AtStep?
    && s' == At(s, e, s.executors[e].(pc := Blocked(DispatchDenied(s.executors[e].pc.i))))
  }

  lemma NoSendWhenStuck(c: Config, s: System, e: nat, s': System)
    requires Inv(c, s) && Stuck(s) && Next(c, s, Send(e)) == Some(s')
    ensures SendRefused(s, e, s')
  {
    hide Presentable, Committable, Bind, Events, Trace, Verdict, Admitted, Progress, Rows;
    var ex := s.executors[e];
    var i := ex.pc.i;
    assert Local(c, s, e, ex);
    if DispatchEffect(s.run, i).Accept? {
      NextToDispatch(c, s, ex, i);
    }
  }

  lemma StuckStays(c: Config, s: System, a: Action, s': System)
    requires Inv(c, s) && Stuck(s) && Next(c, s, a) == Some(s')
    ensures SameHistory(s, s') && Stuck(s')
  {
    hide Inv, Stuck, AdvanceStep, Presentable, BoundEffects, Failed, Open, SendStep, Working, SameHistory, SendRefused;
    if !a.Spawn? {
      StuckIdle(c, s, a.e);
    }
    if a.Send? {
      NoSendWhenStuck(c, s, a.e, s');
    }
    IdleStep(c, s, a, s');
    StuckMoves(c, s, s');
  }

  /** A step of an executor that is not at work, and does not get to dispatch, changes
      only what executors remember and the exit code. */
  lemma IdleStep(c: Config, s: System, a: Action, s': System)
    requires Next(c, s, a) == Some(s')
    requires !a.Spawn? && a.e in s.executors ==> !Working(s.executors[a.e].pc)
    requires a.Send? ==> SendRefused(s, a.e, s')
    ensures SameHistory(s, s')
    ensures forall f :: f in s.executors ==> f in s'.executors
    ensures forall f :: f in s.executors && !Working(s.executors[f].pc) ==> !Working(s'.executors[f].pc)
  {
    hide Presentable, BoundEffects, SendStep;
  }

  lemma StuckMoves(c: Config, s: System, s': System)
    requires Stuck(s) && SameHistory(s, s')
    requires forall f :: f in s.executors ==> f in s'.executors
    requires forall f :: f in s.executors && !Working(s.executors[f].pc) ==> !Working(s'.executors[f].pc)
    ensures Stuck(s')
  {
    hide Working;
  }

  lemma {:induction false} StuckForever(c: Config, s: System, schedule: seq<Action>)
    requires Inv(c, s) && Stuck(s) && Possible(c, s, schedule)
    ensures SameHistory(s, After(c, s, schedule)) && Stuck(After(c, s, schedule)) && Inv(c, After(c, s, schedule))
    decreases |schedule|
  {
    hide Inv, Stuck, Next;
    if schedule != [] {
      StuckStays(c, s, schedule[0], Next(c, s, schedule[0]).value);
      NextKeeps(c, s, schedule[0]);
      StuckForever(c, Next(c, s, schedule[0]).value, schedule[1..]);
    }
  }

  lemma StuckCheck(c: Config, s: System, e: nat, s': System)
    requires Stuck(s) && Next(c, s, Check(e)) == Some(s')
    ensures s'.run == s.run && e in s'.executors && s'.executors[e].pc.Blocked?
  {
    hide *;
    var i := UncertainRow(s);
    CheckIs(c, s, e);
    UncertainRefused(c, s, e, s.executors[e], i);
  }

  lemma UncertainRow(s: System) returns (i: nat)
    requires Stuck(s)
    ensures i in s.run.effects && Uncertain(s.run.effects[i])
  {
    i := |s.dispatches| - 1;
    hide Working;
  }

  lemma CheckIs(c: Config, s: System, e: nat)
    requires Next(c, s, Check(e)).Some?
    ensures e in s.executors && Next(c, s, Check(e)).value == CheckStep(c, s, e, s.executors[e])
  {
    hide CheckStep;
  }

  /** `bound_effects` hands over the rows as they are, and one uncertain row is enough. */
  lemma UncertainRefused(c: Config, s: System, e: nat, ex: Executor, i: nat)
    requires i in s.run.effects && Uncertain(s.run.effects[i])
    ensures var s' := CheckStep(c, s, e, ex); s'.run == s.run && e in s'.executors && s'.executors[e].pc.Blocked?
  {
    hide CheckBinding, Uncertain, FirstUncertain;
    var rows := BoundEffects(c.sha, s.run, ex.request.plan, ex.request.registry, ex.request.authorization);
    assert rows.Accept? ==> i < |ex.request.plan.steps|;
  }

  /** Once a step has failed, or is dispatching with its executor gone, no tool is ever
      invoked again and no row or event ever changes, under any later schedule; and every
      recovery is then refused at the check, leaving the durable state as it was. */
  lemma UncertainBlocksForever(c: Config, schedule: seq<Action>, s: System, more: seq<Action>, e: nat)
    requires Reached(c, schedule, s) && Stuck(s) && Possible(c, s, more)
    ensures var later := After(c, s, more);
            && later.trace == s.trace && later.dispatches == s.dispatches
            && later.run.effects == s.run.effects && later.run.events == s.run.events
            && (Next(c, later, Check(e)).Some? ==>
                  var after := Next(c, later, Check(e)).value;
                  after.run == later.run && e in after.executors && after.executors[e].pc.Blocked?)
  {
    hide Reached, Stuck, Inv, Next;
    ReachedInv(c, schedule, s);
    StuckForever(c, s, more);
    if Next(c, After(c, s, more), Check(e)).Some? {
      StuckCheck(c, After(c, s, more), e, Next(c, After(c, s, more), Check(e)).value);
    }
  }
}
