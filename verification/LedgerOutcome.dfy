/** How a durable run ends: events and verdict agree with the rows, a finished run never
    changes again, and recovering it only reads back what it did. */
module LedgerOutcome {
  import opened Json
  import opened Plans
  import opened Binding
  import opened EffectLedger
  import opened ToolCalls
  import opened LedgerSystem
  import opened LedgerInvariant
  import opened LedgerPreservation
  import opened LedgerWork
  import opened LedgerSafety
  import Canonical
  import RoundTrip = JsonRoundTrip

  /** The event of a step: its number, the tool and the arguments the committed plan names,
      and the row's own result. */
  ghost predicate EventOfStep(c: Config, s: System, j: nat, event: Event) {
    && j in s.run.effects && j < |c.request.plan.steps| && c.request.plan.steps[j].ToolCall?
    && event.step == j && event.tool == c.request.plan.steps[j].name
    && s.run.effects[j].result == Some(event.result)
    && Loads(event.args).Some? && Canonical.Same(Obj(c.request.plan.steps[j].args), Loads(event.args).value)
  }

  /** One event for each row with an outcome and none for the others, in step order, with
      the row's own result, the committed tool, and the committed arguments. */
  lemma EventsMatchRows(c: Config, schedule: seq<Action>, s: System)
    requires Reached(c, schedule, s)
    ensures forall i: nat :: i < Tools(c) ==> i in s.run.effects && (Terminal(s.run.effects[i]) <==> i < |s.run.events|)
    ensures forall j :: 0 <= j < |s.run.events| ==> EventOfStep(c, s, j, s.run.events[j])
  {
    hide Reached, Local, Committable, Bind, Verdict, Trace, RecordedText, EventOfStep, EventFits, Tools;
    ReachedInv(c, schedule, s);
    ReachedCommittable(c, schedule, s);
    forall j | 0 <= j < |s.run.events| ensures EventOfStep(c, s, j, s.run.events[j]) {
      assert EventFits(c, s, j);
      EventSpelled(c, s, j);
    }
  }

  lemma EventSpelled(c: Config, s: System, j: nat)
    requires Committable(c) && EventFits(c, s, j) && j < Tools(c)
    ensures EventOfStep(c, s, j, s.run.events[j])
  {
    ToolStepIs(c, j);
    hide Committable, Canonical.Same, Loads;
  }

  // ------------------------------------------------------------ success is final

  lemma SuccessIdle(c: Config, s: System, f: nat)
    requires Inv(c, s) && AllSucceeded(c, s) && f in s.executors
    ensures !Working(s.executors[f].pc)
  {
    hide Shared, Local, Admitted, Progress;
    if Working(s.executors[f].pc) {
      WorkingActive(c, s, f, s.executors[f]);
    }
  }

  lemma NoSendAfterSuccess(c: Config, s: System, e: nat, s': System)
    requires Inv(c, s) && AllSucceeded(c, s) && Next(c, s, Send(e)) == Some(s')
    ensures SendRefused(s, e, s')
  {
    hide Presentable, Committable, Bind, Events, Trace, Verdict, Admitted, Progress, Rows;
    var ex := s.executors[e];
    var i := ex.pc.i;
    assert Local(c, s, e, ex);
    if DispatchEffect(s.run, i).Accept? {
      NextToDispatch(c, s, ex, i);
    }
  }

  lemma SuccessStays(c: Config, s: System, a: Action, s': System)
    requires Inv(c, s) && AllSucceeded(c, s) && Next(c, s, a) == Some(s')
    ensures SameHistory(s, s') && AllSucceeded(c, s')
  {
    hide Inv, AdvanceStep, Presentable, BoundEffects, AllSucceeded, SendStep, Working, SendRefused;
    if !a.Spawn? {
      SuccessIdle(c, s, a.e);
    }
    if a.Send? {
      NoSendAfterSuccess(c, s, a.e, s');
    }
    IdleStep(c, s, a, s');
    AllSucceededKept(c, s, s');
  }

  lemma {:induction false} SuccessForever(c: Config, s: System, schedule: seq<Action>)
    requires Inv(c, s) && AllSucceeded(c, s) && Possible(c, s, schedule)
    ensures SameHistory(s, After(c, s, schedule)) && AllSucceeded(c, After(c, s, schedule)) && Inv(c, After(c, s, schedule))
    decreases |schedule|
  {
    hide Inv, AllSucceeded, Next;
    if schedule != [] {
      SuccessStays(c, s, schedule[0], Next(c, s, schedule[0]).value);
      NextKeeps(c, s, schedule[0]);
      SuccessForever(c, Next(c, s, schedule[0]).value, schedule[1..]);
    }
  }

  /** The results, as JSON text, are those the rows hold, in step order. */
  ghost predicate ReturnsRecorded(c: Config, rows: map<nat, Row>, results: seq<Json>) {
    && |results| == Tools(c)
    && forall j :: 0 <= j < Tools(c) ==> j in rows && rows[j].result == Some(Print(COMPACT, results[j]))
  }

  /** Once every step has succeeded, no later schedule invokes a tool or changes a row or
      an event; and whoever halts, then or earlier, holds the recorded results in order. */
  lemma RecoveryOnlyReads(c: Config, schedule: seq<Action>, s: System, more: seq<Action>, e: nat)
    requires Reached(c, schedule, s) && AllSucceeded(c, s) && Possible(c, s, more)
    ensures var later := After(c, s, more);
            && later.trace == s.trace && later.dispatches == s.dispatches
            && later.run.effects == s.run.effects && later.run.events == s.run.events
            && (e in later.executors && later.executors[e].pc == Done(0) ==> ReturnsRecorded(c, s.run.effects, later.executors[e].results))
  {
    hide Reached, AllSucceeded, Inv, ReturnsRecorded;
    ReachedInv(c, schedule, s);
    SuccessForever(c, s, more);
    var later := After(c, s, more);
    if e in later.executors && later.executors[e].pc == Done(0) {
      DoneReturns(c, later, e);
    }
  }

  lemma DoneReturns(c: Config, s: System, e: nat)
    requires Inv(c, s) && e in s.executors && s.executors[e].pc == Done(0)
    ensures ReturnsRecorded(c, s.run.effects, s.executors[e].results)
    ensures forall r :: r in s.executors[e].results ==> WellFormed(r)
  {
    hide Inv, Local, Print, WellFormed, ReturnsRecorded;
    LocalOf(c, s, e);
    HaltedHolds(c, s, e, s.executors[e]);
  }

  lemma HaltedHolds(c: Config, s: System, e: nat, ex: Executor)
    requires Local(c, s, e, ex) && ex.pc == Done(0)
    ensures ReturnsRecorded(c, s.run.effects, ex.results)
    ensures forall r :: r in ex.results ==> WellFormed(r)
  {
    hide AllSucceeded, Failed, Print, WellFormed;
    forall j: nat | j < Tools(c)
      ensures j in s.run.effects && s.run.effects[j].result == Some(Print(COMPACT, ex.results[j])) && WellFormed(ex.results[j])
    {
      assert Holds(s, ex, j);
    }
  }

  lemma LocalOf(c: Config, s: System, e: nat)
    requires Inv(c, s) && e in s.executors
    ensures Local(c, s, e, s.executors[e])
  {
    hide Shared, Local;
  }

  /** Every executor that halts returns the same results in the same order, whether it
      invoked the tools itself or read some or all of their results back. */
  lemma HaltedAgree(c: Config, schedule: seq<Action>, s: System, e: nat, f: nat)
    requires Reached(c, schedule, s)
    requires e in s.executors && s.executors[e].pc == Done(0) && f in s.executors && s.executors[f].pc == Done(0)
    ensures s.executors[e].results == s.executors[f].results
  {
    hide Reached, Inv, Print, Loads, WellFormed, AllSucceeded;
    ReachedInv(c, schedule, s);
    DoneReturns(c, s, e);
    DoneReturns(c, s, f);
    var a, b := s.executors[e].results, s.executors[f].results;
    forall j: nat | j < Tools(c) ensures a[j] == b[j] {
      RoundTrip.LoadsInvertsPrint(COMPACT, a[j]);
      RoundTrip.LoadsInvertsPrint(COMPACT, b[j]);
    }
  }

  // ---------------------------------------------------------------- the verdict

  lemma VerdictStays(c: Config, s: System, a: Action)
    requires Inv(c, s) && s.run.exitCode.Some? && Next(c, s, a).Some?
    ensures Next(c, s, a).value.run.exitCode == s.run.exitCode
  {
    hide Shared, BoundEffects, AdvanceStep, Presentable, AllSucceeded, Failed, Progress, Admitted;
    if a.Finish? {
      assert Local(c, s, a.e, s.executors[a.e]);
      OneVerdict(c, s);
    } else {
      hide Local;
      OnlyFinishDecides(c, s, a);
    }
  }

  lemma OnlyFinishDecides(c: Config, s: System, a: Action)
    requires Next(c, s, a).Some? && !a.Finish?
    ensures Next(c, s, a).value.run.exitCode == s.run.exitCode
  {
    hide BoundEffects, Presentable, Settle, ResultText, Print, StepName, StepArgs, Allowed, Retryable;
  }

  lemma OneVerdict(c: Config, s: System)
    requires Inv(c, s)
    ensures !(AllSucceeded(c, s) && Failed(s))
    ensures s.run.exitCode.Some? ==>
              (s.run.exitCode == Some(0) && AllSucceeded(c, s)) || (s.run.exitCode == Some(1) && Failed(s))
  {
    hide Committable, Bind, Rows, Events, Trace, Local;
  }

  lemma {:induction false} VerdictForever(c: Config, s: System, schedule: seq<Action>)
    requires Inv(c, s) && s.run.exitCode.Some? && Possible(c, s, schedule)
    ensures After(c, s, schedule).run.exitCode == s.run.exitCode
    decreases |schedule|
  {
    hide Inv, Next;
    if schedule != [] {
      VerdictStays(c, s, schedule[0]);
      NextKeeps(c, s, schedule[0]);
      VerdictForever(c, Next(c, s, schedule[0]).value, schedule[1..]);
    }
  }

  /** Exit code 0 means every row succeeded; exit code 1 means exactly one row failed and
      none is in doubt otherwise; and no schedule ever changes an exit code once set. */
  lemma VerdictAgrees(c: Config, schedule: seq<Action>, s: System, more: seq<Action>)
    requires Reached(c, schedule, s) && s.run.exitCode.Some? && Possible(c, s, more)
    ensures After(c, s, more).run.exitCode == s.run.exitCode
    ensures s.run.exitCode == Some(0) || s.run.exitCode == Some(1)
    ensures s.run.exitCode == Some(0) ==> forall i: nat :: i < Tools(c) ==> i in s.run.effects && s.run.effects[i].state == Succeeded
    ensures s.run.exitCode == Some(1) ==>
              exists i: nat :: i < Tools(c) && i in s.run.effects && s.run.effects[i].state == FailedUnknown &&
                forall j: nat :: j < Tools(c) && j != i ==>
                  j in s.run.effects && s.run.effects[j].state == (if j < i then Succeeded else IntentRecorded)
  {
    hide Reached, Inv, Next;
    ReachedInv(c, schedule, s);
    VerdictForever(c, s, more);
    OneVerdict(c, s);
    if s.run.exitCode == Some(1) {
      FailedShape(c, s);
    }
  }

  lemma FailedShape(c: Config, s: System)
    requires Inv(c, s) && Failed(s)
    ensures var i := |s.dispatches| - 1;
            && 0 <= i < Tools(c) && i in s.run.effects && s.run.effects[i].state == FailedUnknown
            && forall j: nat :: j < Tools(c) && j != i ==>
                 j in s.run.effects && s.run.effects[j].state == (if j < i then Succeeded else IntentRecorded)
  {
    hide Committable, Bind, Events, Trace, Local, RecordedText;
  }

  // ------------------------------------------------------------------ no errors

  /** The executor has ended, or some action of its own is possible whatever its tool
      replies. */
  ghost predicate Unstranded(c: Config, s: System, e: nat, pc: Pc) {
    && (pc.Checking? ==> Next(c, s, Check(e)).Some?)
    && (pc.AtStep? ==> Next(c, s, Advance(e)).Some? || Next(c, s, Send(e)).Some?)
    && (pc.Calling? ==> Next(c, s, Enter(e)).Some?)
    && (pc.Inside? ==> forall reply :: WellFormedReply(reply) ==> Next(c, s, Return(e, reply)).Some?)
    && (pc.Back? ==> Next(c, s, Commit(e)).Some?)
    && (pc.Finishing? ==> Next(c, s, Finish(e)).Some?)
  }

  /** An executor that is still going can always take a step: no row is missing, no
      recorded result fails to load, the plan never runs out before its halt. */
  lemma NeverStranded(c: Config, schedule: seq<Action>, s: System, e: nat)
    requires Reached(c, schedule, s) && e in s.executors
    ensures Unstranded(c, s, e, s.executors[e].pc)
  {
    hide Reached, Inv, AdvanceStep, SendStep, CommitStep, CheckStep, WellFormedReply, Local, Admitted;
    ReachedInv(c, schedule, s);
    LocalOf(c, s, e);
    OtherwiseMeans(c, s, e, s.executors[e]);
    if s.executors[e].pc.AtStep? {
      CanAdvance(c, s, e);
    }
  }

  ghost predicate Proceeds(s: System, e: nat) {
    e in s.executors && !s.executors[e].pc.Blocked?
  }

  /** The outcome of an invocation is never refused. */
  lemma OutcomeNeverRefused(c: Config, schedule: seq<Action>, s: System, e: nat)
    requires Reached(c, schedule, s) && e in s.executors
    ensures s.executors[e].pc.Blocked? ==> !s.executors[e].pc.reason.OutcomeDenied?
    ensures s.executors[e].pc.Back? ==> Proceeds(CommitStep(s, e, s.executors[e]), e)
  {
    hide Reached, Inv, CommitStep, Local, Admitted;
    ReachedInv(c, schedule, s);
    LocalOf(c, s, e);
    OtherwiseMeans(c, s, e, s.executors[e]);
    if s.executors[e].pc.Back? {
      CanCommit(c, s, e);
    }
  }

  lemma OtherwiseMeans(c: Config, s: System, e: nat, ex: Executor)
    requires Local(c, s, e, ex)
    ensures ex.pc.Blocked? ==> !ex.pc.reason.OutcomeDenied?
    ensures ex.pc.Inside? ==> ex.pc.at < |s.trace|
    ensures ex.pc.Back? ==> Open(s, ex.pc.i)
    ensures ex.pc.AtStep? ==> ex.pc.i <= Tools(c) && Admitted(c, s, ex)
  {
    hide Open, Presentable, Admitted, Progress;
  }

  lemma CanAdvance(c: Config, s: System, e: nat)
    requires Inv(c, s) && e in s.executors && s.executors[e].pc.AtStep?
    ensures AdvanceStep(s, e, s.executors[e]).Some? || SendStep(s, e, s.executors[e]).Some?
  {
    hide Committable, Bind, Events, Trace, Verdict, Progress, StepAgrees, Print, WellFormed, Loads, Local;
    var ex := s.executors[e];
    LocalOf(c, s, e);
    OtherwiseMeans(c, s, e, ex);
    var i := ex.pc.i;
    if i < Tools(c) {
      ToolAt(c, ex.request, i);
      if ex.snapshot[i].state == Succeeded {
        assert Terminal(s.run.effects[i]) && RecordedText(s.run.effects[i].result.value);
      }
    }
  }

  lemma ToolAt(c: Config, r: Request, i: nat)
    requires Agrees(c, r) && i < Tools(c)
    ensures r.plan.steps[i].ToolCall?
  {
    hide StepName, StepArgs, Allowed, Canonical.Same, WellFormed;
    assert StepAgrees(c, r, i);
  }

  lemma CanCommit(c: Config, s: System, e: nat)
    requires Inv(c, s) && e in s.executors && s.executors[e].pc.Back?
    ensures Proceeds(CommitStep(s, e, s.executors[e]), e)
  {
    hide Inv, Settle, ResultText, Print, StepName, StepArgs, Allowed, Retryable;
    hide Local;
    LocalOf(c, s, e);
    OtherwiseMeans(c, s, e, s.executors[e]);
  }
}
