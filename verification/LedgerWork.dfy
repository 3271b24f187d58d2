/** The steps that change the ledger keep the invariant; with the private ones, every
    reachable state satisfies it. */
module LedgerWork {
  import opened Json
  import opened Plans
  import opened Binding
  import opened EffectLedger
  import opened ToolCalls
  import opened LedgerSystem
  import opened LedgerInvariant
  import opened LedgerPreservation
  import Canonical
  import RoundTrip = JsonRoundTrip

  ghost predicate Working(pc: Pc) {
    pc.Calling? || pc.Inside? || pc.Back?
  }

  lemma WorkingActive(c: Config, s: System, e: nat, ex: Executor)
    requires Local(c, s, e, ex) && Working(ex.pc)
    ensures Active(c, s, e, ex, ex.pc.i, ex.pc.attempt)
  {
    hide Active, Attempted, Presentable;
  }

  /** No more than one executor works on the run. */
  lemma SoleWorker(c: Config, s: System, e: nat, f: nat)
    requires Inv(c, s) && e in s.executors && f in s.executors
    requires Working(s.executors[e].pc) && Working(s.executors[f].pc)
    ensures e == f
  {
    hide Shared, Local, Admitted, Progress;
    WorkingActive(c, s, e, s.executors[e]);
    WorkingActive(c, s, f, s.executors[f]);
  }

  /** Whoever is not working is unaffected by work elsewhere. */
  lemma PassiveKept(c: Config, s: System, s': System, e: nat, ex: Executor)
    requires Local(c, s, e, ex) && !Working(ex.pc)
    requires KeepsSuccesses(s, s') && !AllSucceeded(c, s) && !Failed(s)
    ensures Local(c, s', e, ex)
  {
    hide Presentable, Agrees, Admitted, Progress, AllSucceeded, Failed, KeepsSuccesses;
    ProgressKept(s, s', ex);
    AdmittedKept(c, s, s', ex);
  }

  /** A step of the one executor at work. */
  lemma WorkStep(c: Config, s: System, s': System, e: nat, ex: Executor)
    requires Inv(c, s) && e in s.executors && s'.executors == s.executors[e := ex]
    requires Shared(c, s') && Local(c, s', e, ex)
    requires KeepsSuccesses(s, s') && !AllSucceeded(c, s) && !Failed(s)
    requires forall f :: f in s.executors && f != e ==> !Working(s.executors[f].pc)
    ensures Inv(c, s')
  {
    hide Shared, Local, AllSucceeded, Failed, KeepsSuccesses;
    forall f | f in s'.executors ensures Local(c, s', f, s'.executors[f]) {
      if f != e {
        PassiveKept(c, s, s', f, s.executors[f]);
      }
    }
  }

  // ----------------------------------------------------------------- dispatch

  lemma NextToDispatch(c: Config, s: System, ex: Executor, i: nat)
    requires Rows(c, s) && Admitted(c, s, ex) && Progress(s, ex, i) && i <= Tools(c)
    requires i < |ex.request.plan.steps| && ex.request.plan.steps[i].ToolCall?
    requires i in s.run.effects && s.run.effects[i].state == IntentRecorded
    ensures i < Tools(c) && i == |s.dispatches|
    ensures i > 0 ==> i - 1 in s.run.effects && s.run.effects[i - 1].state == Succeeded
  {
    hide RecordedText, Print, WellFormed, StepAgrees;
    assert i > 0 ==> Holds(s, ex, i - 1);
  }

  lemma NothingOpen(c: Config, s: System, i: nat)
    requires Rows(c, s) && Verdict(c, s) && i < Tools(c) && i == |s.dispatches|
    requires i > 0 ==> i - 1 in s.run.effects && s.run.effects[i - 1].state == Succeeded
    ensures !AllSucceeded(c, s) && !Failed(s) && s.run.exitCode.None?
    ensures forall j: nat :: !Open(s, j)
    ensures SettledSteps(s) == i
  {
    hide RecordedText;
  }

  lemma SendRows(c: Config, s: System, s': System, e: nat, i: nat)
    requires Rows(c, s) && i < Tools(c) && i == |s.dispatches|
    requires i > 0 ==> i - 1 in s.run.effects && s.run.effects[i - 1].state == Succeeded
    requires s'.run.effects == s.run.effects[i := s.run.effects[i].(state := Dispatching)]
    requires s'.dispatches == s.dispatches + [Dispatch(e, i)]
    requires s.executors.Keys <= s'.executors.Keys && e in s'.executors
    ensures Rows(c, s')
  {
    hide RecordedText;
  }

  lemma SendEvents(c: Config, s: System, s': System, e: nat, i: nat)
    requires Events(c, s) && i == |s.dispatches| && SettledSteps(s) == i && i in s.run.effects
    requires s'.run.effects == s.run.effects[i := s.run.effects[i].(state := Dispatching)]
    requires s'.dispatches == s.dispatches + [Dispatch(e, i)] && s'.run.events == s.run.events
    ensures Events(c, s')
  {
    hide EventFits;
    assert SettledSteps(s') == i;
    forall j | 0 <= j < i ensures EventFits(c, s', j) {
      EventKept(c, s, s', j);
    }
  }

  lemma SendTrace(c: Config, s: System, s': System, e: nat, i: nat)
    requires Trace(c, s) && i == |s.dispatches| && (forall j: nat :: !Open(s, j))
    requires s'.trace == s.trace && s'.dispatches == s.dispatches + [Dispatch(e, i)]
    ensures Trace(c, s') && Attempted(s'.trace, i, 0)
  {
    hide Earlier, RetryFollows, Open, Allowed;
  }

  lemma AllowedPositive(r: Request, i: nat)
    ensures Allowed(r, i) >= 1
  {
  }

  lemma SendLocal(c: Config, s: System, s': System, e: nat, ex: Executor, i: nat)
    requires Admitted(c, s, ex) && Progress(s, ex, i) && i < Tools(c) && i == |s.dispatches| && i in s.run.effects
    requires s.run.effects[i].state == IntentRecorded
    requires s'.run.effects == s.run.effects[i := s.run.effects[i].(state := Dispatching)]
    requires s'.dispatches == s.dispatches + [Dispatch(e, i)] && Attempted(s'.trace, i, 0)
    ensures KeepsSuccesses(s, s') && Local(c, s', e, ex.(pc := Calling(i, 1)))
  {
    var ex' := ex.(pc := Calling(i, 1));
    hide Admitted, Progress, Attempted;
    AllowedPositive(c.request, i);
    ProgressMoves(s, ex, ex');
    ProgressKept(s, s', ex');
    AdmittedMoves(c, s, ex, ex');
    AdmittedKept(c, s, s', ex');
    hide KeepsSuccesses, Allowed;
  }

  lemma AdmittedMoves(c: Config, s: System, ex: Executor, ex': Executor)
    requires Admitted(c, s, ex) && ex'.request == ex.request && ex'.snapshot == ex.snapshot
    ensures Admitted(c, s, ex')
  {
    hide Agrees;
  }

  lemma SendKeeps(c: Config, s: System, e: nat)
    requires Inv(c, s) && Next(c, s, Send(e)).Some?
    ensures Inv(c, Next(c, s, Send(e)).value)
  {
    hide Presentable, Committable, Bind, Rows, Events, Trace, Verdict, Admitted, Progress, KeepsSuccesses, AllSucceeded, Failed;
    var ex, s' := s.executors[e], Next(c, s, Send(e)).value;
    var i := ex.pc.i;
    assert Local(c, s, e, ex);
    if DispatchEffect(s.run, i).Refuse? {
      PrivateStep(c, s, s', e, ex.(pc := Blocked(DispatchDenied(i))));
    } else {
      NextToDispatch(c, s, ex, i);
      Dispatched(c, s, s', e, ex, i);
    }
  }

  lemma Dispatched(c: Config, s: System, s': System, e: nat, ex: Executor, i: nat)
    requires Inv(c, s) && e in s.executors && s.executors[e] == ex
    requires Admitted(c, s, ex) && Progress(s, ex, i) && i < Tools(c) && i == |s.dispatches|
    requires i > 0 ==> i - 1 in s.run.effects && s.run.effects[i - 1].state == Succeeded
    requires i in s.run.effects && s.run.effects[i].state == IntentRecorded
    requires s' == At(s, e, ex.(pc := Calling(i, 1))).(
                     run := s.run.(effects := s.run.effects[i := s.run.effects[i].(state := Dispatching)]),
                     dispatches := s.dispatches + [Dispatch(e, i)])
    ensures Inv(c, s')
  {
    hide Local, Committable, Bind, Rows, Events, Trace, Verdict, Admitted, Progress, KeepsSuccesses, AllSucceeded, Failed, Open, Attempted;
    NothingOpen(c, s, i);
    SendRows(c, s, s', e, i);
    SendEvents(c, s, s', e, i);
    SendTrace(c, s, s', e, i);
    FreshVerdict(c, s');
    SendLocal(c, s, s', e, ex, i);
    forall f | f in s.executors && f != e ensures !Working(s.executors[f].pc) {
      NotWorking(c, s, f);
    }
    WorkStep(c, s, s', e, ex.(pc := Calling(i, 1)));
  }

  lemma NotWorking(c: Config, s: System, f: nat)
    requires Inv(c, s) && f in s.executors && forall j: nat :: !Open(s, j)
    ensures !Working(s.executors[f].pc)
  {
    hide Shared, Local, Open, Admitted, Progress;
    if Working(s.executors[f].pc) {
      WorkingActive(c, s, f, s.executors[f]);
    }
  }

  // -------------------------------------------------------------- invocations

  lemma EnterTrace(c: Config, s: System, s': System, i: nat, a: nat)
    requires Trace(c, s) && Open(s, i) && 1 <= a <= Allowed(c.request, i) && Attempted(s.trace, i, a - 1)
    requires s'.trace == s.trace + [Call(i, a, None)] && s'.dispatches == s.dispatches && s'.run == s.run
    ensures Trace(c, s')
  {
    hide Allowed, Retryable;
    var n := |s.trace|;
    assert forall t :: 0 <= t < n ==> s'.trace[t] == s.trace[t];
    forall t | 0 <= t < n ensures Earlier(s'.trace[t], s'.trace[n]) {
      assert t < n - 1 ==> Earlier(s.trace[t], s.trace[n - 1]);
    }
    forall t | 0 <= t < |s'.trace| ensures RetryFollows(s'.trace, t) {
      assert t < n ==> RetryFollows(s.trace, t);
    }
  }

  lemma ReturnTrace(c: Config, s: System, s': System, i: nat, a: nat, reply: Reply)
    requires Trace(c, s) && |s.trace| > 0 && s.trace[|s.trace| - 1] == Call(i, a, None)
    requires s'.trace == s.trace[|s.trace| - 1 := Call(i, a, Some(reply))] && s'.dispatches == s.dispatches && s'.run == s.run
    ensures Trace(c, s')
  {
    hide Allowed, Retryable;
    var n := |s.trace|;
    forall t, u | 0 <= t < u < n ensures Earlier(s'.trace[t], s'.trace[u]) {
      assert Earlier(s.trace[t], s.trace[u]);
    }
    forall t | 0 <= t < n ensures RetryFollows(s'.trace, t) {
      assert RetryFollows(s.trace, t);
    }
  }

  /** A step that only touches the trace. */
  lemma InvocationStep(c: Config, s: System, s': System, e: nat, ex: Executor)
    requires Inv(c, s) && e in s.executors && Working(s.executors[e].pc)
    requires s'.executors == s.executors[e := ex] && s'.run == s.run && s'.dispatches == s.dispatches
    requires Trace(c, s') && Local(c, s', e, ex)
    ensures Inv(c, s')
  {
    hide Local, Committable, Bind, Rows, Events, Trace, Verdict, Admitted, Progress;
    WorkingActive(c, s, e, s.executors[e]);
    OpenMeans(c, s, s.executors[e].pc.i);
    AllButTrace(c, s, s');
    forall f | f in s.executors && f != e ensures !Working(s.executors[f].pc) {
      if Working(s.executors[f].pc) { SoleWorker(c, s, e, f); }
    }
    assert KeepsSuccesses(s, s');
    hide Shared, AllSucceeded, Failed, KeepsSuccesses;
    WorkStep(c, s, s', e, ex);
  }

  lemma AllButTrace(c: Config, s: System, s': System)
    requires Rows(c, s) && Events(c, s) && Verdict(c, s)
    requires s'.run == s.run && s'.dispatches == s.dispatches && s.executors.Keys <= s'.executors.Keys
    ensures Rows(c, s') && Events(c, s') && Verdict(c, s')
  {
    hide RecordedText;
    VerdictKept(c, s, s');
    hide Verdict, EventFits;
    assert SettledSteps(s') == SettledSteps(s);
    forall j | 0 <= j < |s.run.events| ensures EventFits(c, s', j) {
      EventKept(c, s, s', j);
    }
  }

  lemma OpenMeans(c: Config, s: System, i: nat)
    requires Open(s, i) && i < Tools(c) && Verdict(c, s)
    ensures !AllSucceeded(c, s) && !Failed(s) && s.run.exitCode.None?
    ensures SettledSteps(s) == i
  {
  }

  lemma EnterKeeps(c: Config, s: System, e: nat)
    requires Inv(c, s) && Next(c, s, Enter(e)).Some?
    ensures Inv(c, Next(c, s, Enter(e)).value)
  {
    hide Presentable, Rows, Events, Trace, Verdict, Committable, Bind, Admitted, Progress, Attempted, Open;
    var ex, s' := s.executors[e], Next(c, s, Enter(e)).value;
    var i, a := ex.pc.i, ex.pc.attempt;
    assert Local(c, s, e, ex);
    EnterTrace(c, s, s', i, a);
    var ex' := ex.(pc := Inside(i, a, |s.trace|));
    ActiveMoves(c, s, s', e, ex, ex', i, a);
    hide Shared, Active;
    assert Local(c, s', e, ex');
    InvocationStep(c, s, s', e, ex');
  }

  lemma ActiveMoves(c: Config, s: System, s': System, e: nat, ex: Executor, ex': Executor, i: nat, a: nat)
    requires Active(c, s, e, ex, i, a) && s'.run == s.run && s'.dispatches == s.dispatches
    requires ex'.request == ex.request && ex'.snapshot == ex.snapshot && ex'.results == ex.results
    ensures Active(c, s', e, ex', i, a)
  {
    assert KeepsSuccesses(s, s');
    hide Admitted, Progress, KeepsSuccesses;
    ProgressMoves(s, ex, ex');
    ProgressKept(s, s', ex');
    AdmittedMoves(c, s, ex, ex');
    AdmittedKept(c, s, s', ex');
  }

  lemma ReturnKeeps(c: Config, s: System, e: nat, reply: Reply)
    requires Inv(c, s) && Next(c, s, Return(e, reply)).Some?
    ensures Inv(c, Next(c, s, Return(e, reply)).value)
  {
    hide Presentable, Rows, Events, Trace, Verdict, Committable, Bind, Admitted, Progress, Attempted, Open;
    var ex, s' := s.executors[e], Next(c, s, Return(e, reply)).value;
    var i, a := ex.pc.i, ex.pc.attempt;
    assert Local(c, s, e, ex);
    ReturnTrace(c, s, s', i, a, reply);
    var ex' := ex.(pc := Back(i, a, reply));
    ActiveMoves(c, s, s', e, ex, ex', i, a);
    hide Shared, Active;
    assert Local(c, s', e, ex');
    InvocationStep(c, s, s', e, ex');
  }

  // ----------------------------------------------------------------- outcomes

  lemma TopRow(c: Config, s: System, s': System, i: nat, row: Row)
    requires Rows(c, s) && Open(s, i)
    requires s'.run.effects == s.run.effects[i := row] && s'.dispatches == s.dispatches
    requires s.executors.Keys <= s'.executors.Keys
    requires row.state != IntentRecorded && (Terminal(row) ==> row.result.Some? && RecordedText(row.result.value))
    ensures Rows(c, s')
  {
    hide RecordedText;
  }

  lemma TopKeepsSuccesses(s: System, s': System, i: nat, row: Row)
    requires Open(s, i) && s'.run.effects == s.run.effects[i := row]
    ensures KeepsSuccesses(s, s')
  {
  }

  /** After a reply, no invocation is outstanding. */
  lemma AnsweredTrace(c: Config, s: System, s': System, call: Call)
    requires Trace(c, s) && |s.trace| > 0 && s.trace[|s.trace| - 1] == call && call.reply.Some?
    requires s'.trace == s.trace && s'.dispatches == s.dispatches
    ensures Trace(c, s')
  {
    hide Earlier, RetryFollows, Allowed, Open;
  }

  lemma RetryEvents(c: Config, s: System, s': System, i: nat, row: Row)
    requires Events(c, s) && Open(s, i) && row.state == Dispatching
    requires s'.run.effects == s.run.effects[i := row] && s'.dispatches == s.dispatches && s'.run.events == s.run.events
    ensures Events(c, s')
  {
    hide EventFits;
    assert SettledSteps(s') == SettledSteps(s) == i;
    forall j | 0 <= j < i ensures EventFits(c, s', j) {
      EventKept(c, s, s', j);
    }
  }

  lemma OutcomeEvents(c: Config, s: System, s': System, i: nat, row: Row, event: Event)
    requires Events(c, s) && Open(s, i) && Terminal(row) && row.result == Some(event.result)
    requires s'.run.effects == s.run.effects[i := row] && s'.dispatches == s.dispatches && s'.run.events == s.run.events + [event]
    requires event.step == i && event.tool == StepName(c.request, i)
    requires Loads(event.args).Some? && Canonical.Same(Obj(StepArgs(c.request, i)), Loads(event.args).value)
    ensures Events(c, s')
  {
    hide Loads, Canonical.Same, StepName, StepArgs;
    assert SettledSteps(s) == i && SettledSteps(s') == i + 1;
    forall j | 0 <= j < i + 1 ensures EventFits(c, s', j) {
      if j < i {
        hide EventFits;
        EventKept(c, s, s', j);
      }
    }
  }

  /** The event written for a step carries the committed tool and arguments. */
  lemma EventContent(c: Config, r: Request, i: nat)
    requires Agrees(c, r) && i < Tools(c)
    ensures var args := Print(COMPACT, Obj(StepArgs(r, i)));
            Loads(args).Some? && Canonical.Same(Obj(StepArgs(c.request, i)), Loads(args).value)
    ensures StepName(r, i) == StepName(c.request, i) && Allowed(r, i) == Allowed(c.request, i)
  {
    hide Print, Loads, Canonical.Same, StepName, StepArgs, WellFormed, Allowed;
    assert StepAgrees(c, r, i);
    RoundTrip.LoadsInvertsPrint(COMPACT, Obj(StepArgs(r, i)));
  }

  lemma ResultRecorded(tool: string, reply: Reply)
    requires WellFormedReply(reply)
    ensures RecordedText(ResultText(Settle(tool, reply)))
  {
    hide Print, Loads, WellFormed, Settle, ResultJson;
    SettledWellFormed(tool, reply);
    RoundTrip.LoadsInvertsPrint(COMPACT, ResultJson(Settle(tool, reply)));
  }

  /** What `Commit` leaves when the attempt may be repeated. */
  ghost predicate Retries(s: System, s': System, e: nat, ex: Executor, i: nat, a: nat, text: string) {
    && s'.executors == s.executors[e := ex.(pc := Calling(i, a + 1))]
    && s'.dispatches == s.dispatches && s'.trace == s.trace
    && s'.run == s.run.(effects := s.run.effects[i := Row(Dispatching, Some(text))])
  }

  lemma RetryKeeps(c: Config, s: System, s': System, e: nat, ex: Executor, i: nat, a: nat, reply: Reply, text: string)
    requires Inv(c, s) && e in s.executors && s.executors[e] == ex && ex.pc == Back(i, a, reply)
    requires Active(c, s, e, ex, i, a) && |s.trace| > 0 && s.trace[|s.trace| - 1] == Call(i, a, Some(reply))
    requires Retryable(reply) && a < Allowed(c.request, i)
    requires Retries(s, s', e, ex, i, a, text)
    ensures Inv(c, s')
  {
    hide Local, Committable, Bind, Rows, Events, Trace, Verdict, Admitted, Progress, KeepsSuccesses, AllSucceeded, Failed, Open, Allowed;
    var row := Row(Dispatching, Some(text));
    OpenMeans(c, s, i);
    TopRow(c, s, s', i, row);
    TopKeepsSuccesses(s, s', i, row);
    AnsweredTrace(c, s, s', Call(i, a, Some(reply)));
    RetryEvents(c, s, s', i, row);
    FreshVerdict(c, s');
    assert Open(s', i) by { OpenAgain(s, s', i, row); }
    ActiveAgain(c, s, s', e, ex, ex.(pc := Calling(i, a + 1)), i, a);
    CallingLocal(c, s', e, ex.(pc := Calling(i, a + 1)), i, a);
    OthersIdle(c, s, e);
    hide Shared, Active;
    assert Shared(c, s') by { SharedParts(c, s, s'); }
    WorkStep(c, s, s', e, ex.(pc := Calling(i, a + 1)));
  }

  lemma SharedParts(c: Config, s: System, s': System)
    requires Shared(c, s) && s'.run.bound == s.run.bound
    requires Rows(c, s') && Events(c, s') && Trace(c, s') && Verdict(c, s')
    ensures Shared(c, s')
  {
    hide Committable, Bind, Rows, Events, Trace, Verdict;
  }

  lemma OpenAgain(s: System, s': System, i: nat, row: Row)
    requires Open(s, i) && row.state == Dispatching && s'.dispatches == s.dispatches && s'.run.effects == s.run.effects[i := row]
    ensures Open(s', i)
  {
  }

  lemma ActiveAgain(c: Config, s: System, s': System, e: nat, ex: Executor, ex': Executor, i: nat, a: nat)
    requires Active(c, s, e, ex, i, a) && KeepsSuccesses(s, s') && Open(s', i) && s'.dispatches == s.dispatches
    requires ex'.request == ex.request && ex'.snapshot == ex.snapshot && ex'.results == ex.results
    ensures Active(c, s', e, ex', i, a)
  {
    hide Admitted, Progress, KeepsSuccesses, Open, Allowed;
    ProgressMoves(s, ex, ex');
    ProgressKept(s, s', ex');
    AdmittedMoves(c, s, ex, ex');
    AdmittedKept(c, s, s', ex');
  }

  lemma CallingLocal(c: Config, s: System, e: nat, ex: Executor, i: nat, a: nat)
    requires Active(c, s, e, ex, i, a) && a < Allowed(c.request, i) && ex.pc == Calling(i, a + 1)
    requires |s.trace| > 0 && s.trace[|s.trace| - 1].step == i && s.trace[|s.trace| - 1].attempt == a
    requires s.trace[|s.trace| - 1].reply.Some? && Retryable(s.trace[|s.trace| - 1].reply.value)
    ensures Local(c, s, e, ex)
  {
    hide Admitted, Progress, Open, Allowed;
  }

  lemma OthersIdle(c: Config, s: System, e: nat)
    requires Inv(c, s) && e in s.executors && Working(s.executors[e].pc)
    ensures forall f :: f in s.executors && f != e ==> !Working(s.executors[f].pc)
  {
    hide Inv;
    forall f | f in s.executors && f != e ensures !Working(s.executors[f].pc) {
      if Working(s.executors[f].pc) { SoleWorker(c, s, e, f); }
    }
  }

  /** What `Commit` leaves when the step ends. */
  ghost predicate Ends(s: System, s': System, e: nat, ex': Executor, event: Event, good: bool) {
    && s'.executors == s.executors[e := ex'] && s'.dispatches == s.dispatches && s'.trace == s.trace
    && s'.run == s.run.(effects := s.run.effects[event.step := Row(if good then Succeeded else FailedUnknown, Some(event.result))],
                        events := s.run.events + [event])
  }

  lemma OutcomeKeeps(c: Config, s: System, s': System, e: nat, ex: Executor, ex': Executor, i: nat, reply: Reply, event: Event, good: bool)
    requires Inv(c, s) && e in s.executors && s.executors[e] == ex && Working(ex.pc)
    requires Open(s, i) && i < Tools(c) && |s.trace| > 0 && s.trace[|s.trace| - 1].reply.Some?
    requires event.step == i && event.tool == StepName(c.request, i) && RecordedText(event.result)
    requires Loads(event.args).Some? && Canonical.Same(Obj(StepArgs(c.request, i)), Loads(event.args).value)
    requires Ends(s, s', e, ex', event, good)
    requires Local(c, s', e, ex')
    ensures Inv(c, s')
  {
    hide Local, Committable, Bind, Rows, Events, Trace, Verdict, Admitted, Progress, KeepsSuccesses, AllSucceeded, Failed, Open, Allowed,
         RecordedText, Loads, Canonical.Same, StepName, StepArgs;
    var row := Row(if good then Succeeded else FailedUnknown, Some(event.result));
    OpenMeans(c, s, i);
    TopRow(c, s, s', i, row);
    TopKeepsSuccesses(s, s', i, row);
    AnsweredTrace(c, s, s', s.trace[|s.trace| - 1]);
    OutcomeEvents(c, s, s', i, row, event);
    FreshVerdict(c, s');
    OthersIdle(c, s, e);
    hide Shared;
    assert Shared(c, s') by { SharedParts(c, s, s'); }
    WorkStep(c, s, s', e, ex');
  }

  lemma GoodLocal(c: Config, s: System, s': System, e: nat, ex: Executor, i: nat, a: nat, value: Json, event: Event)
    requires Active(c, s, e, ex, i, a) && WellFormed(value) && event.step == i && event.result == Print(COMPACT, value)
    requires Ends(s, s', e, ex.(pc := AtStep(i + 1), results := ex.results + [value]), event, true)
    ensures Local(c, s', e, ex.(pc := AtStep(i + 1), results := ex.results + [value]))
  {
    hide Print, WellFormed, Admitted, KeepsSuccesses, Allowed;
    var ex' := ex.(pc := AtStep(i + 1), results := ex.results + [value]);
    TopKeepsSuccesses(s, s', i, Row(Succeeded, Some(event.result)));
    AdmittedMoves(c, s, ex, ex');
    AdmittedKept(c, s, s', ex');
    ProgressKept(s, s', ex);
    assert Progress(s', ex', i + 1) by {
      forall j: nat | j < i + 1 ensures Holds(s', ex', j) {
        assert j < i ==> Holds(s', ex, j);
      }
    }
    hide Progress;
  }

  lemma BadLocal(c: Config, s: System, s': System, e: nat, ex: Executor, i: nat, a: nat, event: Event)
    requires Active(c, s, e, ex, i, a) && event.step == i
    requires Ends(s, s', e, ex.(pc := Finishing(1)), event, false)
    ensures Local(c, s', e, ex.(pc := Finishing(1)))
  {
    var ex' := ex.(pc := Finishing(1));
    TopKeepsSuccesses(s, s', i, Row(FailedUnknown, Some(event.result)));
    hide Admitted, KeepsSuccesses, Allowed, Progress;
    ProgressMoves(s, ex, ex');
    ProgressKept(s, s', ex');
    assert Failed(s');
  }

  /** What commits an outcome never finds the row in the wrong state. */
  lemma CommitCases(c: Config, s: System, e: nat, ex: Executor, i: nat, a: nat, reply: Reply)
    requires ex.pc == Back(i, a, reply) && Open(s, i)
    requires Allowed(ex.request, i) == Allowed(c.request, i) && StepName(ex.request, i) == StepName(c.request, i)
    ensures var s' := CommitStep(s, e, ex);
            var outcome := Settle(StepName(c.request, i), reply);
            var event := Event(i, StepName(c.request, i), Print(COMPACT, Obj(StepArgs(ex.request, i))), ResultText(outcome));
            if Retryable(reply) && a < Allowed(c.request, i) then Retries(s, s', e, ex, i, a, ResultText(outcome))
            else match outcome
              case Good(value) => Ends(s, s', e, ex.(pc := AtStep(i + 1), results := ex.results + [value]), event, true)
              case Bad(_) => Ends(s, s', e, ex.(pc := Finishing(1)), event, false)
  {
    hide Settle, ResultText, Print, StepName, StepArgs, Allowed, Retryable;
  }

  lemma GoodIsWellFormed(tool: string, reply: Reply)
    requires WellFormedReply(reply) && Settle(tool, reply).Good?
    ensures WellFormed(Settle(tool, reply).value)
    ensures ResultText(Settle(tool, reply)) == Print(COMPACT, Settle(tool, reply).value)
  {
    hide WellFormed, WellFormedReply, Print;
    SettledWellFormed(tool, reply);
    hide Settle;
  }

  lemma CommitKeeps(c: Config, s: System, e: nat)
    requires Inv(c, s) && Next(c, s, Commit(e)).Some?
    ensures Inv(c, Next(c, s, Commit(e)).value)
  {
    hide Shared, Admitted, Progress, CommitStep, WellFormedReply, Presentable;
    var ex, s' := s.executors[e], Next(c, s, Commit(e)).value;
    assert s' == CommitStep(s, e, ex);
    var Back(i, a, reply) := ex.pc;
    assert Local(c, s, e, ex);
    assert Active(c, s, e, ex, i, a);
    hide Local;
    Committed(c, s, s', e, ex, i, a, reply);
  }

  lemma Committed(c: Config, s: System, s': System, e: nat, ex: Executor, i: nat, a: nat, reply: Reply)
    requires Inv(c, s) && e in s.executors && s.executors[e] == ex && ex.pc == Back(i, a, reply)
    requires Active(c, s, e, ex, i, a) && WellFormedReply(reply)
    requires |s.trace| > 0 && s.trace[|s.trace| - 1] == Call(i, a, Some(reply))
    requires s' == CommitStep(s, e, ex)
    ensures Inv(c, s')
  {
    hide Inv, Progress, Settle, ResultText, Print, StepName, StepArgs, Allowed, Retryable, Open, CommitStep, Agrees, WellFormed,
         WellFormedReply, Ends, Retries, Loads, Canonical.Same, RecordedText, Local;
    assert Agrees(c, ex.request);
    hide Admitted;
    EventContent(c, ex.request, i);
    CommitCases(c, s, e, ex, i, a, reply);
    var name := StepName(c.request, i);
    var outcome := Settle(name, reply);
    var event := Event(i, name, Print(COMPACT, Obj(StepArgs(ex.request, i))), ResultText(outcome));
    if Retryable(reply) && a < Allowed(c.request, i) {
      RetryKeeps(c, s, s', e, ex, i, a, reply, ResultText(outcome));
    } else {
      ResultRecorded(name, reply);
      match outcome
      case Good(value) =>
        var ex' := ex.(pc := AtStep(i + 1), results := ex.results + [value]);
        GoodIsWellFormed(name, reply);
        GoodLocal(c, s, s', e, ex, i, a, value, event);
        OutcomeKeeps(c, s, s', e, ex, ex', i, reply, event, true);
      case Bad(_) =>
        var ex' := ex.(pc := Finishing(1));
        BadLocal(c, s, s', e, ex, i, a, event);
        OutcomeKeeps(c, s, s', e, ex, ex', i, reply, event, false);
    }
  }

  // ---------------------------------------------------------------- every run

  lemma NextKeeps(c: Config, s: System, a: Action)
    requires Inv(c, s) && Next(c, s, a).Some?
    ensures Inv(c, Next(c, s, a).value)
  {
    hide Inv, Next;
    match a
    case Spawn(e, r) => SpawnKeeps(c, s, e, r);
    case Check(e) => CheckKeeps(c, s, e);
    case Advance(e) => AdvanceKeeps(c, s, e);
    case Send(e) => SendKeeps(c, s, e);
    case Enter(e) => EnterKeeps(c, s, e);
    case Return(e, reply) => ReturnKeeps(c, s, e, reply);
    case Commit(e) => CommitKeeps(c, s, e);
    case Finish(e) => FinishKeeps(c, s, e);
    case Crash(e) => CrashKeeps(c, s, e);
  }

  /** The invariant holds after any schedule that starts from a state where it holds. */
  lemma {:induction false} AfterKeeps(c: Config, s: System, schedule: seq<Action>)
    requires Inv(c, s) && Possible(c, s, schedule)
    ensures Inv(c, After(c, s, schedule))
    decreases |schedule|
  {
    hide Inv, Next;
    if schedule != [] {
      NextKeeps(c, s, schedule[0]);
      AfterKeeps(c, Next(c, s, schedule[0]).value, schedule[1..]);
    }
  }

  /** Every reachable state satisfies the invariant. */
  lemma AlwaysInv(c: Config, schedule: seq<Action>)
    requires Committable(c) && Possible(c, Init(c), schedule)
    ensures Inv(c, After(c, Init(c), schedule))
  {
    hide *;
    InitInv(c);
    AfterKeeps(c, Init(c), schedule);
  }
}
