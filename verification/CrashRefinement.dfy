/** Crashes and recoveries are invisible in a run that ends: its invocations and rows are
    those of a run that was never interrupted. */
module CrashRefinement {
  import opened Json
  import opened Plans
  import opened Binding
  import opened EffectLedger
  import opened ToolCalls
  import opened LedgerSystem
  import opened LedgerInvariant
  import opened LedgerPreservation
  import opened LedgerWork
  import opened LedgerSafety
  import opened LedgerOutcome

  /** What the tools reply, given every earlier invocation and the step. */
  type Oracle = (seq<Call>, nat) -> Reply

  // ---------------------------------------------------- the uninterrupted run

  datatype Final = Final(code: int, trace: seq<Call>, rows: map<nat, Row>)

  /** The plan from step `i` on, executed by one executor that never crashes. */
  ghost function RunFrom(c: Config, o: Oracle, i: nat, trace: seq<Call>, rows: map<nat, Row>): Final
    decreases Tools(c) - i, 1, 0
  {
    if i >= Tools(c) then Final(0, trace, rows) else AttemptFrom(c, o, i, 1, trace, rows)
  }

  /** Step `i` from attempt `a` on, then the rest of the plan. */
  ghost function AttemptFrom(c: Config, o: Oracle, i: nat, a: nat, trace: seq<Call>, rows: map<nat, Row>): Final
    requires i < Tools(c)
    decreases Tools(c) - i, 0, Allowed(c.request, i) - a
  {
    var reply := o(trace, i);
    var called := trace + [Call(i, a, Some(reply))];
    var outcome := Settle(StepName(c.request, i), reply);
    if Retryable(reply) && a < Allowed(c.request, i) then AttemptFrom(c, o, i, a + 1, called, rows)
    else if outcome.Good? then RunFrom(c, o, i + 1, called, rows[i := Row(Succeeded, Some(ResultText(outcome)))])
    else Final(1, called, rows[i := Row(FailedUnknown, Some(ResultText(outcome)))])
  }

  ghost function Fresh(c: Config): map<nat, Row> {
    map i | i in ToolSteps(c.request.plan) :: Row(IntentRecorded, None)
  }

  ghost function Uninterrupted(c: Config, o: Oracle): Final {
    RunFrom(c, o, 0, [], Fresh(c))
  }

  /** An uninterrupted run only appends to the trace. */
  lemma {:induction false} RunGrows(c: Config, o: Oracle, i: nat, trace: seq<Call>, rows: map<nat, Row>)
    ensures trace <= RunFrom(c, o, i, trace, rows).trace
    decreases Tools(c) - i, 1, 0
  {
    if i < Tools(c) {
      AttemptGrows(c, o, i, 1, trace, rows);
    }
  }

  lemma {:induction false} AttemptGrows(c: Config, o: Oracle, i: nat, a: nat, trace: seq<Call>, rows: map<nat, Row>)
    requires i < Tools(c)
    ensures trace + [Call(i, a, Some(o(trace, i)))] <= AttemptFrom(c, o, i, a, trace, rows).trace
    decreases Tools(c) - i, 0, Allowed(c.request, i) - a
  {
    hide Allowed, Settle, Retryable, StepName, ResultText;
    var reply := o(trace, i);
    var called := trace + [Call(i, a, Some(reply))];
    var outcome := Settle(StepName(c.request, i), reply);
    if Retryable(reply) && a < Allowed(c.request, i) {
      AttemptGrows(c, o, i, a + 1, called, rows);
    } else if outcome.Good? {
      RunGrows(c, o, i + 1, called, rows[i := Row(Succeeded, Some(ResultText(outcome)))]);
    }
  }

  // ------------------------------------------------------- what is left to do

  /** The replies of a schedule are those of the oracle. */
  ghost predicate Follows(o: Oracle, s: System, a: Action) {
    a.Return? && a.e in s.executors && s.executors[a.e].pc.Inside? && s.executors[a.e].pc.at < |s.trace| ==>
      a.reply == o(s.trace[..s.executors[a.e].pc.at], s.executors[a.e].pc.i)
  }

  ghost predicate FollowsAll(c: Config, o: Oracle, s: System, schedule: seq<Action>)
    requires Possible(c, s, schedule)
    decreases |schedule|
  {
    schedule == [] ||
    (Follows(o, s, schedule[0]) && FollowsAll(c, o, Next(c, s, schedule[0]).value, schedule[1..]))
  }

  /** The trace without an invocation that has not returned. */
  ghost function Completed(trace: seq<Call>): seq<Call> {
    if trace != [] && trace[|trace| - 1].reply.None? then trace[..|trace| - 1] else trace
  }

  ghost predicate AnyOpen(s: System) {
    |s.dispatches| > 0 && Open(s, |s.dispatches| - 1)
  }

  /** The rows, with a step in progress counted as not begun. */
  ghost function Base(s: System): map<nat, Row> {
    if AnyOpen(s) then s.run.effects[|s.dispatches| - 1 := Row(IntentRecorded, None)] else s.run.effects
  }

  /** Between steps, what is left to do is the rest of the uninterrupted run. */
  ghost predicate SharedResidue(c: Config, o: Oracle, s: System) {
    && Completed(s.trace) <= Uninterrupted(c, o).trace
    && (Failed(s) ==> Uninterrupted(c, o) == Final(1, s.trace, s.run.effects))
    && (!Failed(s) && !AnyOpen(s) ==> Uninterrupted(c, o) == RunFrom(c, o, |s.dispatches|, s.trace, s.run.effects))
  }

  /** So it is in the middle of a step, for the executor at work. */
  ghost predicate Residue(c: Config, o: Oracle, s: System, pc: Pc) {
    match pc
    case Calling(i, a) => i < Tools(c) && Uninterrupted(c, o) == AttemptFrom(c, o, i, a, s.trace, Base(s))
    case Inside(i, a, at) =>
      i < Tools(c) && at < |s.trace| && Uninterrupted(c, o) == AttemptFrom(c, o, i, a, s.trace[..at], Base(s))
    case Back(i, a, reply) =>
      i < Tools(c) && |s.trace| > 0 &&
      (var before := s.trace[..|s.trace| - 1];
       reply == o(before, i) && Uninterrupted(c, o) == AttemptFrom(c, o, i, a, before, Base(s)))
    case _ => true
  }

  ghost predicate Refines(c: Config, o: Oracle, s: System) {
    SharedResidue(c, o, s) && forall e :: e in s.executors ==> Residue(c, o, s, s.executors[e].pc)
  }

  lemma InitRefines(c: Config, o: Oracle)
    requires Committable(c)
    ensures Refines(c, o, Init(c))
  {
  }

  // ------------------------------------------------------------ private steps

  lemma SameResidue(c: Config, o: Oracle, s: System, s': System)
    requires SameHistory(s, s')
    ensures SharedResidue(c, o, s) ==> SharedResidue(c, o, s')
    ensures forall pc :: Residue(c, o, s, pc) ==> Residue(c, o, s', pc)
  {
    hide RunFrom, AttemptFrom, Uninterrupted;
    assert AnyOpen(s') == AnyOpen(s) && Failed(s') == Failed(s) && Base(s') == Base(s);
  }

  /** A step that leaves no executor newly at work and no history changed. */
  lemma IdleRefines(c: Config, o: Oracle, s: System, s': System, e: nat)
    requires Refines(c, o, s) && SameHistory(s, s')
    requires forall f :: f in s'.executors && f != e ==> f in s.executors && s'.executors[f] == s.executors[f]
    requires e in s'.executors ==> !Working(s'.executors[e].pc)
    ensures Refines(c, o, s')
  {
    hide SharedResidue;
    SameResidue(c, o, s, s');
    NotWorkingResidue(c, o, s');
    hide Residue, SameHistory, Working;
  }

  lemma NotWorkingResidue(c: Config, o: Oracle, s: System)
    ensures forall pc :: !Working(pc) ==> Residue(c, o, s, pc)
  {
  }

  // ------------------------------------------------------------------ the work

  /** A dispatch begins the next step of the uninterrupted run. */
  lemma DispatchResidue(c: Config, o: Oracle, s: System, s': System, e: nat, i: nat)
    requires SharedResidue(c, o, s) && i < Tools(c) && i == |s.dispatches|
    requires !Failed(s) && !AnyOpen(s) && i in s.run.effects && s.run.effects[i] == Row(IntentRecorded, None)
    requires s'.trace == s.trace && s'.dispatches == s.dispatches + [Dispatch(e, i)]
    requires s'.run.effects == s.run.effects[i := s.run.effects[i].(state := Dispatching)]
    ensures SharedResidue(c, o, s') && Residue(c, o, s', Calling(i, 1))
  {
    hide AttemptFrom, Uninterrupted, Completed;
    assert AnyOpen(s') && Base(s') == s.run.effects;
  }

  lemma EnterResidue(c: Config, o: Oracle, s: System, s': System, i: nat, a: nat)
    requires SharedResidue(c, o, s) && Residue(c, o, s, Calling(i, a)) && Open(s, i)
    requires Completed(s.trace) == s.trace
    requires s'.run == s.run && s'.dispatches == s.dispatches && s'.trace == s.trace + [Call(i, a, None)]
    ensures SharedResidue(c, o, s') && Residue(c, o, s', Inside(i, a, |s.trace|))
  {
    hide AttemptFrom, RunFrom, Uninterrupted;
    assert s'.trace[..|s.trace|] == s.trace;
    assert Completed(s'.trace) == s.trace;
    assert AnyOpen(s') && Base(s') == Base(s);
  }

  lemma ReturnResidue(c: Config, o: Oracle, s: System, s': System, i: nat, a: nat, reply: Reply)
    requires SharedResidue(c, o, s) && |s.trace| > 0 && Residue(c, o, s, Inside(i, a, |s.trace| - 1)) && Open(s, i)
    requires reply == o(s.trace[..|s.trace| - 1], i)
    requires s'.run == s.run && s'.dispatches == s.dispatches && s'.trace == s.trace[|s.trace| - 1 := Call(i, a, Some(reply))]
    ensures SharedResidue(c, o, s') && Residue(c, o, s', Back(i, a, reply))
  {
    var before := s.trace[..|s.trace| - 1];
    AttemptGrows(c, o, i, a, before, Base(s));
    hide AttemptFrom, RunFrom, Uninterrupted;
    assert s'.trace[..|s.trace| - 1] == before;
    assert s'.trace == before + [Call(i, a, Some(reply))];
    assert Completed(s'.trace) == s'.trace;
    assert AnyOpen(s') && Base(s') == Base(s);
  }

  /** One unfolding of the uninterrupted run, at a reply that is back. */
  lemma BackUnfolds(c: Config, o: Oracle, s: System, i: nat, a: nat, reply: Reply)
    requires Residue(c, o, s, Back(i, a, reply)) && |s.trace| > 0 && s.trace[|s.trace| - 1] == Call(i, a, Some(reply))
    ensures var outcome := Settle(StepName(c.request, i), reply);
            var text := ResultText(outcome);
            Uninterrupted(c, o) ==
              if Retryable(reply) && a < Allowed(c.request, i) then AttemptFrom(c, o, i, a + 1, s.trace, Base(s))
              else if outcome.Good? then RunFrom(c, o, i + 1, s.trace, Base(s)[i := Row(Succeeded, Some(text))])
              else Final(1, s.trace, Base(s)[i := Row(FailedUnknown, Some(text))])
  {
    var before := s.trace[..|s.trace| - 1];
    assert s.trace == before + [Call(i, a, Some(reply))];
    hide Uninterrupted, Base, Settle, ResultText, Retryable, Allowed, StepName;
  }

  lemma RetryResidue(c: Config, o: Oracle, s: System, s': System, e: nat, ex: Executor, i: nat, a: nat, text: string)
    requires SharedResidue(c, o, s) && i < Tools(c) && Open(s, i)
    requires Uninterrupted(c, o) == AttemptFrom(c, o, i, a + 1, s.trace, Base(s))
    requires Retries(s, s', e, ex, i, a, text)
    ensures SharedResidue(c, o, s') && Residue(c, o, s', Calling(i, a + 1))
  {
    hide AttemptFrom, RunFrom, Uninterrupted, Completed;
    assert AnyOpen(s') && Base(s') == Base(s);
  }

  lemma GoodResidue(c: Config, o: Oracle, s: System, s': System, e: nat, ex': Executor, i: nat, event: Event)
    requires SharedResidue(c, o, s) && Open(s, i) && event.step == i
    requires Uninterrupted(c, o) == RunFrom(c, o, i + 1, s.trace, Base(s)[i := Row(Succeeded, Some(event.result))])
    requires Ends(s, s', e, ex', event, true)
    ensures SharedResidue(c, o, s')
  {
    hide AttemptFrom, RunFrom, Uninterrupted, Completed;
    assert !AnyOpen(s') && !Failed(s');
    assert s'.run.effects == Base(s)[i := Row(Succeeded, Some(event.result))];
  }

  lemma BadResidue(c: Config, o: Oracle, s: System, s': System, e: nat, ex': Executor, i: nat, event: Event)
    requires SharedResidue(c, o, s) && Open(s, i) && event.step == i
    requires Uninterrupted(c, o) == Final(1, s.trace, Base(s)[i := Row(FailedUnknown, Some(event.result))])
    requires Ends(s, s', e, ex', event, false)
    ensures SharedResidue(c, o, s')
  {
    hide AttemptFrom, RunFrom, Uninterrupted, Completed;
    assert !AnyOpen(s') && Failed(s');
    assert s'.run.effects == Base(s)[i := Row(FailedUnknown, Some(event.result))];
  }

  /** A step of the one executor at work. */
  lemma WorkRefines(c: Config, o: Oracle, s: System, s': System, e: nat, ex: Executor)
    requires SharedResidue(c, o, s') && Residue(c, o, s', ex.pc)
    requires s'.executors == s.executors[e := ex]
    requires forall f :: f in s.executors && f != e ==> !Working(s.executors[f].pc)
    ensures Refines(c, o, s')
  {
    hide SharedResidue;
    NotWorkingResidue(c, o, s');
    hide Residue, Working;
  }

  // ------------------------------------------------------------- every action

  lemma SendRefines(c: Config, o: Oracle, s: System, e: nat, s': System)
    requires Inv(c, s) && Refines(c, o, s) && Next(c, s, Send(e)) == Some(s')
    ensures Refines(c, o, s')
  {
    hide Inv, Refines, Local, Admitted, Progress, Rows, Verdict, AllSucceeded, Failed, SharedResidue, Residue;
    var ex := s.executors[e];
    var i := ex.pc.i;
    if DispatchEffect(s.run, i).Refuse? {
      IdleRefines(c, o, s, s', e);
    } else {
      LocalOf(c, s, e);
      OtherwiseMeans(c, s, e, ex);
      AtStepProgress(c, s, e, ex);
      InvParts(c, s);
      NextToDispatch(c, s, ex, i);
      NothingOpen(c, s, i);
      forall f | f in s.executors && f != e ensures !Working(s.executors[f].pc) {
        NotWorking(c, s, f);
      }
      IntentBlank(c, s, i);
      RefinesShared(c, o, s);
      DispatchResidue(c, o, s, s', e, i);
      WorkRefines(c, o, s, s', e, ex.(pc := Calling(i, 1)));
    }
  }

  lemma AtStepProgress(c: Config, s: System, e: nat, ex: Executor)
    requires Local(c, s, e, ex) && ex.pc.AtStep?
    ensures Progress(s, ex, ex.pc.i)
  {
    hide Admitted, Progress;
  }

  lemma InvParts(c: Config, s: System)
    requires Inv(c, s)
    ensures Rows(c, s) && Events(c, s) && Trace(c, s) && Verdict(c, s)
  {
    hide Rows, Events, Trace, Verdict, Local, Committable, Bind;
  }

  lemma RefinesShared(c: Config, o: Oracle, s: System)
    requires Refines(c, o, s)
    ensures SharedResidue(c, o, s)
    ensures forall e :: e in s.executors ==> Residue(c, o, s, s.executors[e].pc)
  {
    hide SharedResidue, Residue;
  }

  lemma IntentBlank(c: Config, s: System, i: nat)
    requires Rows(c, s) && i < Tools(c) && i == |s.dispatches|
    ensures i in s.run.effects && s.run.effects[i] == Row(IntentRecorded, None)
  {
    hide RecordedText;
  }

  /** The trace on which an executor about to invoke stands is complete. */
  lemma CallingComplete(c: Config, s: System, e: nat, ex: Executor)
    requires Local(c, s, e, ex) && ex.pc.Calling?
    ensures Completed(s.trace) == s.trace && Open(s, ex.pc.i)
  {
    hide Admitted, Progress, Open, Retryable, Allowed;
  }

  lemma EnterRefines(c: Config, o: Oracle, s: System, e: nat, s': System)
    requires Inv(c, s) && Refines(c, o, s) && Next(c, s, Enter(e)) == Some(s')
    ensures Refines(c, o, s')
  {
    hide Inv, Refines, Local, SharedResidue, Residue, Open, Completed;
    var ex := s.executors[e];
    var i, a := ex.pc.i, ex.pc.attempt;
    LocalOf(c, s, e);
    CallingComplete(c, s, e, ex);
    RefinesShared(c, o, s);
    OthersIdle(c, s, e);
    EnterResidue(c, o, s, s', i, a);
    WorkRefines(c, o, s, s', e, ex.(pc := Inside(i, a, |s.trace|)));
  }

  lemma InsideLast(c: Config, s: System, e: nat, ex: Executor)
    requires Local(c, s, e, ex) && ex.pc.Inside?
    ensures Open(s, ex.pc.i) && |s.trace| > 0 && ex.pc.at == |s.trace| - 1
  {
    hide Admitted, Progress, Open, Allowed;
  }

  lemma ReturnRefines(c: Config, o: Oracle, s: System, e: nat, reply: Reply, s': System)
    requires Inv(c, s) && Refines(c, o, s) && Next(c, s, Return(e, reply)) == Some(s') && Follows(o, s, Return(e, reply))
    ensures Refines(c, o, s')
  {
    hide Inv, Refines, Local, SharedResidue, Residue, Open, Completed;
    var ex := s.executors[e];
    var i, a := ex.pc.i, ex.pc.attempt;
    LocalOf(c, s, e);
    InsideLast(c, s, e, ex);
    RefinesShared(c, o, s);
    OthersIdle(c, s, e);
    ReturnResidue(c, o, s, s', i, a, reply);
    WorkRefines(c, o, s, s', e, ex.(pc := Back(i, a, reply)));
  }

  lemma BackLast(c: Config, s: System, e: nat, ex: Executor)
    requires Local(c, s, e, ex) && ex.pc.Back?
    ensures Open(s, ex.pc.i) && ex.pc.i < Tools(c) && Agrees(c, ex.request)
    ensures |s.trace| > 0 && s.trace[|s.trace| - 1] == Call(ex.pc.i, ex.pc.attempt, Some(ex.pc.reply))
  {
    hide Agrees, Progress, Open, Allowed;
  }

  lemma CommitRefines(c: Config, o: Oracle, s: System, e: nat, s': System)
    requires Inv(c, s) && Refines(c, o, s) && Next(c, s, Commit(e)) == Some(s')
    ensures Refines(c, o, s')
  {
    hide Inv, Refines, Local, SharedResidue, Residue, Open, Agrees, CommitStep, Uninterrupted, RunFrom, AttemptFrom, Base, Settle, ResultText,
         Print, StepName, StepArgs, Allowed, Retryable, Retries, Ends;
    var ex := s.executors[e];
    var Back(i, a, reply) := ex.pc;
    LocalOf(c, s, e);
    BackLast(c, s, e, ex);
    RefinesShared(c, o, s);
    OthersIdle(c, s, e);
    BackUnfolds(c, o, s, i, a, reply);
    EventContent(c, ex.request, i);
    CommitCases(c, s, e, ex, i, a, reply);
    CommitRefinesCases(c, o, s, e, s', ex, i, a, reply);
  }

  lemma CommitRefinesCases(c: Config, o: Oracle, s: System, e: nat, s': System, ex: Executor, i: nat, a: nat, reply: Reply)
    requires SharedResidue(c, o, s) && Open(s, i) && i < Tools(c)
    requires forall f :: f in s.executors && f != e ==> !Working(s.executors[f].pc)
    requires var outcome := Settle(StepName(c.request, i), reply);
             var event := Event(i, StepName(c.request, i), Print(COMPACT, Obj(StepArgs(ex.request, i))), ResultText(outcome));
             var left := Uninterrupted(c, o);
             if Retryable(reply) && a < Allowed(c.request, i) then
               left == AttemptFrom(c, o, i, a + 1, s.trace, Base(s)) && Retries(s, s', e, ex, i, a, event.result)
             else match outcome
               case Good(value) =>
                 && left == RunFrom(c, o, i + 1, s.trace, Base(s)[i := Row(Succeeded, Some(event.result))])
                 && Ends(s, s', e, ex.(pc := AtStep(i + 1), results := ex.results + [value]), event, true)
               case Bad(_) =>
                 && left == Final(1, s.trace, Base(s)[i := Row(FailedUnknown, Some(event.result))])
                 && Ends(s, s', e, ex.(pc := Finishing(1)), event, false)
    ensures Refines(c, o, s')
  {
    hide Refines, SharedResidue, Residue, Open, Uninterrupted, RunFrom, AttemptFrom, Base, Settle, ResultText,
         Print, StepName, StepArgs, Allowed, Retryable;
    var outcome := Settle(StepName(c.request, i), reply);
    var event := Event(i, StepName(c.request, i), Print(COMPACT, Obj(StepArgs(ex.request, i))), ResultText(outcome));
    NotWorkingResidue(c, o, s');
    if Retryable(reply) && a < Allowed(c.request, i) {
      RetryResidue(c, o, s, s', e, ex, i, a, event.result);
      WorkRefines(c, o, s, s', e, ex.(pc := Calling(i, a + 1)));
    } else {
      match outcome
      case Good(value) =>
        var ex' := ex.(pc := AtStep(i + 1), results := ex.results + [value]);
        GoodResidue(c, o, s, s', e, ex', i, event);
        WorkRefines(c, o, s, s', e, ex');
      case Bad(_) =>
        var ex' := ex.(pc := Finishing(1));
        BadResidue(c, o, s, s', e, ex', i, event);
        WorkRefines(c, o, s, s', e, ex');
    }
  }

  lemma NextRefines(c: Config, o: Oracle, s: System, a: Action, s': System)
    requires Inv(c, s) && Refines(c, o, s) && Next(c, s, a) == Some(s') && Follows(o, s, a)
    ensures Refines(c, o, s')
  {
    hide Inv, Refines, Next, Follows;
    match a
    case Send(e) => SendRefines(c, o, s, e, s');
    case Enter(e) => EnterRefines(c, o, s, e, s');
    case Return(e, reply) => ReturnRefines(c, o, s, e, reply, s');
    case Commit(e) => CommitRefines(c, o, s, e, s');
    case _ =>
      PrivateAction(c, s, a, s');
      IdleRefines(c, o, s, s', a.e);
  }

  lemma PrivateAction(c: Config, s: System, a: Action, s': System)
    requires Next(c, s, a) == Some(s') && !a.Send? && !a.Enter? && !a.Return? && !a.Commit?
    ensures SameHistory(s, s')
    ensures forall f :: f in s'.executors && f != a.e ==> f in s.executors && s'.executors[f] == s.executors[f]
    ensures a.e in s'.executors ==> !Working(s'.executors[a.e].pc)
  {
    hide Presentable, BoundEffects;
  }

  lemma {:induction false} AfterRefines(c: Config, o: Oracle, s: System, schedule: seq<Action>)
    requires Inv(c, s) && Refines(c, o, s) && Possible(c, s, schedule) && FollowsAll(c, o, s, schedule)
    ensures Refines(c, o, After(c, s, schedule)) && Inv(c, After(c, s, schedule))
    decreases |schedule|
  {
    hide Inv, Refines, Next, Follows;
    if schedule != [] {
      var s' := Next(c, s, schedule[0]).value;
      NextRefines(c, o, s, schedule[0], s');
      NextKeeps(c, s, schedule[0]);
      AfterRefines(c, o, s', schedule[1..]);
    }
  }

  // ---------------------------------------------------------------- theorems

  /** A state that a schedule leads to with the tools replying as the oracle does. */
  ghost predicate ReachedWith(c: Config, o: Oracle, schedule: seq<Action>, s: System) {
    Reached(c, schedule, s) && FollowsAll(c, o, Init(c), schedule)
  }

  /** Whatever crashed and whatever recovered on the way: the invocations that returned
      are the first ones of the uninterrupted run; and a run that has an exit code has
      exactly the uninterrupted run's code, invocations and rows. */
  lemma CrashRefinement(c: Config, o: Oracle, schedule: seq<Action>, s: System)
    requires ReachedWith(c, o, schedule, s)
    ensures Completed(s.trace) <= Uninterrupted(c, o).trace
    ensures s.run.exitCode.Some? ==> Uninterrupted(c, o) == Final(s.run.exitCode.value, s.trace, s.run.effects)
    ensures AllSucceeded(c, s) ==> Uninterrupted(c, o) == Final(0, s.trace, s.run.effects)
  {
    hide *;
    ReachedBoth(c, o, schedule, s);
    RefinesShared(c, o, s);
    OneVerdict(c, s);
    SuccessResidue(c, o, s);
  }

  lemma ReachedBoth(c: Config, o: Oracle, schedule: seq<Action>, s: System)
    requires ReachedWith(c, o, schedule, s)
    ensures Inv(c, s) && Refines(c, o, s)
  {
    hide Refines, Inv, After, Possible, FollowsAll, Init, Committable;
    InitInv(c);
    InitRefines(c, o);
    AfterRefines(c, o, Init(c), schedule);
  }

  lemma SuccessResidue(c: Config, o: Oracle, s: System)
    requires SharedResidue(c, o, s)
    ensures Completed(s.trace) <= Uninterrupted(c, o).trace
    ensures AllSucceeded(c, s) ==> Uninterrupted(c, o) == Final(0, s.trace, s.run.effects)
    ensures Failed(s) ==> Uninterrupted(c, o) == Final(1, s.trace, s.run.effects)
  {
    hide Uninterrupted, AttemptFrom;
  }

  /** Any two histories of one request that end agree on everything durable, so a history
      with crashes agrees with one without. */
  lemma EndedHistoriesAgree(c: Config, o: Oracle, one: seq<Action>, s: System, other: seq<Action>, t: System)
    requires ReachedWith(c, o, one, s) && ReachedWith(c, o, other, t)
    requires s.run.exitCode.Some? && t.run.exitCode.Some?
    ensures s.run.exitCode == t.run.exitCode && s.trace == t.trace && s.run.effects == t.run.effects
  {
    hide *;
    CrashRefinement(c, o, one, s);
    CrashRefinement(c, o, other, t);
  }
}
