/** What the rows of a run say about what its tools replied. */
module LedgerReplies {
  import opened Json
  import opened Plans
  import opened Binding
  import opened EffectLedger
  import opened ToolCalls
  import opened LedgerSystem
  import opened LedgerInvariant
  import opened LedgerPreservation
  import opened LedgerWork
  import opened LedgerSafety
  import opened LedgerOutcome
  import opened CrashRefinement
  import BT = BindingTheorems
  import Utf8

  // ------------------------------------------------- replies and results, outright

  /** A tool's output as an object: a dict as it is, anything else under "output". */
  function AsObject(output: Json): Json {
    if output.Obj? then output else Obj([Field("output", output)])
  }

  /** Its compact UTF-8 text is within 10 MiB. */
  ghost predicate WithinLimit(value: Json) {
    |Utf8.Encode(Print(COMPACT, value))| <= 10_485_760
  }

  /** The reply is an output that can be recorded, and this is what is recorded for it. */
  ghost predicate Yields(reply: Reply, value: Json) {
    reply.Returned? && value == AsObject(reply.output) && WithinLimit(value)
  }

  /** The reply is no such output: an error is recorded instead, saying why. */
  ghost predicate Fails(tool: string, reply: Reply, message: string) {
    match reply
    case Returned(output) => !WithinLimit(AsObject(output)) && message == tool + " output exceeds 10 MiB"
    case NotJson(reason) => message == tool + " returned non-JSON output: " + reason
    case Raised(own) => message == own
    case TimedOut => message == tool + " exceeded 300s"
  }

  function ErrorText(message: string): string {
    Print(COMPACT, Obj([Field("error", Str(message))]))
  }

  /** A row with an outcome records just what the reply was. */
  ghost predicate Records(tool: string, row: Row, reply: Reply) {
    || (row.state == Succeeded && exists value :: Yields(reply, value) && row.result == Some(Print(COMPACT, value)))
    || (row.state == FailedUnknown && exists message :: Fails(tool, reply, message) && row.result == Some(ErrorText(message)))
  }

  lemma YieldsOrFails(tool: string, reply: Reply)
    ensures !((exists value :: Yields(reply, value)) && exists message :: Fails(tool, reply, message))
  {
    hide WithinLimit;
  }

  /** The executor's reading of a reply is this one. */
  lemma SettleExact(tool: string, reply: Reply)
    ensures Settle(tool, reply).Good? ==> Yields(reply, Settle(tool, reply).value)
    ensures Settle(tool, reply).Bad? ==> Fails(tool, reply, Settle(tool, reply).message)
    ensures ResultText(Settle(tool, reply)) ==
            if Settle(tool, reply).Good? then Print(COMPACT, Settle(tool, reply).value) else ErrorText(Settle(tool, reply).message)
  {
    hide Print, Utf8.Encode;
  }

  // ---------------------------------------------------------------- the last call

  /** The newest invocation of a step. */
  function LastOf(trace: seq<Call>, i: nat): Option<Call> {
    if trace == [] then None
    else if trace[|trace| - 1].step == i then Some(trace[|trace| - 1])
    else LastOf(trace[..|trace| - 1], i)
  }

  /** The newest invocation of a step is in the trace, with none of the step after it. */
  lemma {:induction false} LastIsLast(trace: seq<Call>, i: nat)
    ensures LastOf(trace, i).None? ==> forall t :: 0 <= t < |trace| ==> trace[t].step != i
    ensures LastOf(trace, i).Some? ==>
              exists t :: 0 <= t < |trace| && trace[t] == LastOf(trace, i).value && trace[t].step == i &&
                forall u :: t < u < |trace| ==> trace[u].step != i
  {
    if trace != [] && trace[|trace| - 1].step != i {
      var front := trace[..|trace| - 1];
      LastIsLast(front, i);
      if LastOf(front, i).Some? {
        var t :| 0 <= t < |front| && front[t] == LastOf(front, i).value && front[t].step == i &&
                 forall u :: t < u < |front| ==> front[u].step != i;
        assert trace[t] == front[t] && forall u :: t < u < |front| ==> trace[u] == front[u];
      }
    }
  }

  /** An invocation may be repeated only if it raised or timed out. */
  ghost predicate Interrupted(reply: Reply) {
    reply.Raised? || reply.TimedOut?
  }

  /** The row of a step agrees with its newest invocation; an interrupted one ends the step
      only when all attempts are used. */
  ghost predicate RowTold(c: Config, trace: seq<Call>, i: nat, row: Row) {
    Terminal(row) ==>
      && LastOf(trace, i).Some? && LastOf(trace, i).value.reply.Some?
      && Records(StepName(c.request, i), row, LastOf(trace, i).value.reply.value)
      && (Interrupted(LastOf(trace, i).value.reply.value) ==> LastOf(trace, i).value.attempt == Allowed(c.request, i))
  }

  /** A row still dispatching holds nothing, or the error of an interrupted invocation. */
  ghost predicate ErrorSaved(tool: string, trace: seq<Call>, i: nat, row: Row) {
    row.state == Dispatching && row.result.Some? ==> exists t :: SavedFrom(tool, trace, t, i, row.result.value)
  }

  ghost predicate SavedFrom(tool: string, trace: seq<Call>, t: int, i: nat, text: string) {
    && 0 <= t < |trace| && trace[t].step == i && trace[t].reply.Some? && Interrupted(trace[t].reply.value)
    && exists message :: Fails(tool, trace[t].reply.value, message) && text == ErrorText(message)
  }

  ghost predicate Told(c: Config, s: System) {
    forall i :: i in s.run.effects ==> RowTold(c, s.trace, i, s.run.effects[i]) && ErrorSaved(StepName(c.request, i), s.trace, i, s.run.effects[i])
  }

  // --------------------------------------------------------------- preservation

  lemma InitTold(c: Config)
    requires Committable(c)
    ensures Told(c, Init(c))
  {
    hide Committable, Bind, RowTold, ErrorSaved;
    CommittedMeans(c);
    FreshRows(c);
    forall i | i in Init(c).run.effects
      ensures RowTold(c, Init(c).trace, i, Init(c).run.effects[i]) && ErrorSaved(StepName(c.request, i), Init(c).trace, i, Init(c).run.effects[i])
    {
      BlankTold(c, Init(c).trace, i, Init(c).run.effects[i]);
    }
  }

  lemma BlankTold(c: Config, trace: seq<Call>, i: nat, row: Row)
    requires !Terminal(row) && row.result == None
    ensures RowTold(c, trace, i, row) && ErrorSaved(StepName(c.request, i), trace, i, row)
  {
  }

  /** A dispatch writes a row with nothing in it. */
  lemma SendTold(c: Config, s: System, s': System, i: nat)
    requires Told(c, s) && i in s.run.effects && s.run.effects[i] == Row(IntentRecorded, None)
    requires s'.trace == s.trace && s'.run.effects == s.run.effects[i := s.run.effects[i].(state := Dispatching)]
    ensures Told(c, s')
  {
    hide RowTold, ErrorSaved;
    BlankTold(c, s'.trace, i, s'.run.effects[i]);
  }

  /** An invocation of the open step is none of a step with an outcome. */
  lemma EnterTold(c: Config, s: System, s': System, call: Call)
    requires Told(c, s) && Open(s, call.step) && s'.run == s.run && s'.trace == s.trace + [call]
    ensures Told(c, s')
  {
    hide RowTold, ErrorSaved;
    forall j | j in s'.run.effects
      ensures RowTold(c, s'.trace, j, s'.run.effects[j]) && ErrorSaved(StepName(c.request, j), s'.trace, j, s'.run.effects[j])
    {
      assert s'.trace[..|s.trace|] == s.trace;
      RowUntouched(c, s.trace, s'.trace, j, s.run.effects[j], call.step);
      SavedKept(StepName(c.request, j), s.trace, s'.trace, j, s.run.effects[j]);
    }
  }

  lemma RowUntouched(c: Config, trace: seq<Call>, trace': seq<Call>, j: nat, row: Row, i: nat)
    requires RowTold(c, trace, j, row) && (j == i ==> !Terminal(row))
    requires |trace'| > 0 && trace'[|trace'| - 1].step == i && j != i ==> LastOf(trace'[..|trace'| - 1], j) == LastOf(trace, j)
    requires |trace'| > 0 && trace'[|trace'| - 1].step == i
    ensures RowTold(c, trace', j, row)
  {
    hide Records, Allowed, Interrupted;
  }

  lemma SavedKept(tool: string, trace: seq<Call>, trace': seq<Call>, j: nat, row: Row)
    requires ErrorSaved(tool, trace, j, row)
    requires forall t :: 0 <= t < |trace| && trace[t].reply.Some? ==> t < |trace'| && trace'[t] == trace[t]
    ensures ErrorSaved(tool, trace', j, row)
  {
    hide Fails, ErrorText, Interrupted;
    if row.state == Dispatching && row.result.Some? {
      var t :| SavedFrom(tool, trace, t, j, row.result.value);
      assert SavedFrom(tool, trace', t, j, row.result.value);
    }
  }

  lemma ReturnTold(c: Config, s: System, s': System, i: nat, a: nat, reply: Reply)
    requires Told(c, s) && Open(s, i) && |s.trace| > 0 && s.trace[|s.trace| - 1] == Call(i, a, None)
    requires s'.run == s.run && s'.trace == s.trace[|s.trace| - 1 := Call(i, a, Some(reply))]
    ensures Told(c, s')
  {
    hide RowTold, ErrorSaved;
    var n := |s.trace|;
    forall j | j in s'.run.effects
      ensures RowTold(c, s'.trace, j, s'.run.effects[j]) && ErrorSaved(StepName(c.request, j), s'.trace, j, s'.run.effects[j])
    {
      assert s'.trace[..n - 1] == s.trace[..n - 1];
      RowUntouched(c, s.trace, s'.trace, j, s.run.effects[j], i);
      SavedKept(StepName(c.request, j), s.trace, s'.trace, j, s.run.effects[j]);
    }
  }

  /** The error saved before another attempt is that of the invocation just made. */
  lemma RetryTold(c: Config, s: System, s': System, e: nat, ex: Executor, i: nat, a: nat, tool: string, reply: Reply)
    requires Told(c, s) && |s.trace| > 0 && s.trace[|s.trace| - 1] == Call(i, a, Some(reply)) && Retryable(reply)
    requires tool == StepName(c.request, i)
    requires Retries(s, s', e, ex, i, a, ResultText(Settle(tool, reply)))
    ensures Told(c, s')
  {
    hide RowTold, ErrorSaved, Settle, ResultText, Fails, ErrorText;
    SettleExact(tool, reply);
    RetrySaved(s.trace, i, a, tool, reply, s'.run.effects[i]);
    forall j | j in s'.run.effects
      ensures RowTold(c, s'.trace, j, s'.run.effects[j]) && ErrorSaved(StepName(c.request, j), s'.trace, j, s'.run.effects[j])
    {
      if j == i {
        OpenTold(c, s'.trace, i, s'.run.effects[i]);
      }
    }
  }

  lemma OpenTold(c: Config, trace: seq<Call>, i: nat, row: Row)
    requires !Terminal(row)
    ensures RowTold(c, trace, i, row)
  {
  }

  lemma RetrySaved(trace: seq<Call>, i: nat, a: nat, tool: string, reply: Reply, row: Row)
    requires |trace| > 0 && trace[|trace| - 1] == Call(i, a, Some(reply)) && Retryable(reply)
    requires row == Row(Dispatching, Some(ResultText(Settle(tool, reply))))
    ensures ErrorSaved(tool, trace, i, row)
  {
    SettleExact(tool, reply);
    hide ResultText, ErrorText, Normalize;
    assert Settle(tool, reply).Bad?;
    assert SavedFrom(tool, trace, |trace| - 1, i, row.result.value);
  }

  /** The outcome committed is what the newest invocation came back with. */
  lemma EndTold(c: Config, s: System, s': System, e: nat, ex': Executor, i: nat, a: nat, reply: Reply, event: Event)
    requires Told(c, s) && |s.trace| > 0 && s.trace[|s.trace| - 1] == Call(i, a, Some(reply))
    requires Retryable(reply) ==> a == Allowed(c.request, i)
    requires event.step == i && event.result == ResultText(Settle(StepName(c.request, i), reply))
    requires Ends(s, s', e, ex', event, Settle(StepName(c.request, i), reply).Good?)
    ensures Told(c, s')
  {
    hide RowTold, ErrorSaved, Settle, ResultText, StepName, Allowed;
    forall j | j in s'.run.effects
      ensures RowTold(c, s'.trace, j, s'.run.effects[j]) && ErrorSaved(StepName(c.request, j), s'.trace, j, s'.run.effects[j])
    {
      if j == i {
        EndRowTold(c, s.trace, i, a, reply, s'.run.effects[i]);
        ClosedSaved(StepName(c.request, i), s'.trace, i, s'.run.effects[i]);
      }
    }
  }

  lemma ClosedSaved(tool: string, trace: seq<Call>, i: nat, row: Row)
    requires Terminal(row)
    ensures ErrorSaved(tool, trace, i, row)
  {
  }

  lemma EndRowTold(c: Config, trace: seq<Call>, i: nat, a: nat, reply: Reply, row: Row)
    requires |trace| > 0 && trace[|trace| - 1] == Call(i, a, Some(reply))
    requires Retryable(reply) ==> a == Allowed(c.request, i)
    requires var outcome := Settle(StepName(c.request, i), reply);
             row == Row(if outcome.Good? then Succeeded else FailedUnknown, Some(ResultText(outcome)))
    ensures RowTold(c, trace, i, row)
  {
    SettleExact(StepName(c.request, i), reply);
    hide Settle, ResultText, StepName, Allowed, Yields, Fails, ErrorText, Print;
  }

  // ------------------------------------------------------------------ every step

  lemma NextTold(c: Config, s: System, a: Action, s': System)
    requires Inv(c, s) && Told(c, s) && Next(c, s, a) == Some(s')
    ensures Told(c, s')
  {
    hide Inv, Told, Next;
    match a
    case Send(e) => SendKeepsTold(c, s, e, s');
    case Enter(e) => EnterKeepsTold(c, s, e, s');
    case Return(e, reply) => ReturnKeepsTold(c, s, e, reply, s');
    case Commit(e) => CommitKeepsTold(c, s, e, s');
    case _ =>
      PrivateAction(c, s, a, s');
      SameTold(c, s, s');
  }

  lemma SameTold(c: Config, s: System, s': System)
    requires Told(c, s) && SameHistory(s, s')
    ensures Told(c, s')
  {
    hide RowTold, ErrorSaved;
  }

  lemma SendKeepsTold(c: Config, s: System, e: nat, s': System)
    requires Inv(c, s) && Told(c, s) && Next(c, s, Send(e)) == Some(s')
    ensures Told(c, s')
  {
    hide Inv, Told, Local, Admitted, Progress, Rows;
    var ex := s.executors[e];
    var i := ex.pc.i;
    if DispatchEffect(s.run, i).Refuse? {
      SameTold(c, s, s');
    } else {
      LocalOf(c, s, e);
      OtherwiseMeans(c, s, e, ex);
      AtStepProgress(c, s, e, ex);
      InvParts(c, s);
      NextToDispatch(c, s, ex, i);
      IntentBlank(c, s, i);
      SendTold(c, s, s', i);
    }
  }

  lemma EnterKeepsTold(c: Config, s: System, e: nat, s': System)
    requires Inv(c, s) && Told(c, s) && Next(c, s, Enter(e)) == Some(s')
    ensures Told(c, s')
  {
    hide Inv, Told, Local, Open, Completed;
    var ex := s.executors[e];
    LocalOf(c, s, e);
    CallingComplete(c, s, e, ex);
    EnterTold(c, s, s', Call(ex.pc.i, ex.pc.attempt, None));
  }

  lemma ReturnKeepsTold(c: Config, s: System, e: nat, reply: Reply, s': System)
    requires Inv(c, s) && Told(c, s) && Next(c, s, Return(e, reply)) == Some(s')
    ensures Told(c, s')
  {
    hide Inv, Told, Local, Open;
    var ex := s.executors[e];
    LocalOf(c, s, e);
    InsideLast(c, s, e, ex);
    InsideCall(c, s, e, ex);
    ReturnTold(c, s, s', ex.pc.i, ex.pc.attempt, reply);
  }

  lemma InsideCall(c: Config, s: System, e: nat, ex: Executor)
    requires Local(c, s, e, ex) && ex.pc.Inside?
    ensures |s.trace| > 0 && s.trace[|s.trace| - 1] == Call(ex.pc.i, ex.pc.attempt, None)
  {
    hide Admitted, Progress, Open, Allowed;
  }

  lemma CommitKeepsTold(c: Config, s: System, e: nat, s': System)
    requires Inv(c, s) && Told(c, s) && Next(c, s, Commit(e)) == Some(s')
    ensures Told(c, s')
  {
    hide Inv, Told, Local, Open, Agrees, CommitStep, Settle, ResultText, Print, StepName, StepArgs, Allowed, Retryable, Retries, Ends;
    var ex := s.executors[e];
    var Back(i, a, reply) := ex.pc;
    LocalOf(c, s, e);
    BackLast(c, s, e, ex);
    BackWithin(c, s, e, ex);
    EventContent(c, ex.request, i);
    CommitCases(c, s, e, ex, i, a, reply);
    var outcome := Settle(StepName(c.request, i), reply);
    var event := Event(i, StepName(c.request, i), Print(COMPACT, Obj(StepArgs(ex.request, i))), ResultText(outcome));
    if Retryable(reply) && a < Allowed(c.request, i) {
      RetryTold(c, s, s', e, ex, i, a, StepName(c.request, i), reply);
    } else {
      match outcome
      case Good(value) =>
        EndTold(c, s, s', e, ex.(pc := AtStep(i + 1), results := ex.results + [value]), i, a, reply, event);
      case Bad(_) =>
        EndTold(c, s, s', e, ex.(pc := Finishing(1)), i, a, reply, event);
    }
  }

  lemma BackWithin(c: Config, s: System, e: nat, ex: Executor)
    requires Local(c, s, e, ex) && ex.pc.Back?
    ensures ex.pc.attempt <= Allowed(c.request, ex.pc.i)
  {
    hide Agrees, Progress, Open, Allowed;
  }

  lemma {:induction false} AfterTold(c: Config, s: System, schedule: seq<Action>)
    requires Inv(c, s) && Told(c, s) && Possible(c, s, schedule)
    ensures Told(c, After(c, s, schedule))
    decreases |schedule|
  {
    hide Inv, Told, Next;
    if schedule != [] {
      NextTold(c, s, schedule[0], Next(c, s, schedule[0]).value);
      NextKeeps(c, s, schedule[0]);
      AfterTold(c, Next(c, s, schedule[0]).value, schedule[1..]);
    }
  }

  // ---------------------------------------------------------------- theorems

  /** A trace in which every repeated attempt directly follows the one before it. */
  ghost predicate Chained(c: Config, trace: seq<Call>) {
    Ordered(c, trace) && forall t :: 0 <= t < |trace| ==> RetryFollows(trace, t)
  }

  lemma ChainedPrefix(c: Config, trace: seq<Call>)
    requires Chained(c, trace) && trace != []
    ensures Chained(c, trace[..|trace| - 1])
  {
    OrderedPrefix(c, trace);
    hide Ordered, Retryable;
    var front := trace[..|trace| - 1];
    forall t | 0 <= t < |front| ensures RetryFollows(front, t) {
      assert RetryFollows(trace, t);
    }
  }

  /** The attempt number of a step's newest invocation is the number of its invocations. */
  lemma {:induction false} AttemptsCounted(c: Config, trace: seq<Call>, i: nat)
    requires Chained(c, trace)
    ensures CallsOf(trace, i) == if LastOf(trace, i).Some? then LastOf(trace, i).value.attempt else 0
  {
    if trace != [] {
      var front := trace[..|trace| - 1];
      ChainedPrefix(c, trace);
      AttemptsCounted(c, front, i);
      if trace[|front|].step == i {
        NewestFollows(c, trace, i);
      }
    }
  }

  lemma NewestFollows(c: Config, trace: seq<Call>, i: nat)
    requires Chained(c, trace) && trace != [] && trace[|trace| - 1].step == i
    ensures var before := LastOf(trace[..|trace| - 1], i);
            trace[|trace| - 1].attempt == if before.Some? then before.value.attempt + 1 else 1
  {
    hide Allowed, Retryable;
    var n := |trace| - 1;
    var front := trace[..n];
    assert RetryFollows(trace, n);
    LastIsLast(front, i);
    if LastOf(front, i).Some? {
      var t :| 0 <= t < |front| && front[t] == LastOf(front, i).value && front[t].step == i;
      assert Earlier(trace[t], trace[n]);
    }
  }

  /** What the row of a step says, given the newest invocation of the step: it succeeded if
      and only if the tool returned an output within the limit, and then holds that output;
      otherwise it failed, and holds why. */
  ghost predicate OutcomeTold(tool: string, row: Row, call: Call) {
    && call.reply.Some?
    && (row.state == Succeeded <==> exists value :: Yields(call.reply.value, value))
    && (row.state == FailedUnknown <==> exists message :: Fails(tool, call.reply.value, message))
    && (forall value :: Yields(call.reply.value, value) ==> row.result == Some(Print(COMPACT, value)))
    && (forall message :: Fails(tool, call.reply.value, message) ==> row.result == Some(ErrorText(message)))
  }

  lemma RecordsOutcome(tool: string, row: Row, call: Call)
    requires Terminal(row) && call.reply.Some? && Records(tool, row, call.reply.value)
    ensures OutcomeTold(tool, row, call)
  {
    hide Print, WithinLimit, ErrorText;
    YieldsOrFails(tool, call.reply.value);
  }

  /** The newest invocation of a step, by position. */
  ghost predicate Newest(trace: seq<Call>, i: nat, t: int) {
    0 <= t < |trace| && trace[t].step == i && forall u :: t < u < |trace| ==> trace[u].step != i
  }

  /** In every reached state, the row of every step with an outcome is what the step's
      newest invocation came back with; and if that invocation raised or timed out, the
      tool has been invoked as often as it may be. */
  lemma RowsTellReplies(c: Config, schedule: seq<Action>, s: System, i: nat) returns (t: int)
    requires Reached(c, schedule, s) && i in s.run.effects && Terminal(s.run.effects[i])
    ensures Newest(s.trace, i, t) && OutcomeTold(StepName(c.request, i), s.run.effects[i], s.trace[t])
    ensures i < |c.request.plan.steps| && c.request.plan.steps[i].ToolCall? && c.request.plan.steps[i].name in c.request.registry
    ensures s.trace[t].reply.value.Raised? || s.trace[t].reply.value.TimedOut? ==>
              CallsOf(s.trace, i) == if c.request.registry[c.request.plan.steps[i].name].retrySafe then 3 else 1
  {
    hide *;
    ReachedInv(c, schedule, s);
    ReachedTold(c, schedule, s);
    ReachedCommittable(c, schedule, s);
    StepOfRow(c, s, i);
    ToolStepIs(c, i);
    AllowedIs(c, i);
    ToldParts(c, s, i);
    TraceChained(c, s);
    AttemptsCounted(c, s.trace, i);
    var last := LastOf(s.trace, i).value;
    RecordsOutcome(StepName(c.request, i), s.run.effects[i], last);
    t := NewestAt(s.trace, i);
    InterruptedMeans(last.reply.value);
  }

  /** Every row with an outcome is what the newest invocation of its step came back with. */
  ghost predicate Explained(c: Config, trace: seq<Call>, rows: map<nat, Row>) {
    forall i :: i in rows && Terminal(rows[i]) ==>
      exists t :: Newest(trace, i, t) && OutcomeTold(StepName(c.request, i), rows[i], trace[t])
  }

  lemma ReachedExplained(c: Config, schedule: seq<Action>, s: System)
    requires Reached(c, schedule, s)
    ensures Explained(c, s.trace, s.run.effects)
  {
    hide Reached, OutcomeTold, Terminal, StepName;
    forall i | i in s.run.effects && Terminal(s.run.effects[i])
      ensures exists t :: Newest(s.trace, i, t) && OutcomeTold(StepName(c.request, i), s.run.effects[i], s.trace[t])
    {
      var t := RowsTellReplies(c, schedule, s, i);
    }
  }

  lemma InterruptedMeans(reply: Reply)
    ensures reply.Raised? || reply.TimedOut? ==> Interrupted(reply)
  {
  }

  lemma NewestAt(trace: seq<Call>, i: nat) returns (t: int)
    requires LastOf(trace, i).Some?
    ensures Newest(trace, i, t) && trace[t] == LastOf(trace, i).value
  {
    LastIsLast(trace, i);
    t :| 0 <= t < |trace| && trace[t] == LastOf(trace, i).value && trace[t].step == i && forall u :: t < u < |trace| ==> trace[u].step != i;
  }

  lemma ReachedTold(c: Config, schedule: seq<Action>, s: System)
    requires Reached(c, schedule, s)
    ensures Told(c, s)
  {
    hide Inv, Told, After, LedgerSystem.Possible, Init, Committable;
    InitInv(c);
    InitTold(c);
    AfterTold(c, Init(c), schedule);
  }

  lemma StepOfRow(c: Config, s: System, i: nat)
    requires Inv(c, s) && i in s.run.effects
    ensures i < Tools(c)
  {
    hide Local, Committable, Bind, Events, Verdict, Trace, RecordedText;
  }

  lemma ToldParts(c: Config, s: System, i: nat)
    requires Told(c, s) && i in s.run.effects && Terminal(s.run.effects[i])
    ensures LastOf(s.trace, i).Some? && LastOf(s.trace, i).value.reply.Some?
    ensures Records(StepName(c.request, i), s.run.effects[i], LastOf(s.trace, i).value.reply.value)
    ensures Interrupted(LastOf(s.trace, i).value.reply.value) ==> LastOf(s.trace, i).value.attempt == Allowed(c.request, i)
  {
    hide Records, StepName, Allowed, Interrupted, ErrorSaved;
    assert RowTold(c, s.trace, i, s.run.effects[i]);
  }

  lemma TraceChained(c: Config, s: System)
    requires Inv(c, s)
    ensures Chained(c, s.trace)
  {
    hide Local, Committable, Bind, Rows, Events, Verdict, Allowed, Earlier, RetryFollows, Open;
  }

  /** A row still dispatching holds nothing, or the error of an invocation of its step that
      raised or timed out. */
  lemma SavedErrorIsReal(c: Config, schedule: seq<Action>, s: System, i: nat)
    requires Reached(c, schedule, s) && i in s.run.effects
    requires s.run.effects[i].state == Dispatching && s.run.effects[i].result.Some?
    ensures exists t :: SavedFrom(StepName(c.request, i), s.trace, t, i, s.run.effects[i].result.value)
  {
    hide Reached, RowTold, SavedFrom, StepName;
    ReachedTold(c, schedule, s);
    assert ErrorSaved(StepName(c.request, i), s.trace, i, s.run.effects[i]);
  }

  // -------------------------------------------------------------- handing over rows

  /** There is exactly one row for every call of the plan. */
  ghost predicate RowsOfCalls(rows: map<nat, Row>, plan: Plan) {
    && (forall i :: i in rows ==> i < |plan.steps| && plan.steps[i].ToolCall?)
    && (forall i: nat :: i < |plan.steps| && plan.steps[i].ToolCall? ==> i in rows)
  }

  lemma KeysOfCalls(rows: map<nat, Row>, plan: Plan)
    ensures rows.Keys == ToolSteps(plan) <==> RowsOfCalls(rows, plan)
  {
    if RowsOfCalls(rows, plan) {
      assert forall i :: i in rows.Keys <==> i in ToolSteps(plan);
    }
  }

  /** The rows are handed over if and only if the stored binding admits the request and
      there is exactly one row for every call of the plan. */
  lemma RowsHandedOver(sha: Hash, run: Run, r: Request)
    ensures var answer := BoundEffects(sha, run, r.plan, r.registry, r.authorization);
            && (answer.Accept? <==> BT.Admits(sha, run.bound, r.plan, r.registry, r.authorization) && RowsOfCalls(run.effects, r.plan))
            && (answer.Accept? ==> answer.value == run.effects)
            && (BT.Admits(sha, run.bound, r.plan, r.registry, r.authorization) && answer.Refuse? ==> answer.reason == LedgerIncomplete)
  {
    hide CheckBinding, BT.Admits, RowsOfCalls, ToolSteps;
    BT.AdmitsExactly(sha, run.bound, r.plan, r.registry, r.authorization);
    KeysOfCalls(run.effects, r.plan);
  }
}
