/** Extending a schedule by one action. */
module Schedules {
  import opened Json
  import opened LedgerSystem
  import opened LedgerSafety
  import opened LedgerInvariant
  import opened LedgerWork
  import opened CrashRefinement
  import EffectLedger
  import ToolCalls

  lemma {:induction false} Extend(c: Config, o: Oracle, s: System, schedule: seq<Action>, a: Action, s': System)
    requires Possible(c, s, schedule) && FollowsAll(c, o, s, schedule)
    requires Next(c, After(c, s, schedule), a) == Some(s') && Follows(o, After(c, s, schedule), a)
    ensures Possible(c, s, schedule + [a]) && FollowsAll(c, o, s, schedule + [a])
    ensures After(c, s, schedule + [a]) == s'
    decreases |schedule|
  {
    hide Next, Follows;
    if schedule == [] {
      assert schedule + [a] == [a] && [a][1..] == [];
    } else {
      assert (schedule + [a])[1..] == schedule[1..] + [a];
      Extend(c, o, Next(c, s, schedule[0]).value, schedule[1..], a, s');
    }
  }

  lemma StepReached(c: Config, o: Oracle, schedule: seq<Action>, s: System, a: Action, s': System)
    requires ReachedWith(c, o, schedule, s) && Next(c, s, a) == Some(s') && Follows(o, s, a)
    ensures ReachedWith(c, o, schedule + [a], s')
  {
    hide Next, Follows, Possible, After, FollowsAll, Init, Committable;
    Extend(c, o, Init(c), schedule, a, s');
  }

  lemma NothingReached(c: Config, o: Oracle)
    requires Committable(c)
    ensures ReachedWith(c, o, [], Init(c)) && Init(c).trace == []
  {
    hide Committable;
  }

  lemma ReachedInvariant(c: Config, o: Oracle, schedule: seq<Action>, s: System)
    requires ReachedWith(c, o, schedule, s)
    ensures Inv(c, s) && Committable(c)
  {
    hide Inv, Committable, FollowsAll;
    ReachedInv(c, schedule, s);
  }

  // ------------------------------------------------ what each action amounts to

  ghost predicate Holder(s: System, e: nat, ex: LedgerSystem.Executor) {
    e in s.executors && s.executors[e] == ex
  }

  lemma NextCheck(c: Config, s: System, e: nat, ex: LedgerSystem.Executor)
    requires Holder(s, e, ex) && ex.pc.Checking?
    ensures Next(c, s, Check(e)) == Some(CheckStep(c, s, e, ex))
  {
    hide CheckStep;
  }

  lemma NextAdvance(c: Config, s: System, e: nat, ex: LedgerSystem.Executor)
    requires Holder(s, e, ex) && ex.pc.AtStep?
    ensures Next(c, s, Advance(e)) == AdvanceStep(s, e, ex) && Next(c, s, Send(e)) == SendStep(s, e, ex)
  {
    hide AdvanceStep, SendStep;
  }

  lemma NextEnter(c: Config, s: System, e: nat, ex: LedgerSystem.Executor, i: nat, a: nat)
    requires Holder(s, e, ex) && ex.pc == Calling(i, a)
    ensures Next(c, s, Enter(e)) == Some(At(s, e, ex.(pc := Inside(i, a, |s.trace|))).(trace := s.trace + [Call(i, a, None)]))
  {
  }

  lemma NextReturn(c: Config, s: System, e: nat, ex: LedgerSystem.Executor, i: nat, a: nat, at: nat, reply: ToolCalls.Reply)
    requires Holder(s, e, ex) && ex.pc == Inside(i, a, at) && at < |s.trace| && ToolCalls.WellFormedReply(reply)
    ensures Next(c, s, Return(e, reply)) == Some(At(s, e, ex.(pc := Back(i, a, reply))).(trace := s.trace[at := Call(i, a, Some(reply))]))
  {
    hide ToolCalls.WellFormedReply;
  }

  lemma NextCommit(c: Config, s: System, e: nat, ex: LedgerSystem.Executor)
    requires Holder(s, e, ex) && ex.pc.Back?
    ensures Next(c, s, Commit(e)) == Some(CommitStep(s, e, ex))
  {
    hide CommitStep;
  }

  lemma NextFinish(c: Config, s: System, e: nat, ex: LedgerSystem.Executor, code: int)
    requires Holder(s, e, ex) && ex.pc == Finishing(code)
    ensures Next(c, s, Finish(e)) == Some(At(s, e, ex.(pc := Done(code))).(run := EffectLedger.FinishRun(s.run, code)))
  {
  }

  lemma NextSpawn(c: Config, s: System, e: nat, request: Request)
    requires e !in s.executors && Presentable(c, request)
    ensures Next(c, s, Spawn(e, request)) == Some(At(s, e, Executor(request, Checking, map[], [])))
  {
    hide Presentable;
  }
}
