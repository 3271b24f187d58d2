/** Parallel dispatch of tasks in batches, with an optional human gate. */
module Swarm {

  datatype Status = Skipped | Running | Ok | Error

  /** A row of `swarm_runs`. The position of the task in the list stands for the task
      text and the process id, which the program takes from the same place. */
  datatype Record = Record(position: nat, status: Status)

  /** The operator's answer before a batch. */
  datatype Reply = Dispatch | Skip | Abort

  /** What a run depends on: the tasks (by number), the batch size, the operator's answer
      before the batch that starts at a position, and each process's exit code. */
  datatype Input = Input(count: nat, workers: int, humanLoop: bool, replies: seq<Reply>, codes: seq<int>) {
    /** An answer and an exit code for every position a batch or process can have. */
    predicate Complete() {
      |replies| == count && |codes| == count
    }

    function ReplyAt(start: nat): Reply
      requires Complete() && start < count
    {
      if humanLoop then replies[start] else Dispatch
    }

    function Outcome(position: nat): Status
      requires Complete() && position < count
    {
      if codes[position] == 0 then Ok else Error
    }

    function BatchEnd(start: nat): (end: nat)
      requires workers > 0 && start < count
      ensures start < end <= count && end - start <= workers
    {
      if start + workers < count then start + workers else count
    }
  }

  datatype Result = ValueError | Finished(failures: nat, records: seq<Record>)

  function Count(records: seq<Record>, status: Status): nat {
    if records == [] then 0
    else Count(records[..|records| - 1], status) + (if records[|records| - 1].status == status then 1 else 0)
  }

  /** The statuses recorded for one task, in order. */
  function History(records: seq<Record>, position: nat): seq<Status> {
    if records == [] then []
    else
      History(records[..|records| - 1], position) +
      (if records[|records| - 1].position == position then [records[|records| - 1].status] else [])
  }

  /** Processes started and not yet collected. */
  function Live(records: seq<Record>): int {
    Count(records, Running) - Count(records, Ok) - Count(records, Error)
  }

  /** The operator skips the batch the task is in, which starts at a multiple of the batch
      size. */
  ghost predicate Skips(input: Input, p: nat)
    requires input.Complete() && input.workers > 0 && p < input.count
  {
    input.humanLoop && input.replies[p - p % input.workers] == Skip
  }

  /** What a task's records say once its batch is over: skipped exactly if the operator
      said so, otherwise run, and ended by its own exit code. */
  ghost predicate Settled(input: Input, records: seq<Record>, p: nat)
    requires input.Complete() && input.workers > 0 && p < input.count
  {
    History(records, p) ==
      if Skips(input, p) then [Skipped] else if input.codes[p] == 0 then [Running, Ok] else [Running, Error]
  }

  /** Every task of a batch is in the batch that starts where it starts. */
  lemma InBatch(start: nat, p: nat, workers: int)
    requires workers > 0 && start % workers == 0 && start <= p < start + workers
    ensures p - p % workers == start
  {
    var k := start / workers;
    assert start == k * workers;
    assert p == k * workers + (p - start);
    Remainder(k, p - start, workers);
  }

  lemma Remainder(k: nat, r: nat, workers: int)
    requires workers > 0 && r < workers
    ensures (k * workers + r) % workers == r
  {
    var x := k * workers + r;
    var q, m := x / workers, x % workers;
    assert q * workers + m == x;
    Multiple(k, q, workers, m - r);
  }

  /** A difference smaller than the modulus is no multiple of it but zero. */
  lemma Multiple(k: int, q: int, workers: int, d: int)
    requires workers > 0 && k * workers - q * workers == d && -workers < d < workers
    ensures d == 0
  {
    assert k * workers - q * workers == (k - q) * workers;
    assert q * workers - k * workers == (q - k) * workers;
    if k > q {
      AtLeast(k - q, workers);
    } else if k < q {
      AtLeast(q - k, workers);
    }
  }

  lemma AtLeast(n: int, workers: int)
    requires n >= 1 && workers > 0
    ensures n * workers >= workers
  {
  }

  /** At no moment have more processes been started than collected by more than the
      number of workers. */
  ghost predicate Bounded(records: seq<Record>, workers: int) {
    forall k :: 0 <= k <= |records| ==> 0 <= Live(records[..k]) <= workers
  }

  lemma Append(records: seq<Record>, record: Record)
    ensures forall status :: Count(records + [record], status) == Count(records, status) + (if record.status == status then 1 else 0)
    ensures forall p :: p != record.position ==> History(records + [record], p) == History(records, p)
    ensures History(records + [record], record.position) == History(records, record.position) + [record.status]
  {
    var all := records + [record];
    assert all[..|records|] == records;
    forall p | p != record.position ensures History(all, p) == History(records, p) {
      assert History(all, p) == History(all[..|records|], p) + [];
    }
  }

  lemma AppendBounded(records: seq<Record>, record: Record, workers: int)
    requires Bounded(records, workers) && 0 <= Live(records + [record]) <= workers
    ensures Bounded(records + [record], workers)
  {
    var all := records + [record];
    forall k | 0 <= k <= |all| ensures 0 <= Live(all[..k]) <= workers {
      if k <= |records| {
        assert all[..k] == records[..k];
      } else {
        assert all[..k] == all;
      }
    }
  }

  /** The state between batches. */
  ghost predicate BatchBoundary(input: Input, records: seq<Record>, start: nat, failures: nat)
    requires input.Complete() && input.workers > 0
  {
    && start <= input.count
    && (forall p :: 0 <= p < start ==> Settled(input, records, p))
    && (forall p :: start <= p < input.count ==> History(records, p) == [])
    && (forall record :: record in records ==> record.position < start)
    && failures == Count(records, Error)
    && Count(records, Running) + Count(records, Skipped) == start
    && Live(records) == 0
    && Bounded(records, input.workers)
  }

  /** The batch from `start` to `end` has been started and the tasks before `next` have
      been collected. */
  ghost predicate MidBatch(input: Input, records: seq<Record>, start: nat, next: nat, started: nat, failures: nat)
    requires input.Complete() && input.workers > 0
  {
    && start <= next <= started <= input.count
    && (forall p :: 0 <= p < next ==> Settled(input, records, p))
    && (forall p :: next <= p < started ==> History(records, p) == [Running])
    && (forall p :: started <= p < input.count ==> History(records, p) == [])
    && (forall record :: record in records ==> record.position < started)
    && failures == Count(records, Error)
    && Count(records, Running) + Count(records, Skipped) == started
    && Live(records) == started - next
    && Bounded(records, input.workers)
  }

  lemma SkipStep(input: Input, records: seq<Record>, p: nat, failures: nat)
    requires input.Complete() && input.workers > 0 && p < input.count && Skips(input, p)
    requires BatchBoundary(input, records, p, failures)
    ensures BatchBoundary(input, records + [Record(p, Skipped)], p + 1, failures)
  {
    hide History, Count, Bounded;
    Append(records, Record(p, Skipped));
    AppendBounded(records, Record(p, Skipped), input.workers);
    var all := records + [Record(p, Skipped)];
    assert History(all, p) == [Skipped];
    assert forall q :: 0 <= q < p ==> Settled(input, records, q) && History(all, q) == History(records, q);
  }

  lemma StartStep(input: Input, records: seq<Record>, start: nat, p: nat, failures: nat)
    requires input.Complete() && input.workers > 0 && p < input.count && p - start < input.workers
    requires MidBatch(input, records, start, start, p, failures)
    ensures MidBatch(input, records + [Record(p, Running)], start, start, p + 1, failures)
  {
    hide History, Count, Bounded;
    Append(records, Record(p, Running));
    AppendBounded(records, Record(p, Running), input.workers);
    var all := records + [Record(p, Running)];
    assert History(all, p) == [Running];
    assert forall q :: 0 <= q < start ==> Settled(input, records, q) && History(all, q) == History(records, q);
  }

  lemma CollectStep(input: Input, records: seq<Record>, start: nat, p: nat, end: nat, failures: nat)
    requires input.Complete() && input.workers > 0 && p < end && end - start <= input.workers
    requires MidBatch(input, records, start, p, end, failures) && !Skips(input, p)
    ensures MidBatch(input, records + [Record(p, input.Outcome(p))], start, p + 1, end,
                     failures + (if input.Outcome(p) == Error then 1 else 0))
  {
    hide History, Count, Bounded;
    Append(records, Record(p, input.Outcome(p)));
    AppendBounded(records, Record(p, input.Outcome(p)), input.workers);
    var all := records + [Record(p, input.Outcome(p))];
    assert History(all, p) == [Running, input.Outcome(p)];
    assert forall q :: 0 <= q < p ==> Settled(input, records, q) && History(all, q) == History(records, q);
  }

  /** A refused batch: one "skipped" row a task. */
  method SkipBatch(input: Input, start: nat, end: nat, before: seq<Record>, ghost failures: nat) returns (records: seq<Record>)
    requires input.Complete() && input.workers > 0 && start < input.count && end == input.BatchEnd(start)
    requires BatchBoundary(input, before, start, failures) && start % input.workers == 0
    requires input.humanLoop && input.replies[start] == Skip
    ensures BatchBoundary(input, records, end, failures)
  {
    records := before;
    var p := start;
    while p < end
      invariant start <= p <= end && BatchBoundary(input, records, p, failures)
    {
      InBatch(start, p, input.workers);
      SkipStep(input, records, p, failures);
      records := records + [Record(p, Skipped)];
      p := p + 1;
    }
  }

  /** Start every process of the batch before waiting for any. */
  method StartBatch(input: Input, start: nat, end: nat, before: seq<Record>, ghost failures: nat) returns (records: seq<Record>)
    requires input.Complete() && input.workers > 0 && start < input.count && end == input.BatchEnd(start)
    requires BatchBoundary(input, before, start, failures)
    ensures MidBatch(input, records, start, start, end, failures)
  {
    records := before;
    var p := start;
    while p < end
      invariant start <= p <= end && MidBatch(input, records, start, start, p, failures)
    {
      StartStep(input, records, start, p, failures);
      records := records + [Record(p, Running)];
      p := p + 1;
    }
  }

  /** Wait for the processes in order and record how each ended. */
  method CollectBatch(input: Input, start: nat, end: nat, before: seq<Record>, failed: nat)
    returns (failures: nat, records: seq<Record>)
    requires input.Complete() && input.workers > 0 && start < input.count && end == input.BatchEnd(start)
    requires MidBatch(input, before, start, start, end, failed) && start % input.workers == 0
    requires input.humanLoop ==> input.replies[start] != Skip
    ensures BatchBoundary(input, records, end, failures)
  {
    records, failures := before, failed;
    var p := start;
    while p < end
      invariant start <= p <= end && MidBatch(input, records, start, p, end, failures)
    {
      var status := input.Outcome(p);
      InBatch(start, p, input.workers);
      CollectStep(input, records, start, p, end, failures);
      records := records + [Record(p, status)];
      if status == Error {
        failures := failures + 1;
      }
      p := p + 1;
    }
  }

  /** `run_swarm`. Up to the batch the run stopped before, every task has one "skipped"
      record if the operator skipped its batch, or else one "running" followed by how its
      process ended; later tasks have none; the run stops at the first batch the operator
      aborts, and only there; the count returned is that of the "error" records; and at no
      moment do more processes run than there are workers. */
  method RunSwarm(input: Input) returns (r: Result, ghost stop: nat)
    requires input.Complete()
    ensures r.ValueError? <==> input.workers <= 0
    ensures r.Finished? ==>
              && stop <= input.count
              && (forall p :: 0 <= p < stop ==> Settled(input, r.records, p))
              && (forall p :: stop <= p < input.count ==> History(r.records, p) == [])
              && (forall record :: record in r.records ==> record.position < stop)
              && r.failures == Count(r.records, Error)
              && Count(r.records, Running) + Count(r.records, Skipped) == stop
              && Live(r.records) == 0
              && Bounded(r.records, input.workers)
    ensures r.Finished? ==>
              && (stop < input.count ==> input.humanLoop && stop % input.workers == 0 && input.replies[stop] == Abort)
              && (forall q :: 0 <= q < stop && q % input.workers == 0 && input.humanLoop ==> input.replies[q] != Abort)
  {
    stop := 0;
    if input.workers <= 0 { return ValueError, 0; }
    var records: seq<Record> := [];
    var failures := 0;
    var start := 0;
    while start < input.count
      invariant 0 <= start <= input.count
      invariant start < input.count ==> start % input.workers == 0
      invariant BatchBoundary(input, records, start, failures)
      invariant forall q :: 0 <= q < start && q % input.workers == 0 && input.humanLoop ==> input.replies[q] != Abort
    {
      var end := input.BatchEnd(start);
      if input.ReplyAt(start) == Abort {
        return Finished(failures, records), start;
      }
      OneStart(start, end, input.workers);
      if input.ReplyAt(start) == Skip {
        records := SkipBatch(input, start, end, records, failures);
      } else {
        records := StartBatch(input, start, end, records, failures);
        failures, records := CollectBatch(input, start, end, records, failures);
      }
      start := end;
    }
    return Finished(failures, records), input.count;
  }

  /** Within a batch only its first position is a multiple of the batch size; a batch that
      is full ends at the next one. */
  lemma OneStart(start: nat, end: nat, workers: int)
    requires workers > 0 && start % workers == 0 && start < end <= start + workers
    ensures forall q :: start < q < end ==> q % workers != 0
    ensures end == start + workers ==> end % workers == 0
  {
    forall q | start < q < end ensures q % workers != 0 {
      InBatch(start, q, workers);
    }
    if end == start + workers {
      Remainder(start / workers + 1, 0, workers);
      assert start == start / workers * workers;
      assert (start / workers + 1) * workers == end;
    }
  }
}
