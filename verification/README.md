# Verified model of APEX, ASON and the AXIOM harness

This project models the parts of the repository that decide what may happen once, what
may happen again, and what counts as the same thing, and proves what they keep over
every run.

- **The durable effect ledger** (`apex/history.py`, `apex/core/loop.py`). A run is
  committed with one intent per tool step. An executor checks the binding and the rows,
  then walks the plan: a compare-and-set to DISPATCHING, one to three tool invocations,
  and one commit of the outcome with its event. `LedgerSystem` is the transition system
  whose atomic steps are the SQLite transactions and the tool invocations: any number of
  executors, each with its own program counter and stale snapshot, started at any time,
  each able to crash between any two steps. `LedgerInvariant`, `LedgerPreservation` and
  `LedgerWork` give the inductive invariant; `LedgerSafety` and `LedgerOutcome` what
  follows from it for every schedule; `CrashRefinement` compares every schedule with the
  uninterrupted run, and `LedgerReplies` ties every row to what the tool replied.
  `History` and `Execution` are the same code in its own form: a database class and an
  executor with its loops, interleaved with interference, proved to take only steps of
  the transition system.
- **The harness store** (`packages/harness/axiom_harness/harness.py`). `HarnessTables`
  has the operations on the six tables, `HarnessInvariant` and `HarnessPreservation` the
  invariant, `HarnessTheorems` what holds over all sequences of operations by clients
  whose clocks need not agree, `HarnessStore` the class with its transactions, reaping
  loop and rollback, `HarnessSpecs` the specification objects and their stored text,
  `HarnessReports` what the store makes of what its callers pass.
- **Plans as data**. `Json`, `JsonGrammar`, `JsonReader`, `JsonRoundTrip`, `JsonFormat`
  and `Canonical` model `json.dumps`, `json.loads` and the sorted-key text that is
  hashed; `Plans`, `PlanTheorems` and `ParseProblems` the plan parser and what it
  reports; `Binding` and `BindingTheorems` digests, authorizations and the binding
  check; `Ason` the policy check and the translation to an APEX plan.
- **Three compact algorithms**: MCP header values (`Utf8`, `Base64`, `HeaderValue`), a
  source-rewriting rule (`DecoderRule`) and the swarm batch loop (`Swarm`).

SHA-256 is a function parameter `sha`; where a result needs it not to confuse two texts,
a hypothesis names the two (`BindingTheorems.NoCollision`). Tool replies come from an
oracle that may depend on every earlier invocation. Fresh identifiers, clocks and the
operator's answers are parameters. `docs/execution.md` promises the ledger for one
executor at a time; the results here hold for any number.

`dafny verify dfyconfig.toml` checks the project.

## Model

| member | source | states |
|---|---|---|
| LedgerWork.AlwaysInv | apex/core/loop.py:106-211 | every state any schedule of executors, recoveries and crashes leads to satisfies the invariant on rows, dispatches, invocations, events, verdict and each executor's local state |
| LedgerInvariant.AdmissionAgrees | apex/history.py:219-271 | passing the binding check means asking for the committed work: same tools, equal arguments, same retry allowance, then the halt |
| LedgerWork.SoleWorker | apex/history.py:274-282 | at no moment are two executors between dispatch and outcome |
| LedgerPreservation.CheckKeeps | apex/core/loop.py:113-126 | admission, on whatever the rows have become, keeps the invariant: the snapshot taken is right about every success |
| LedgerWork.SendKeeps | apex/core/loop.py:155 | the compare-and-set keeps the invariant even when the snapshot behind it is stale |
| LedgerWork.EnterKeeps | apex/core/loop.py:156-159 | entering the tool keeps invocations in step and attempt order within the allowance |
| LedgerWork.EnterTrace | apex/core/loop.py:156-159 | the invocation entered next is later than every earlier one in step and attempt order, and follows a retryable reply if it repeats |
| LedgerWork.ReturnKeeps | apex/core/loop.py:159-165 | a reply completes the newest invocation and no other |
| LedgerWork.CommitKeeps | apex/history.py:285-304 | saving an error or committing an outcome with its event keeps the invariant |
| LedgerWork.GoodLocal | apex/core/loop.py:187-207 | after a good outcome the executor's results are still the recorded ones, one step further |
| LedgerWork.BadLocal | apex/core/loop.py:208-209 | after a failed outcome the executor ends with that row FAILED_UNKNOWN and all earlier ones SUCCEEDED |
| LedgerWork.OutcomeEvents | apex/history.py:291-304 | committing an outcome with its event keeps events and rows in step |
| LedgerPreservation.FinishKeeps | apex/core/loop.py:62-64 | finishing writes a verdict that agrees with the rows |
| LedgerSafety.Staircase | apex/core/loop.py:128-155 | rows read SUCCEEDED*, at most one DISPATCHING or FAILED_UNKNOWN, INTENT_RECORDED*; no step is dispatched twice, ever; an intent has no invocation and no result |
| EffectLedger.FirstUncertain | apex/core/loop.py:122-126 | the first uncertain row in step order, every row before it being an intent or a success |
| LedgerSafety.OnlyTheDispatcherInvokes | apex/core/loop.py:155-159 | a tool is entered only by the executor that dispatched its step, after every earlier step is durably SUCCEEDED |
| LedgerSafety.CallsBounded | apex/core/loop.py:154-156 | invocations of one step never exceed its tool's allowance, for any ordered trace |
| LedgerSafety.LengthBounded | apex/core/loop.py:154-156 | a trace in step and attempt order holds at most three invocations for every step it has reached |
| LedgerSafety.InvocationsBounded | apex/core/loop.py:149-159 | over a run's whole life each step is invoked at most once, or three times if retry-safe, and all steps together at most 93 times |
| LedgerSafety.RetriesOnlyAfterExceptions | apex/core/loop.py:156-171 | a repeated invocation directly follows one of the same step that raised or timed out, never bad output |
| LedgerSafety.UncertainBlocksForever | apex/core/loop.py:122-126 | once a row is FAILED_UNKNOWN, or DISPATCHING with its executor gone, no schedule ever adds an invocation or changes a row or event, and every later recovery is refused at the check with the durable state unchanged |
| LedgerReplies.RowsTellReplies | apex/core/loop.py:156-209 | in every reached state the row of every step with an outcome is what the step's newest invocation replied: SUCCEEDED with the output as an object exactly if the tool returned one within 10 MiB of compact UTF-8, otherwise FAILED_UNKNOWN with the reason; and if that reply was an exception or a timeout, all one or three attempts were used |
| LedgerReplies.SettleExact | apex/core/loop.py:95-103 | the reading of a reply: an output is wrapped unless it is a dict and kept if within the limit; anything else is an error with its own message |
| LedgerReplies.AttemptsCounted | apex/core/loop.py:156-167 | the attempt number of a step's newest invocation is the number of its invocations |
| LedgerReplies.SavedErrorIsReal | apex/core/loop.py:167-171 | what a dispatching row holds is the error of an invocation of its step that raised or timed out |
| LedgerReplies.ReachedExplained | apex/core/loop.py:187-209 | the rows and the invocations of every reached state agree in this sense, all rows at once |
| LedgerOutcome.EventsMatchRows | apex/history.py:291-304 | exactly one event per row with an outcome, in step order, with that row's result, the committed tool and equal arguments; none for other rows |
| LedgerOutcome.RecoveryOnlyReads | apex/core/loop.py:141-147 | once all steps succeeded no schedule adds an invocation or changes a row, and whoever halts returns the recorded results in order |
| LedgerOutcome.HaltedAgree | apex/core/loop.py:141-147 | any two executors that halt return the same results in the same order |
| LedgerOutcome.VerdictAgrees | apex/history.py:307-311 | exit code 0 means every row SUCCEEDED, 1 means exactly one FAILED_UNKNOWN after successes and before intents; once set it never changes |
| LedgerOutcome.NeverStranded | apex/core/loop.py:128-147 | an executor that has not ended always has a next step: no missing row, no result that fails to load, no plan running out before its halt |
| LedgerOutcome.OutcomeNeverRefused | apex/history.py:294-300 | the "outcome is not permitted" error cannot happen |
| CrashRefinement.CrashRefinement | apex/core/loop.py:106-211 | whatever crashed and recovered, completed invocations are a prefix of the uninterrupted run's, and a run with an exit code has exactly its code, invocations and rows |
| CrashRefinement.EndedHistoriesAgree | apex/core/loop.py:276-283 | any two histories of one request that end agree on exit code, invocations and rows |
| CrashRefinement.BackUnfolds | apex/core/loop.py:160-209 | at a reply that is back, what the uninterrupted run does next is exactly what the commit does: try again, go on, or end |
| CrashRefinement.AttemptGrows | apex/core/loop.py:155-209 | the uninterrupted run only appends to the trace, beginning with the invocation it makes next |
| History.Database.BeginRun | apex/history.py:174-216 | commits the binding and exactly one blank intent per tool step under a new id, or refuses the authorization and changes nothing |
| History.Database.BoundRows | apex/history.py:219-271 | answers with the rows only if plan, tool contract, authorization and row set all match, reporting the first mismatch |
| LedgerReplies.RowsHandedOver | apex/history.py:219-271 | rows are handed over if and only if the stored binding admits the request and there is exactly one row for every call of the plan |
| History.Database.Dispatch | apex/history.py:274-282 | moves the row from intent to DISPATCHING if and only if it was an intent |
| History.Database.Observe | apex/history.py:285-304 | records a result on a DISPATCHING row only; unless retrying, with its final state and its event in the same commit |
| History.Database.Finish | apex/history.py:307-311 | sets the exit code and nothing else |
| Execution.DurableRun.Attempts | apex/core/loop.py:154-171 | the retry loop ends with a reply that may not be retried or with the attempts used up, by steps of the transition system only |
| Execution.DurableRun.Execute | apex/core/loop.py:106-211 | the loop over the plan, interleaved with interference, takes only steps of the transition system; its ending and results are those of its executor there; left alone it refuses only at the check, changing nothing |
| Execution.DurableRun.ExecuteAndFinish | apex/core/loop.py:242-259 | a call that halts or fails leaves the exit code, rows and invocations of the uninterrupted run and returns the recorded results; a refused recovery does not finish the run |
| Execution.DurableRun.RunPlan | apex/core/loop.py:276-283 | recovering a run: a plan that does not parse changes nothing; otherwise as ExecuteAndFinish |
| Execution.RunFresh | apex/core/loop.py:214-259 | a first run with nobody else at work ends exactly as the uninterrupted run does, never refused, and leaves every other run as it was |
| Plans.ParsePlan | apex/core/planner.py:117-170 | the parser with its loop and early returns computes its specification for every response |
| PlanTheorems.AcceptsExactly | apex/core/planner.py:117-170 | a plan is returned if and only if the object has a non-blank goal, 1 to 32 steps, one halt which is last, and registry-conformant calls; and its steps are what the response's steps say |
| PlanTheorems.ArgsChecked | apex/core/planner.py:89-114 | argument validation passes exactly if names are known, required ones present, and every value has its type |
| PlanTheorems.MatchesHasType | apex/core/planner.py:77-86 | the type test admits, for each declared type, exactly the JSON constructors it should: no boolean is an integer |
| ParseProblems.ArgsProblem | apex/core/planner.py:89-114 | refused arguments are reported as exactly the unknown ones, else exactly the missing ones, else the first of the wrong type |
| ParseProblems.StepProblemExact | apex/core/planner.py:138-165 | a refused step is reported as the first of the checks it fails |
| ParseProblems.DataProblemExact | apex/core/planner.py:123-170 | a refused object is reported as its goal, its list of steps, their number, its first bad step, or the missing halt |
| ParseProblems.UnfencedBody | apex/core/planner.py:58-74 | without a fence the response is read from its first brace on, whatever comes before |
| ParseProblems.FencedResponse | apex/core/planner.py:58-74 | with a fence it is read from the first brace of everything up to the last fence, or of everything |
| ParseProblems.FenceWithoutLine | apex/core/planner.py:60-63 | a fence with no line break after it has no body |
| PlanTheorems.ParseInvertsPrint | apex/core/types.py:80-88 | parsing a plan's own JSON gives it back if and only if it is valid |
| PlanTheorems.ParsedPlanReparses | apex/core/loop.py:232-239 | a plan that was parsed, printed and parsed again is the same plan |
| PlanTheorems.ParsedPlanWellFormed | apex/core/planner.py:117-170 | whatever the parser returns is a valid plan that can be printed and read back |
| PlanTheorems.TextRoundTrip | apex/core/planner.py:58-74 | the printed text of a valid plan parses to that plan in any print style |
| PlanTheorems.FencedBody | apex/core/planner.py:58-74 | extracting from a tagged fence recovers any object text whole, even one containing fences |
| PlanTheorems.FencedRoundTrip | apex/core/planner.py:58-74 | a valid plan printed inside a fence parses to that plan, whatever its strings hold |
| ParseProblems.ResponseAccepted | apex/core/planner.py:58-74 | a response becomes a plan if and only if its body begins with a JSON text of an acceptable object, whatever follows; with no such text it is reported as no JSON |
| JsonReader.LoadsExact | apex/history.py:232 | `json.loads` answers with a value if and only if the text is a JSON text of it by the grammar of RFC 8259 (numbers being integers), with any blanks and any spelling of its strings |
| JsonReader.ReadExact | apex/core/planner.py:73 | `raw_decode` reads a value if and only if the text begins with a JSON text of it, and stops exactly where that ends |
| JsonReader.ToDictMeans | apex/core/planner.py:73 | a dict has each key of the text once, where it first stood, with the value that stood last |
| JsonRoundTrip.TextOf | apex/history.py:114-115 | what is printed is a JSON text of the value, in every style |
| JsonRoundTrip.LoadsInvertsPrint | apex/history.py:114-115 | `json.loads` undoes `json.dumps` in every style used, for every value without duplicate keys |
| JsonRoundTrip.ReadsBack | apex/core/planner.py:58-74 | reading printed JSON followed by other text gives the value and that text, in every style |
| JsonRoundTrip.PrintInjective | apex/history.py:114-115 | two values never print alike |
| JsonFormat.EscapeExact | apex/history.py:114-115 | which characters are escaped and how: the seven short forms, lower-case units for other control characters and, with `ensure_ascii`, beyond the tilde; all others raw |
| JsonFormat.PrintClean | apex/history.py:114-115 | printed text never holds a control character, nor with `ensure_ascii` a character beyond ASCII |
| JsonFormat.CompactBlankless | apex/history.py:79-80 | compact text has no blank of its own |
| Canonical.SameHasOneNormalForm | apex/history.py:78-81 | equal values have one sorted form, however their keys were ordered at any depth |
| Canonical.TextIdentifies | apex/history.py:78-81 | two values have the same canonical text if and only if they are equal, key order aside |
| Canonical.NormalIsSorted | apex/history.py:79-80 | the text hashed has its keys in order at every level |
| Canonical.BeforeMeans | apex/history.py:79-80 | the order is by code point at the first difference, a prefix first |
| Binding.SortedNames | apex/history.py:90-111 | the sorted list of a set: its members, each once, in code-point order |
| BindingTheorems.ContractTextIdentifies | apex/history.py:90-111 | two registries have one contract text if and only if they agree on keys, names, schemas, required arguments and retry safety |
| BindingTheorems.ContractSays | apex/history.py:90-107 | what is hashed for a registry: in the order of its keys, each tool's key, name, typed inputs and outputs, sorted required arguments and retry safety |
| BindingTheorems.PlanTextIdentifies | apex/history.py:78-81 | two plans have one digest text if and only if they are the same plan up to key order in arguments |
| BindingTheorems.CheckAcceptsExactly | apex/history.py:219-265 | the binding check accepts exactly the committed plan, the committed tool contract, and no other authorization |
| BindingTheorems.AdmitsExactly | apex/history.py:219-265 | any stored binding, however it came about, admits a request if and only if presented and stored plan have the stored digest, step count and contract agree, and the stored authorization still grants the plan and is the one supplied |
| BindingTheorems.CheckRefusalExact | apex/history.py:219-265 | the reason of a refusal, plan first, then contract, then authorization; a digest mismatch with the ledger is unreachable |
| BindingTheorems.BindsExactly | apex/history.py:174-216 | a run begins if and only if no authorization is presented or the one presented grants the plan, and what is committed is what was presented |
| BindingTheorems.ValidationExact | apex/history.py:118-139 | validation accepts exactly the objects with four non-blank texts, a decision that is the boolean true and the digest of the plan's canonical text, and returns each text from its own field |
| BindingTheorems.RefusalExact | apex/history.py:118-139 | a refusal names the first thing wrong: the kind, a field in order, the decision, or the digest |
| BindingTheorems.OwnBindingAccepted | apex/history.py:174-271 | a run always accepts what it was committed with |
| BindingTheorems.NormalizedValidates | apex/history.py:118-139 | a trimmed authorization is accepted unchanged for exactly the plan whose digest it names |
| BindingTheorems.ValidationIdempotent | apex/history.py:118-139 | validating what validation returned returns it again |
| Ason.Validate | packages/ason/ason/validator.py:16-43 | both loops report exactly the violations there are, each of its kind and in order; none if and only if the whitelist reading of the policy permits the request |
| Ason.ReportedMeans | packages/ason/ason/validator.py:6-14 | a tool is reported by neither loop exactly if the whitelist of its blast radius and the allow list permit it |
| Ason.ViolationsMean | packages/ason/ason/validator.py:16-43 | nothing is reported exactly if the policy permits the request, and a step is reported exactly if its tool is not permitted |
| Ason.Submit | packages/ason/ason/executor.py:31-56 | policy first, then the authority, then the payload; rejected exactly if the policy does not permit |
| Ason.TranslationPrints | packages/ason/ason/executor.py:118-126 | ASON's dict is the one APEX prints for the approved steps plus a halt, key order included |
| Ason.ApexParsesExactly | apex/server.py:139-155 | APEX parses it if and only if there are at most 31 approved steps and each conforms to the registry, and then gets those steps in order and one halt |
| Ason.EndToEnd | packages/ason/ason/executor.py:96-115 | for every request APEX parses, the digest ASON sent is the one APEX recomputes, the authorization is accepted and stays so, and the run can be committed |
| Ason.AuthorizationSays | packages/ason/ason/executor.py:107-115 | the authorization carries the digest of the plan APEX will execute, the digest of the policy, and the authority it was given, under the names APEX reads |
| Ason.PolicyTextIdentifies | packages/ason/ason/executor.py:112-112 | the text whose digest stands for the policy determines the policy |
| Ason.PayloadReadsBack | packages/ason/ason/executor.py:45-54 | the payload reads back as the plan and the authorization that were sent |
| Ason.ThirtyTwoStepsRefused | apex/core/planner.py:133-134 | a request of 32 steps is always refused by APEX's step limit |
| Ason.ThirtyTwoStepsPermitted | packages/ason/ason/schema.py:7-11 | yet the policy accepts such a request |
| Utf8.DecodeInvertsEncode | apex/mcp.py:149 | UTF-8 decoding recovers every text (section 3 of RFC 3629) |
| Base64.DecodeInvertsEncode | apex/mcp.py:149 | base64 decoding recovers every byte string (section 4 of RFC 4648) |
| Base64.SymbolExact | apex/mcp.py:149 | the standard alphabet, by code point |
| Base64.SplitExact | apex/mcp.py:149 | three bytes are one 24-bit number cut into four |
| Base64.EncodedShape | apex/mcp.py:149 | whole groups of four, padded exactly for the missing bytes |
| HeaderValue.ReadInvertsHeader | apex/mcp.py:137-151 | a receiver that decodes the sentinel form and takes anything else raw recovers every text |
| HeaderValue.HeaderInjective | apex/mcp.py:137-151 | two texts never travel as one header |
| HeaderValue.HeaderExact | apex/mcp.py:145-151 | a text travels raw if and only if it is printable ASCII without outer blanks and not shaped like an encoded one; otherwise as marked base64 of its UTF-8 bytes |
| HeaderValue.RenderExact | apex/mcp.py:138-143 | booleans are spelled small, strings as they are, integers in the decimal form that reads back |
| HeaderValue.HeaderIsSafe | apex/mcp.py:137-151 | every header is printable ASCII without outer blanks |
| HeaderValue.HeaderBindings | apex/mcp.py:113-134 | the loop binds exactly the declared headers, refuses exactly the unusable schemas, and raises exactly when a type is unhashable |
| HeaderValue.BindingsDistinct | apex/mcp.py:120-131 | bound header names differ without regard to case |
| HeaderValue.CustomHeaders | apex/mcp.py:175-181 | exactly one header per present, non-null bound argument, with its encoded value, no two names alike |
| DecoderRule.RuleEditsInPlace | apex/rsi_candidate_rules.py:28-35 | the rule changes its two places and nothing else, in whichever order they stand |
| DecoderRule.TwoEditsInPlace | apex/rsi_candidate_rules.py:33-35 | for any anchor line and call text of that shape, the two replacements land where the anchor and the call were and do not disturb each other |
| DecoderRule.RuleFiresExactly | apex/rsi_candidate_rules.py:29-32 | the rule fires if and only if the call and the anchor line each occur exactly once |
| DecoderRule.RuleAppliesOnce | apex/rsi_candidate_rules.py:28-35 | for every source text, the rewritten text has no occurrence of the call and the rule does not fire on it |
| Swarm.RunSwarm | apex/core/swarm.py:47-109 | up to the batch the run stopped before, each task has one "skipped" record if and only if the operator skipped its batch, and otherwise one "running" followed by "ok" if and only if its exit code is 0, else "error"; later tasks have none; the run stops at the first aborted batch and only there; failures equal the "error" records; never more processes than workers |
| Swarm.StartBatch | apex/core/swarm.py:83-94 | a whole batch is started before any process is awaited, within the worker limit |
| Swarm.CollectBatch | apex/core/swarm.py:96-106 | collecting settles every task of the batch and counts its errors |
| HarnessSpecs.NormalCapabilities | packages/harness/axiom_harness/harness.py:59-63 | normalised capabilities are their own normal form |
| HarnessSpecs.PermutedTasksAgree | packages/harness/axiom_harness/harness.py:59-63 | permuting the capability list gives the same specification |
| HarnessSpecs.BuildTaskIdempotent | packages/harness/axiom_harness/harness.py:85-100 | building a task specification from a built one changes nothing |
| HarnessSpecs.BuildResourceIdempotent | packages/harness/axiom_harness/harness.py:111-120 | the same for resources |
| HarnessSpecs.TaskRoundTrip | packages/harness/axiom_harness/harness.py:258-270 | decoding the stored text of a task gives the task |
| HarnessSpecs.ResourceRoundTrip | packages/harness/axiom_harness/harness.py:262-276 | decoding the stored text of a resource gives the resource |
| HarnessSpecs.HashOfText | packages/harness/axiom_harness/harness.py:51-56 | the hash of the re-loaded text is the hash of the text itself |
| HarnessReports.BuildTaskExact | packages/harness/axiom_harness/harness.py:85-100 | a task specification is built exactly if its names are not blank, its capabilities distinct, its digest hexadecimal, its class M0 to M4 and its budgets not negative, and from those parts |
| HarnessReports.BuildResourceExact | packages/harness/axiom_harness/harness.py:111-120 | the same for resources |
| HarnessReports.NormalizeExact | packages/harness/axiom_harness/harness.py:59-63 | the normal form is the sorted list of the trimmed names, and there is none exactly if one is blank or occurs twice |
| HarnessPreservation.ReapKeeps | packages/harness/axiom_harness/harness.py:362-377 | reaping any of the expired leases keeps the invariant |
| HarnessReports.ReapExact | packages/harness/axiom_harness/harness.py:362-377 | reaping releases just the expired open leases, at that time, readies just their tasks, and changes nothing else |
| HarnessPreservation.AcquireKeeps | packages/harness/axiom_harness/harness.py:390-442 | leasing keeps the invariant although eligibility was read in an earlier state |
| HarnessPreservation.RecordKeeps | packages/harness/axiom_harness/harness.py:444-537 | recording an attempt keeps the invariant |
| HarnessPreservation.NextHistory | packages/harness/axiom_harness/harness.py:506-516 | one more attempt after repeatable ones within the budget gives exactly the history the next state stands for |
| HarnessPreservation.CommitKeeps | packages/harness/axiom_harness/harness.py:539-591 | committing keeps the invariant |
| HarnessTheorems.RunsAreSound | packages/harness/axiom_harness/harness.py:278-591 | every state of every sequence of operations satisfies the invariant, everything recorded persists, and tasks move along the automaton |
| HarnessTheorems.OneActiveLease | packages/harness/axiom_harness/harness.py:185-188 | a task is LEASED if and only if it has an open lease, which is its only one and its active one; no resource has two |
| HarnessTheorems.EveryLeaseEligible | packages/harness/axiom_harness/harness.py:340-351 | every lease ever stored joins an eligible task and resource within both context limits |
| HarnessReports.EveryLeaseTaken | packages/harness/axiom_harness/harness.py:340-351 | spelled out: the resource is free of charge, has every capability, a mutation class at least the task's and room for its context budget, and the context is within both limits |
| HarnessReports.EligibilityExact | packages/harness/axiom_harness/harness.py:400-411 | the exact condition of every answer of the checks before the lease transaction |
| HarnessReports.LeaseExact | packages/harness/axiom_harness/harness.py:412-442 | the lease granted is the one asked for, from now for the time to live, with the hash and size of the context; besides the reap and the task's state nothing changes |
| HarnessTheorems.AcquireLeavesNoneExpired | packages/harness/axiom_harness/harness.py:413-436 | after a lease is acquired at `now` no open lease has expired by then |
| HarnessTheorems.LeasesConserved | packages/harness/axiom_harness/harness.py:362-377 | leases of a task = its attempts + its reaped leases + 1 while LEASED |
| HarnessTheorems.ReleaseTellsAttempt | packages/harness/axiom_harness/harness.py:469-505 | a released lease has an attempt if and only if it was released before expiry; attempts lie within their lease |
| HarnessTheorems.OneAcceptedAttempt | packages/harness/axiom_harness/harness.py:492-520 | at most one ACCEPTED attempt per task, and one if and only if the task is BLOCKED or COMMITTED |
| HarnessTheorems.RetryBound | packages/harness/axiom_harness/harness.py:506-520 | READY or LEASED means attempts within the retry budget, all retry-safe, none unknown or accepted; never more than one beyond it |
| HarnessTheorems.RunsFollowTheAutomaton | packages/harness/axiom_harness/harness.py:362-586 | READY to LEASED to READY, BLOCKED, UNKNOWN or FAILED, and BLOCKED to COMMITTED; UNKNOWN, FAILED and COMMITTED are final; specifications, attempts and canonical rows are never altered |
| HarnessTheorems.CanonicalIsAccepted | packages/harness/axiom_harness/harness.py:577-586 | a task has a canonical row if and only if COMMITTED, naming its accepted attempt, whose digest is the expected one |
| HarnessTheorems.CommitFailsOnlyIf | packages/harness/axiom_harness/harness.py:543-560 | a commit fails exactly for an absent or not accepted attempt; the conflict and the wrong-state errors for an accepted one are unreachable |
| HarnessTheorems.CommitIsIdempotent | packages/harness/axiom_harness/harness.py:548-555 | committing again at any later time changes nothing and returns the original receipt, key order aside |
| HarnessReports.CommitSays | packages/harness/axiom_harness/harness.py:564-588 | key by key, what a receipt says about the attempt and the task, the first time, on repetition, and as stored |
| HarnessReports.SpecHashStored | packages/harness/axiom_harness/harness.py:561-567 | the specification hash a receipt carries is that of the stored text |
| HarnessTheorems.RecordFailsOnlyIf | packages/harness/axiom_harness/harness.py:456-481 | the exact condition of each error of recording an attempt; "not the task's active authority" is unreachable |
| HarnessReports.RecordRefusalExact | packages/harness/axiom_harness/harness.py:456-476 | the same conditions in terms of the report's own parts |
| HarnessReports.RecordExact | packages/harness/axiom_harness/harness.py:485-520 | outcome, digest and next state follow from the report: unknown gives UNKNOWN, failed gives FAILED, a result is ACCEPTED exactly if its hash is the expected one; the task is READY again exactly if the attempt is retry-safe and within the budget; the attempt stored is what was reported and nothing else changes |
| HarnessTheorems.ReapGuardHolds | packages/harness/axiom_harness/harness.py:369-376 | the guard in the reaping loop never fails |
| HarnessTheorems.AcquireFailsOnlyIf | packages/harness/axiom_harness/harness.py:413-436 | after the eligibility check, leasing succeeds exactly if the task is ready after reaping, no unexpired lease holds the resource, and the identifier is new |
| HarnessTheorems.ResubmissionExact | packages/harness/axiom_harness/harness.py:284-289 | resubmitting succeeds exactly with the stored specification and is a conflict otherwise |
| HarnessStore.Store.SubmitTask | packages/harness/axiom_harness/harness.py:278-302 | does what the table function says or raises with the tables unchanged, and keeps the invariant |
| HarnessStore.Store.RegisterResource | packages/harness/axiom_harness/harness.py:304-326 | the same for resources |
| HarnessStore.Store.ReapExpiredTx | packages/harness/axiom_harness/harness.py:362-377 | the loop releases exactly the expired leases, readies exactly their tasks, and counts them |
| HarnessStore.Store.AcquireLease | packages/harness/axiom_harness/harness.py:390-442 | with other clients between the check and the transaction; a raise undoes the reap too |
| HarnessStore.Store.RecordAttempt | packages/harness/axiom_harness/harness.py:444-537 | the transaction step by step; an expired lease raises and its reap is rolled back |
| HarnessStore.Store.CommitAccepted | packages/harness/axiom_harness/harness.py:539-591 | the transaction step by step, with every early return and rollback |

## Left out

- LedgerSafety.UncertainBlocksForever: says that recovery is refused for good, not how an operator resolves the row; the program has no such operation.
- CrashRefinement.CrashRefinement: compares exit code, invocations and rows; the argument text of an event may list keys in another order when a recovery presents the plan that way, so events are compared by `LedgerOutcome.EventsMatchRows`.
- CrashRefinement.EndedHistoriesAgree: assumes that tools reply as one oracle of the earlier invocations and the step; the argument values of a step are equal in both histories up to key order.
- Execution.DurableRun.RunPlan: presented plans and registries that collide with the committed ones under SHA-256 are excluded by a hypothesis on those two texts.
- HarnessTheorems.ResubmissionExact: likewise for two specification texts.
- Execution.DurableRun.Execute: between two steps other executors act through `Interfere`, whose contract allows any steps of the transition system; a crash of the executor itself is a step of the transition system, not of the method.
- Plans.ParsePlan: problems are distinguished by kind and position, not by message text.
- Floating-point numbers: JSON numbers are integers, so a float argument, a NaN and the cash ceiling, which can only be 0.0, are not modelled.
- Lone surrogates in strings: text is a sequence of Unicode scalar values.
- SQLite itself, WAL and fsync: each `_conn()` block or BEGIN/COMMIT block is one atomic step.
- SIGALRM, sleeps, tracing, tool bodies: an invocation returns a JSON value, returns a value that is not JSON, raises, times out, or never returns.
- Values that are not JSON but that `json.dumps` accepts, such as tuples and non-string keys: the model starts from the JSON they become.
- `record_run` and dry runs: they insert a finished row and touch no ledger.
- The audit step, `generate_plan`, prompts and providers: model calls.
- `_mapping_rule` and `generate`: regex-driven, and not a fixed point for sources with two matching definitions.
- The RSI controller, sandbox and cgroups, the Flask routes apart from the parse-and-validate order, the CLI, export, RAG, MCP RPC and paging: I/O or thin wrappers.
- `failure` values other than "failed" and "unknown" in `record_attempt`: outside the declared type.
- `eligible_resources`, `attempts`, `check` and the other read-only queries of the harness: they would only add easy members.
- Wall-clock columns apart from the timestamps that decide expiry.
