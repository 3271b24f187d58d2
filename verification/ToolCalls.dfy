/** Calling a tool: what can come back and what the executor makes of it. */
module ToolCalls {
  import opened Json
  import opened Plans
  import Utf8

  /** What one invocation comes back with. `NotJson` is a value `json.dumps` refuses. */
  datatype Reply = Returned(output: Json) | NotJson(reason: string) | Raised(message: string) | TimedOut

  /** `Ok(value)` or `Err(..., message)`. */
  datatype Outcome = Good(value: Json) | Bad(message: string)

  const MAX_OUTPUT_BYTES := 10_485_760
  const MAX_RETRIES := 3

  /** `_normalize_output`: a dict as it is, anything else under "output", within 10 MiB
      of compact UTF-8 text. */
  function Normalize(tool: string, output: Json): Outcome {
    var value := if output.Obj? then output else Obj([Field("output", output)]);
    if |Utf8.Encode(Print(COMPACT, value))| > MAX_OUTPUT_BYTES then Bad(tool + " output exceeds 10 MiB") else Good(value)
  }

  /** The result of an invocation that ends its step. */
  function Settle(tool: string, reply: Reply): Outcome {
    match reply
    case Returned(output) => Normalize(tool, output)
    case NotJson(reason) => Bad(tool + " returned non-JSON output: " + reason)
    case Raised(message) => Bad(message)
    case TimedOut => Bad(tool + " exceeded 300s")
  }

  /** Only an exception or a timeout may be retried; bad output ends the step. */
  predicate Retryable(reply: Reply) {
    reply.Raised? || reply.TimedOut?
  }

  function MaxAttempts(tool: Tool): nat {
    if tool.retrySafe then MAX_RETRIES else 1
  }

  /** The JSON recorded for a result. */
  function ResultJson(outcome: Outcome): Json {
    match outcome
    case Good(value) => value
    case Bad(message) => Obj([Field("error", Str(message))])
  }

  function ResultText(outcome: Outcome): string {
    Print(COMPACT, ResultJson(outcome))
  }

  ghost predicate WellFormedReply(reply: Reply) {
    reply.Returned? ==> WellFormed(reply.output)
  }

  lemma SettledWellFormed(tool: string, reply: Reply)
    requires WellFormedReply(reply)
    ensures WellFormed(ResultJson(Settle(tool, reply)))
    ensures Settle(tool, reply).Good? ==> Settle(tool, reply).value.Obj?
  {
    if reply.Returned? {
      assert WellFormed(Obj([Field("output", reply.output)]));
    }
  }
}
