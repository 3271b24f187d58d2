/** Plans: their JSON form, and the parser that validates a planner's response
    against the tool registry. */
module Plans {
  import opened Json
  import opened Text

  datatype Type = AnyType | IntegerType | NumberType | BooleanType | StringType | ObjectType | ArrayType

  datatype Tool = Tool(
    name: string,
    inputSpec: map<string, Type>,
    outputSpec: map<string, Type>,
    required: Option<set<string>>,
    retrySafe: bool)
  {
    function RequiredArgs(): set<string> {
      if required.Some? then required.value else inputSpec.Keys
    }
  }

  type Registry = map<string, Tool>

  datatype Step = ToolCall(name: string, args: seq<Field>) | Halt(reason: string)

  datatype Plan = Plan(goal: string, steps: seq<Step>)

  const MAX_STEPS := 32

  // ------------------------------------------------------------- plan to JSON

  function StepToJson(step: Step): Json {
    match step
    case Halt(reason) => Obj([Field("type", Str("halt")), Field("reason", Str(reason))])
    case ToolCall(name, args) =>
      Obj([Field("type", Str("tool")), Field("name", Str(name)), Field("args", Obj(args))])
  }

  function StepsToJson(steps: seq<Step>): (r: seq<Json>)
    ensures |r| == |steps|
    ensures forall i :: 0 <= i < |steps| ==> r[i] == StepToJson(steps[i])
  {
    if steps == [] then [] else [StepToJson(steps[0])] + StepsToJson(steps[1..])
  }

  /** `plan_to_dict`. */
  function PlanToJson(plan: Plan): Json {
    Obj([Field("goal", Str(plan.goal)), Field("steps", Arr(StepsToJson(plan.steps)))])
  }

  // --------------------------------------------------------------- JSON lookup

  function Get(fields: seq<Field>, key: string): Option<Json> {
    if fields == [] then None
    else if fields[0].key == key then Some(fields[0].value)
    else Get(fields[1..], key)
  }

  function FieldKeys(fields: seq<Field>): set<string> {
    set f | f in fields :: f.key
  }

  // ---------------------------------------------------------------- validation

  /** `_matches_type`: a bool is not an integer, an integer is a number. */
  predicate MatchesType(value: Json, expected: Type) {
    match expected
    case AnyType => true
    case IntegerType => value.Int?
    case NumberType => value.Int?
    case BooleanType => value.Bool?
    case StringType => value.Str?
    case ObjectType => value.Obj?
    case ArrayType => value.Arr?
  }

  // ------------------------------------------- argument conformance, stated outright

  /** What each declared type admits, constructor by constructor. */
  ghost predicate HasType(value: Json, expected: Type) {
    && (expected == IntegerType || expected == NumberType ==> value.Int?)
    && (expected == BooleanType ==> value.Bool?)
    && (expected == StringType ==> value.Str?)
    && (expected == ObjectType ==> value.Obj?)
    && (expected == ArrayType ==> value.Arr?)
  }

  ghost predicate HasKey(fields: seq<Field>, key: string) {
    exists i :: 0 <= i < |fields| && fields[i].key == key
  }

  /** A tool that names no required arguments requires all it knows. */
  ghost predicate Requires(tool: Tool, name: string) {
    if tool.required.Some? then name in tool.required.value else name in tool.inputSpec
  }

  /** The arguments a tool accepts: known ones only, of their declared types, and none of
      the required ones missing. */
  ghost predicate ArgsConform(tool: Tool, args: seq<Field>) {
    && (forall i :: 0 <= i < |args| ==> args[i].key in tool.inputSpec && HasType(args[i].value, tool.inputSpec[args[i].key]))
    && (forall name :: Requires(tool, name) ==> HasKey(args, name))
  }

  datatype Problem =
    | NoJson
    | NotAnObject
    | BadGoal
    | BadSteps
    | TooManySteps(count: nat)
    | StepNotAnObject(index: nat)
    | HaltNotLast(index: nat)
    | BadReason(index: nat)
    | BadType(index: nat)
    | UnknownTool(index: nat)
    | ArgsNotAnObject(index: nat)
    | UnexpectedArgs(index: nat, names: set<string>)
    | MissingArgs(index: nat, names: set<string>)
    | WrongArgType(index: nat, name: string)
    | NoHalt

  datatype Parsed<+T> = Ok(value: T) | Err(problem: Problem)

  /** The first argument in order whose value has the wrong type, or the number of
      arguments. */
  function FirstMismatch(tool: Tool, args: seq<Field>, from: nat): (i: nat)
    requires from <= |args|
    requires FieldKeys(args) <= tool.inputSpec.Keys
    ensures from <= i <= |args|
    ensures forall k :: from <= k < i ==> args[k].key in tool.inputSpec && MatchesType(args[k].value, tool.inputSpec[args[k].key])
    ensures i < |args| ==> args[i].key in tool.inputSpec && !MatchesType(args[i].value, tool.inputSpec[args[i].key])
    decreases |args| - from
  {
    if from == |args| then from
    else
      assert args[from].key in FieldKeys(args);
      if MatchesType(args[from].value, tool.inputSpec[args[from].key]) then FirstMismatch(tool, args, from + 1) else from
  }

  function ValidateArgs(index: nat, tool: Tool, args: Json): Option<Problem> {
    if !args.Obj? then Some(ArgsNotAnObject(index))
    else
      var names := FieldKeys(args.fields);
      if names - tool.inputSpec.Keys != {} then Some(UnexpectedArgs(index, names - tool.inputSpec.Keys))
      else if tool.RequiredArgs() - names != {} then Some(MissingArgs(index, tool.RequiredArgs() - names))
      else
        assert names <= tool.inputSpec.Keys by { SubsetByDifference(names, tool.inputSpec.Keys); }
        var i := FirstMismatch(tool, args.fields, 0);
        if i < |args.fields| then Some(WrongArgType(index, args.fields[i].key)) else None
  }

  lemma SubsetByDifference<T>(a: set<T>, b: set<T>)
    requires a - b == {}
    ensures a <= b
  {
    assert forall x :: x in a ==> x in a - b || x in b;
  }

  /** One step of the response, at a position in a list of `count`. */
  function ParseStep(raw: Json, index: nat, count: nat, registry: Registry): Parsed<Step> {
    if !raw.Obj? then Err(StepNotAnObject(index))
    else
      var kind := StepType(raw.fields);
      if kind == "halt" then
        if index + 1 != count then Err(HaltNotLast(index))
        else
          match Get(raw.fields, "reason")
          case None => Ok(Halt("Complete"))
          case Some(Str(reason)) => Ok(Halt(reason))
          case Some(_) => Err(BadReason(index))
      else if kind != "tool" && kind != "toolcall" then Err(BadType(index))
      else
        match Get(raw.fields, "name")
        case Some(Str(name)) =>
          if name !in registry then Err(UnknownTool(index))
          else
            var args := ArgsOf(raw.fields);
            (match ValidateArgs(index, registry[name], args)
             case Some(problem) => Err(problem)
             case None => Ok(ToolCall(name, args.fields)))
        case _ => Err(UnknownTool(index))
  }

  /** `str(raw.get("type", "")).lower()`; no value that is not a string renders as
      one of the accepted words. */
  function StepType(fields: seq<Field>): string {
    match Get(fields, "type")
    case Some(Str(s)) => Lower(s)
    case _ => ""
  }

  function ArgsOf(fields: seq<Field>): Json {
    match Get(fields, "args")
    case Some(args) => args
    case None => Obj([])
  }

  /** The steps from a position on: all parsed, or the first problem. */
  function ParseSteps(raws: seq<Json>, index: nat, registry: Registry): Parsed<seq<Step>>
    requires index <= |raws|
    decreases |raws| - index
  {
    if index == |raws| then Ok([])
    else
      match ParseStep(raws[index], index, |raws|, registry)
      case Err(problem) => Err(problem)
      case Ok(step) =>
        match ParseSteps(raws, index + 1, registry)
        case Err(problem) => Err(problem)
        case Ok(steps) => Ok([step] + steps)
  }

  function ParseData(data: Json, registry: Registry): Parsed<Plan> {
    if !data.Obj? then Err(NotAnObject)
    else
      match Get(data.fields, "goal")
      case Some(Str(goal)) =>
        if Strip(goal) == "" then Err(BadGoal)
        else
          (match Get(data.fields, "steps")
           case Some(Arr(raws)) =>
             if raws == [] then Err(BadSteps)
             else if |raws| > MAX_STEPS then Err(TooManySteps(|raws|))
             else
               (match ParseSteps(raws, 0, registry)
                case Err(problem) => Err(problem)
                case Ok(steps) =>
                  if steps == [] || !steps[|steps| - 1].Halt? then Err(NoHalt)
                  else Ok(Plan(Strip(goal), steps)))
           case _ => Err(BadSteps))
      case _ => Err(BadGoal)
  }

  // ---------------------------------------------------------------- extraction

  const FENCE := "```"

  /** The part of a response that holds the JSON: fences stripped, from the first
      brace on. */
  function ExtractBody(response: string): Option<string> {
    var text := Strip(response);
    if FENCE <= text then
      var newline := Find(text, "\n");
      if newline < 0 then None
      else
        var inner := text[newline + 1..];
        var closing := FindLast(inner, FENCE);
        FromBrace(Strip(if closing >= 0 then inner[..closing] else inner))
    else FromBrace(text)
  }

  function FromBrace(text: string): Option<string> {
    var start := Find(text, "{");
    if start < 0 then None else Some(text[start..])
  }

  /** `parse_plan`. */
  function ParseText(response: string, registry: Registry): Parsed<Plan> {
    match ExtractBody(response)
    case None => Err(NoJson)
    case Some(body) =>
      match Read(body)
      case Fail => Err(NoJson)
      case Got(data, _) => ParseData(data, registry)
  }

  /** `parse_plan`, as it runs. */
  method ParsePlan(response: string, registry: Registry) returns (r: Parsed<Plan>)
    ensures r == ParseText(response, registry)
  {
    hide ExtractBody, Read, ParseData;
    var body := ExtractBody(response);
    if body.None? { return Err(NoJson); }
    var scan := Read(body.value);
    if scan.Fail? { return Err(NoJson); }
    r := ParseObject(scan.value, registry);
  }

  /** The validation loop: walk the steps, append each to the list, return at the first
      problem. */
  method ParseObject(data: Json, registry: Registry) returns (r: Parsed<Plan>)
    ensures r == ParseData(data, registry)
  {
    hide Get, Strip, ParseStep, ParseSteps;
    if !data.Obj? { return Err(NotAnObject); }
    var goal := Get(data.fields, "goal");
    var raws := Get(data.fields, "steps");
    if goal.None? || !goal.value.Str? || Strip(goal.value.s) == "" { return Err(BadGoal); }
    if raws.None? || !raws.value.Arr? || raws.value.items == [] { return Err(BadSteps); }
    var items := raws.value.items;
    if |items| > MAX_STEPS { return Err(TooManySteps(|items|)); }

    var steps: seq<Step> := [];
    var index := 0;
    PrependNone(ParseSteps(items, 0, registry));
    while index < |items|
      invariant 0 <= index <= |items| && |steps| == index
      invariant ParseSteps(items, 0, registry) == Prepend(steps, ParseSteps(items, index, registry))
    {
      var step := ParseStep(items[index], index, |items|, registry);
      NextStep(items, index, registry);
      if step.Err? { return Err(step.problem); }
      PrependTwice(steps, [step.value], ParseSteps(items, index + 1, registry));
      steps := steps + [step.value];
      index := index + 1;
    }
    NoMoreSteps(items, registry);
    assert steps + [] == steps;
    if !steps[|steps| - 1].Halt? { return Err(NoHalt); }
    return Ok(Plan(Strip(goal.value.s), steps));
  }

  lemma NextStep(raws: seq<Json>, index: nat, registry: Registry)
    requires index < |raws|
    ensures ParseSteps(raws, index, registry) ==
            match ParseStep(raws[index], index, |raws|, registry)
            case Err(problem) => Err(problem)
            case Ok(step) => Prepend([step], ParseSteps(raws, index + 1, registry))
  {
    hide ParseStep;
  }

  lemma NoMoreSteps(raws: seq<Json>, registry: Registry)
    ensures ParseSteps(raws, |raws|, registry) == Ok([])
  {
  }

  function Prepend(steps: seq<Step>, rest: Parsed<seq<Step>>): Parsed<seq<Step>> {
    match rest
    case Ok(more) => Ok(steps + more)
    case Err(problem) => Err(problem)
  }

  lemma PrependNone(rest: Parsed<seq<Step>>)
    ensures Prepend([], rest) == rest
  {
    if rest.Ok? {
      assert [] + rest.value == rest.value;
    }
  }

  lemma PrependTwice(a: seq<Step>, b: seq<Step>, rest: Parsed<seq<Step>>)
    ensures Prepend(a, Prepend(b, rest)) == Prepend(a + b, rest)
  {
    if rest.Ok? {
      assert a + (b + rest.value) == a + b + rest.value;
    }
  }
}
