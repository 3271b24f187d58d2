/** What `parse_plan` says when it does not return a plan, and what part of a response it
    reads. */
module ParseProblems {
  import opened Json
  import opened Text
  import opened Plans
  import opened PlanTheorems
  import Grammar = JsonGrammar
  import Reader = JsonReader

  // -------------------------------------------------------------- one bad step

  /** The name of the tool a step calls is a known one. */
  ghost predicate KnownTool(fields: seq<Field>, registry: Registry, name: string) {
    Get(fields, "name") == Some(Str(name)) && name in registry
  }

  /** Why these arguments do not conform: unknown names first, then missing ones, then the
      first value of the wrong type. */
  ghost predicate ArgsRefused(index: nat, tool: Tool, args: seq<Field>, problem: Problem) {
    var unknown := exists name :: HasKey(args, name) && name !in tool.inputSpec;
    var missing := exists name :: Requires(tool, name) && !HasKey(args, name);
    match problem
    case UnexpectedArgs(at, names) =>
      at == index && unknown && forall name :: name in names <==> HasKey(args, name) && name !in tool.inputSpec
    case MissingArgs(at, names) =>
      at == index && !unknown && missing && forall name :: name in names <==> Requires(tool, name) && !HasKey(args, name)
    case WrongArgType(at, name) =>
      at == index && !unknown && !missing &&
      exists i :: 0 <= i < |args| && args[i].key == name && Mistyped(tool, args[i]) && forall j :: 0 <= j < i ==> !Mistyped(tool, args[j])
    case _ => false
  }

  ghost predicate Mistyped(tool: Tool, arg: Field) {
    arg.key in tool.inputSpec && !HasType(arg.value, tool.inputSpec[arg.key])
  }

  /** Why a step is refused: the first of the checks, in this order, that it fails. */
  ghost predicate StepRefused(raw: Json, index: nat, count: nat, registry: Registry, problem: Problem) {
    if !raw.Obj? then problem == StepNotAnObject(index)
    else if TypeIs(raw.fields, "halt") then
      if index + 1 != count then problem == HaltNotLast(index)
      else Get(raw.fields, "reason").Some? && !Get(raw.fields, "reason").value.Str? && problem == BadReason(index)
    else if !CallType(raw.fields) then problem == BadType(index)
    else if !exists name :: KnownTool(raw.fields, registry, name) then problem == UnknownTool(index)
    else if !exists args :: ArgsAre(raw.fields, args) then problem == ArgsNotAnObject(index)
    else exists name, args :: KnownTool(raw.fields, registry, name) && ArgsAre(raw.fields, args) && ArgsRefused(index, registry[name], args, problem)
  }

  lemma ArgsProblem(index: nat, tool: Tool, args: seq<Field>)
    requires ValidateArgs(index, tool, Obj(args)).Some?
    ensures ArgsRefused(index, tool, args, ValidateArgs(index, tool, Obj(args)).value)
  {
    hide HasKey, Requires, HasType, MatchesType, FieldKeys;
    var problem := ValidateArgs(index, tool, Obj(args)).value;
    KeysMean(args);
    RequiredMeans(tool);
    var names := FieldKeys(args);
    if names - tool.inputSpec.Keys != {} {
      var name :| name in names - tool.inputSpec.Keys;
      assert HasKey(args, name) && name !in tool.inputSpec;
    } else {
      SubsetByDifference(names, tool.inputSpec.Keys);
      if tool.RequiredArgs() - names != {} {
        var name :| name in tool.RequiredArgs() - names;
        assert Requires(tool, name) && !HasKey(args, name);
      } else {
        SubsetByDifference(tool.RequiredArgs(), names);
        FirstMistyped(tool, args);
      }
    }
  }

  lemma FirstMistyped(tool: Tool, args: seq<Field>)
    requires FieldKeys(args) <= tool.inputSpec.Keys
    ensures var i := FirstMismatch(tool, args, 0);
            (i < |args| ==> Mistyped(tool, args[i])) && forall j :: 0 <= j < i ==> !Mistyped(tool, args[j])
  {
    hide HasType, MatchesType, FirstMismatch;
    forall j | 0 <= j < |args| && args[j].key in tool.inputSpec
      ensures MatchesType(args[j].value, tool.inputSpec[args[j].key]) <==> HasType(args[j].value, tool.inputSpec[args[j].key])
    {
      MatchesHasType(args[j].value, tool.inputSpec[args[j].key]);
    }
  }

  /** The problem reported for a step is the first of the checks it fails. */
  lemma StepProblemExact(raw: Json, index: nat, count: nat, registry: Registry)
    requires index < count && ParseStep(raw, index, count, registry).Err?
    ensures StepRefused(raw, index, count, registry, ParseStep(raw, index, count, registry).problem)
  {
    hide ArgsRefused, Get, StepType, TypeIs, ValidateArgs;
    if raw.Obj? {
      TypeWords(raw.fields);
      ArgsFound(raw.fields);
      if !TypeIs(raw.fields, "halt") && CallType(raw.fields) {
        NamedTool(raw.fields, registry);
        var args := ArgsOf(raw.fields);
        if Get(raw.fields, "name").Some? && Get(raw.fields, "name").value.Str? && Get(raw.fields, "name").value.s in registry && args.Obj? {
          var name := Get(raw.fields, "name").value.s;
          assert KnownTool(raw.fields, registry, name) && ArgsAre(raw.fields, args.fields);
          ArgsProblem(index, registry[name], args.fields);
        } else if !args.Obj? {
          NotAnObjectOfArgs(index, raw.fields, registry);
        }
      }
    }
  }

  lemma NamedTool(fields: seq<Field>, registry: Registry)
    ensures (exists name :: KnownTool(fields, registry, name)) <==>
            Get(fields, "name").Some? && Get(fields, "name").value.Str? && Get(fields, "name").value.s in registry
  {
    hide Get;
    if Get(fields, "name").Some? && Get(fields, "name").value.Str? && Get(fields, "name").value.s in registry {
      assert KnownTool(fields, registry, Get(fields, "name").value.s);
    }
  }

  lemma NotAnObjectOfArgs(index: nat, fields: seq<Field>, registry: Registry)
    requires !ArgsOf(fields).Obj?
    ensures !exists args :: ArgsAre(fields, args)
    ensures forall tool :: ValidateArgs(index, tool, ArgsOf(fields)) == Some(ArgsNotAnObject(index))
  {
    hide Get;
  }

  // ------------------------------------------------------------- a whole object

  /** Why an object is no plan: the goal, the list of steps, the first bad step, or the
      missing halt. */
  ghost predicate DataRefused(data: Json, registry: Registry, problem: Problem) {
    if !data.Obj? then problem == NotAnObject
    else
      var goal, steps := Get(data.fields, "goal"), Get(data.fields, "steps");
      if goal.None? || !goal.value.Str? || !HasNonBlank(goal.value.s) then problem == BadGoal
      else if steps.None? || !steps.value.Arr? || steps.value.items == [] then problem == BadSteps
      else if |steps.value.items| > 32 then problem == TooManySteps(|steps.value.items|)
      else StepsRefused(steps.value.items, registry, problem)
  }

  ghost predicate StepsRefused(raws: seq<Json>, registry: Registry, problem: Problem) {
    || (exists i :: FirstRefused(raws, i, registry, problem))
    || (problem == NoHalt && raws != [] && !IsHalt(raws[|raws| - 1]) && forall i :: 0 <= i < |raws| ==> StepFits(raws[i], i, |raws|, registry))
  }

  ghost predicate FirstRefused(raws: seq<Json>, i: nat, registry: Registry, problem: Problem) {
    && i < |raws| && StepRefused(raws[i], i, |raws|, registry, problem)
    && forall j :: 0 <= j < i ==> StepFits(raws[j], j, |raws|, registry)
  }

  /** `parse_plan` on an object that is no plan reports exactly what is wrong first. */
  lemma DataProblemExact(data: Json, registry: Registry)
    requires ParseData(data, registry).Err?
    ensures DataRefused(data, registry, ParseData(data, registry).problem)
  {
    hide Get, Strip, HasNonBlank, ParseSteps, StepsRefused;
    if data.Obj? {
      var goal, steps := Get(data.fields, "goal"), Get(data.fields, "steps");
      if goal.Some? && goal.value.Str? {
        var _, _ := StripMeans(goal.value.s);
        if HasNonBlank(goal.value.s) && steps.Some? && steps.value.Arr? && steps.value.items != [] && |steps.value.items| <= 32 {
          StepsProblem(steps.value.items, registry);
        }
      }
    }
  }

  lemma StepsProblem(raws: seq<Json>, registry: Registry)
    requires raws != []
    ensures var r := ParseSteps(raws, 0, registry);
            && (r.Err? ==> StepsRefused(raws, registry, r.problem))
            && (r.Ok? ==> |r.value| == |raws| && (!r.value[|raws| - 1].Halt? ==> StepsRefused(raws, registry, NoHalt)))
  {
    hide ParseSteps, ParseStep, StepFits, StepGood, StepRefused, IsHalt;
    var r := ParseSteps(raws, 0, registry);
    var n := |raws|;
    if r.Err? {
      var at := FirstProblem(raws, 0, registry);
      StepProblemExact(raws[at], at, n, registry);
      assert FirstRefused(raws, at, registry, r.problem);
    } else {
      StepsRead(raws, 0, registry);
      StepsAccepted(raws, 0, registry);
      assert StepGood(raws[n - 1], r.value[n - 1], n - 1, n, registry) && StepFits(raws[n - 1], n - 1, n, registry);
      HaltMeansHalt(raws[n - 1], r.value[n - 1], n - 1, n, registry);
    }
  }

  // ------------------------------------------------------------------ extraction

  /** The text from its first brace on, if it has one. */
  ghost predicate FromFirstBrace(text: string, body: Option<string>) {
    match body
    case None => '{' !in text
    case Some(b) => exists start :: 0 <= start < |text| && text[start] == '{' && '{' !in text[..start] && b == text[start..]
  }

  lemma FromBraceExact(text: string)
    ensures FromFirstBrace(text, FromBrace(text))
  {
    var p := Find(text, "{");
    if p >= 0 {
      assert text[p..p + 1] == "{" && text[p] == text[p..p + 1][0];
      forall k | 0 <= k < p ensures text[k] != '{' {
        if text[k] == '{' {
          assert text[k..k + 1] == "{";
          assert OccursAt(text, "{", k);
        }
      }
      assert '{' !in text[..p];
    } else {
      forall k | 0 <= k < |text| ensures text[k] != '{' {
        if text[k] == '{' {
          assert text[k..k + 1] == "{";
          assert OccursAt(text, "{", k);
        }
      }
    }
  }

  /** A response that does not begin with a fence, blanks aside, is read from its first
      brace on, whatever comes before. */
  lemma UnfencedBody(response: string)
    requires !("```" <= Strip(response))
    ensures FromFirstBrace(Strip(response), ExtractBody(response))
  {
    hide Strip, FromFirstBrace, FromBrace;
    FromBraceExact(Strip(response));
  }

  /** A fence with no line break after it has no body. */
  lemma FenceWithoutLine(response: string)
    requires "```" <= Strip(response) && '\n' !in Strip(response)
    ensures ExtractBody(response) == None
  {
    hide Strip, FromBrace;
    var text := Strip(response);
    FoundLetter(text, '\n');
  }

  lemma FoundLetter(text: string, letter: char)
    ensures Find(text, [letter]) >= 0 ==> letter in text
  {
    var p := Find(text, [letter]);
    if p >= 0 {
      assert text[p..p + 1] == [letter];
      assert text[p] == text[p..p + 1][0];
    }
  }

  /** What the fence encloses: everything up to the last fence after the first line, or
      everything if there is none. */
  ghost predicate Enclosed(inner: string, content: string) {
    || (content == inner && forall q :: !OccursAt(inner, "```", q))
    || exists cut :: OccursAt(inner, "```", cut) && content == inner[..cut] && forall q :: q > cut ==> !OccursAt(inner, "```", q)
  }

  /** A fenced response is read from the first brace of what the fence encloses. */
  lemma FencedResponse(response: string, head: string, inner: string) returns (content: string)
    requires "```" <= Strip(response) && Strip(response) == head + "\n" + inner && '\n' !in head
    ensures Enclosed(inner, content) && FromFirstBrace(Strip(content), ExtractBody(response))
  {
    hide Strip, FromFirstBrace, FromBrace, Find, FindLast;
    FirstNewline(head, inner);
    SplitAt(head, inner);
    var closing := FindLast(inner, FENCE);
    content := if closing >= 0 then inner[..closing] else inner;
    FromBraceExact(Strip(content));
  }

  // ---------------------------------------------------------------- whole responses

  /** The body of the response begins with a JSON text of this value. */
  ghost predicate Holds(response: string, data: Json) {
    && ExtractBody(response).Some?
    && exists t, rest :: Grammar.Begins(ExtractBody(response).value, t, data, rest)
  }

  /** A response becomes a plan if and only if its body begins with a JSON text of an
      acceptable object; if it begins with no JSON text, that is what is reported. */
  lemma ResponseAccepted(response: string, registry: Registry)
    ensures ParseText(response, registry).Ok? <==> exists data :: Holds(response, data) && Acceptable(data, registry)
    ensures (forall data :: !Holds(response, data)) ==> ParseText(response, registry) == Err(NoJson)
  {
    hide ExtractBody, Read, ParseData, Acceptable, Grammar.Begins;
    if ExtractBody(response).Some? {
      var body := ExtractBody(response).value;
      forall j | Holds(response, j) ensures Read(body).Got? && Read(body).value == j {
        var t, rest :| Grammar.Begins(body, t, j, rest);
        Reader.ReadExact(body, j, rest);
      }
      if Read(body).Got? {
        Reader.ReadExact(body, Read(body).value, Read(body).rest);
        assert Holds(response, Read(body).value);
        AcceptsExactly(Read(body).value, registry);
      }
    }
  }
}
