/** What `parse_plan` accepts, what it returns, and that plans survive printing. */
module PlanTheorems {
  import opened Json
  import opened Text
  import opened Plans
  import RoundTrip = JsonRoundTrip

  // ---------------------------------------------------- acceptance, stated outright

  /** The step's type is a string that spells the word, in any letter case. */
  ghost predicate TypeIs(fields: seq<Field>, word: string) {
    Get(fields, "type").Some? && Get(fields, "type").value.Str? && IgnoringCase(Get(fields, "type").value.s, word)
  }

  ghost predicate CallType(fields: seq<Field>) {
    TypeIs(fields, "tool") || TypeIs(fields, "toolcall")
  }

  /** The step's arguments; none given means an empty object. */
  ghost predicate ArgsAre(fields: seq<Field>, args: seq<Field>) {
    match Get(fields, "args")
    case None => args == []
    case Some(value) => value == Obj(args)
  }

  /** A step object that is a tool call the registry admits. */
  ghost predicate IsCall(raw: Json, registry: Registry) {
    && raw.Obj? && CallType(raw.fields)
    && Get(raw.fields, "name").Some? && Get(raw.fields, "name").value.Str?
    && Get(raw.fields, "name").value.s in registry
    && exists args :: ArgsAre(raw.fields, args) && ArgsConform(registry[Get(raw.fields, "name").value.s], args)
  }

  ghost predicate IsHalt(raw: Json) {
    && raw.Obj? && TypeIs(raw.fields, "halt")
    && (Get(raw.fields, "reason").Some? ==> Get(raw.fields, "reason").value.Str?)
  }

  /** Calls the registry admits, then one halt. */
  ghost predicate AcceptableSteps(raws: seq<Json>, registry: Registry) {
    && raws != []
    && (forall i :: 0 <= i < |raws| - 1 ==> IsCall(raws[i], registry))
    && IsHalt(raws[|raws| - 1])
  }

  /** A non-blank goal and 1 to 32 steps: calls the registry admits, then one halt. */
  ghost predicate Acceptable(data: Json, registry: Registry) {
    && data.Obj?
    && Get(data.fields, "goal").Some? && Get(data.fields, "goal").value.Str?
    && HasNonBlank(Get(data.fields, "goal").value.s)
    && Get(data.fields, "steps").Some? && Get(data.fields, "steps").value.Arr?
    && |Get(data.fields, "steps").value.items| <= 32
    && AcceptableSteps(Get(data.fields, "steps").value.items, registry)
  }

  /** A plan the executor may run. */
  ghost predicate ValidPlan(plan: Plan, registry: Registry) {
    && Trimmed(plan.goal)
    && 1 <= |plan.steps| <= 32
    && plan.steps[|plan.steps| - 1].Halt?
    && forall i :: 0 <= i < |plan.steps| - 1 ==> ValidCall(plan.steps[i], registry)
  }

  ghost predicate ValidCall(step: Step, registry: Registry) {
    step.ToolCall? && step.name in registry && ArgsConform(registry[step.name], step.args)
  }

  /** Each step of a plan is what the step of the response at its place says. */
  ghost predicate StepMeans(raw: Json, step: Step) {
    raw.Obj? &&
    match step
    case Halt(reason) =>
      TypeIs(raw.fields, "halt") &&
      Some(Str(reason)) == (if Get(raw.fields, "reason").None? then Some(Str("Complete")) else Get(raw.fields, "reason"))
    case ToolCall(name, args) =>
      CallType(raw.fields) && Get(raw.fields, "name") == Some(Str(name)) && ArgsAre(raw.fields, args)
  }

  // --------------------------------------------------------------- single steps

  /** The type test agrees with the constructor-by-constructor statement. */
  lemma MatchesHasType(value: Json, expected: Type)
    ensures MatchesType(value, expected) <==> HasType(value, expected)
  {
  }

  lemma KeysMean(fields: seq<Field>)
    ensures forall key :: key in FieldKeys(fields) <==> HasKey(fields, key)
  {
    forall key ensures key in FieldKeys(fields) <==> HasKey(fields, key) {
      if HasKey(fields, key) {
        var i :| 0 <= i < |fields| && fields[i].key == key;
        assert fields[i] in fields;
      }
    }
  }

  lemma RequiredMeans(tool: Tool)
    ensures forall name :: name in tool.RequiredArgs() <==> Requires(tool, name)
  {
  }

  /** Validation passes exactly for an object whose arguments conform. */
  lemma ArgsChecked(index: nat, tool: Tool, args: Json)
    ensures ValidateArgs(index, tool, args).None? <==> args.Obj? && ArgsConform(tool, args.fields)
  {
    hide MatchesType, HasType, HasKey, Requires;
    if args.Obj? {
      var names := FieldKeys(args.fields);
      KeysMean(args.fields);
      RequiredMeans(tool);
      if names - tool.inputSpec.Keys == {} {
        SubsetByDifference(names, tool.inputSpec.Keys);
        TypesMatch(tool, args.fields);
      } else {
        UnknownArgument(tool, args.fields);
      }
      hide FieldKeys, FirstMismatch;
      if tool.RequiredArgs() - names == {} {
        SubsetByDifference(tool.RequiredArgs(), names);
      } else {
        var name :| name in tool.RequiredArgs() - names;
        assert !HasKey(args.fields, name);
      }
    }
  }

  lemma UnknownArgument(tool: Tool, args: seq<Field>)
    requires FieldKeys(args) - tool.inputSpec.Keys != {}
    ensures !ArgsConform(tool, args)
  {
    var name :| name in FieldKeys(args) - tool.inputSpec.Keys;
    var i :| 0 <= i < |args| && args[i].key == name;
  }

  lemma TypesMatch(tool: Tool, args: seq<Field>)
    requires FieldKeys(args) <= tool.inputSpec.Keys
    ensures FirstMismatch(tool, args, 0) == |args| <==>
            forall i :: 0 <= i < |args| ==> args[i].key in tool.inputSpec && HasType(args[i].value, tool.inputSpec[args[i].key])
  {
    hide MatchesType, HasType;
    forall i | 0 <= i < |args| ensures args[i].key in tool.inputSpec &&
                                       (MatchesType(args[i].value, tool.inputSpec[args[i].key]) <==> HasType(args[i].value, tool.inputSpec[args[i].key])) {
      assert args[i].key in FieldKeys(args);
      MatchesHasType(args[i].value, tool.inputSpec[args[i].key]);
    }
  }

  /** How the lower-cased type compares with the three words. */
  lemma TypeWords(fields: seq<Field>)
    ensures StepType(fields) == "halt" <==> TypeIs(fields, "halt")
    ensures StepType(fields) == "tool" <==> TypeIs(fields, "tool")
    ensures StepType(fields) == "toolcall" <==> TypeIs(fields, "toolcall")
    ensures TypeIs(fields, "halt") ==> !CallType(fields)
  {
    match Get(fields, "type")
    case Some(Str(s)) =>
      LowerIgnoresCase(s, "halt");
      LowerIgnoresCase(s, "tool");
      LowerIgnoresCase(s, "toolcall");
      WordsDiffer();
      hide Lower, IgnoringCase;
    case _ =>
      WordsDiffer();
      hide Lower, IgnoringCase;
  }

  lemma WordsDiffer()
    ensures "halt" != "tool" && "halt" != "toolcall" && "tool" != "" && "halt" != "" && "toolcall" != ""
  {
    assert "halt"[0] == 'h' && "tool"[0] == 't' && "toolcall"[0] == 't';
  }

  lemma ArgsFound(fields: seq<Field>)
    ensures ArgsOf(fields).Obj? ==> ArgsAre(fields, ArgsOf(fields).fields)
    ensures forall args :: ArgsAre(fields, args) ==> ArgsOf(fields) == Obj(args)
  {
  }

  /** A step of a response that may stand at its place. */
  ghost predicate StepFits(raw: Json, index: nat, count: nat, registry: Registry) {
    IsCall(raw, registry) || (IsHalt(raw) && index + 1 == count)
  }

  /** A step of a plan that says what the response says and may be executed there. */
  ghost predicate StepGood(raw: Json, step: Step, index: nat, count: nat, registry: Registry) {
    StepMeans(raw, step) && (ValidCall(step, registry) || (step.Halt? && index + 1 == count))
  }

  lemma StepChecked(raw: Json, index: nat, count: nat, registry: Registry)
    requires index < count
    ensures ParseStep(raw, index, count, registry).Ok? <==> StepFits(raw, index, count, registry)
    ensures var r := ParseStep(raw, index, count, registry);
            r.Ok? ==> StepGood(raw, r.value, index, count, registry)
  {
    hide ArgsConform, Get, StepType, TypeIs, ArgsOf, ArgsAre, ValidateArgs;
    if raw.Obj? {
      TypeWords(raw.fields);
      ArgsFound(raw.fields);
      if Get(raw.fields, "name").Some? && Get(raw.fields, "name").value.Str? && Get(raw.fields, "name").value.s in registry {
        ArgsChecked(index, registry[Get(raw.fields, "name").value.s], ArgsOf(raw.fields));
      }
    }
  }

  // ------------------------------------------------------------------ all steps

  lemma {:induction false} StepsAccepted(raws: seq<Json>, index: nat, registry: Registry)
    requires index <= |raws|
    ensures ParseSteps(raws, index, registry).Ok? <==> forall i :: index <= i < |raws| ==> StepFits(raws[i], i, |raws|, registry)
    decreases |raws| - index
  {
    hide ParseStep, StepFits, StepGood;
    if index < |raws| {
      StepChecked(raws[index], index, |raws|, registry);
      StepsAccepted(raws, index + 1, registry);
    }
  }

  lemma {:induction false} StepsRead(raws: seq<Json>, index: nat, registry: Registry)
    requires index <= |raws|
    requires ParseSteps(raws, index, registry).Ok?
    ensures var steps := ParseSteps(raws, index, registry).value;
            && |steps| == |raws| - index
            && forall i :: index <= i < |raws| ==> StepGood(raws[i], steps[i - index], i, |raws|, registry)
    decreases |raws| - index
  {
    hide ParseStep, StepFits, StepGood;
    if index < |raws| {
      StepChecked(raws[index], index, |raws|, registry);
      StepsRead(raws, index + 1, registry);
    }
  }

  /** The problem reported is that of the first step that has one. */
  lemma {:induction false} FirstProblem(raws: seq<Json>, index: nat, registry: Registry) returns (at: nat)
    requires index <= |raws|
    requires ParseSteps(raws, index, registry).Err?
    ensures index <= at < |raws|
    ensures ParseStep(raws[at], at, |raws|, registry).Err?
    ensures ParseSteps(raws, index, registry).problem == ParseStep(raws[at], at, |raws|, registry).problem
    ensures !StepFits(raws[at], at, |raws|, registry)
    ensures forall i :: index <= i < at ==> StepFits(raws[i], i, |raws|, registry)
    decreases |raws| - index
  {
    hide ParseStep, StepFits, StepGood;
    StepChecked(raws[index], index, |raws|, registry);
    if ParseStep(raws[index], index, |raws|, registry).Err? {
      at := index;
    } else {
      at := FirstProblem(raws, index + 1, registry);
    }
  }

  // ------------------------------------------------------------------- theorems

  lemma StepsFit(raws: seq<Json>, registry: Registry)
    requires raws != [] && IsHalt(raws[|raws| - 1])
    ensures AcceptableSteps(raws, registry) <==> forall i :: 0 <= i < |raws| ==> StepFits(raws[i], i, |raws|, registry)
  {
    hide IsCall, IsHalt;
    assert forall i :: 0 <= i < |raws| - 1 ==> (StepFits(raws[i], i, |raws|, registry) <==> IsCall(raws[i], registry));
  }

  /** Halts and calls are told apart by the step's type. */
  lemma HaltMeansHalt(raw: Json, step: Step, index: nat, count: nat, registry: Registry)
    requires StepFits(raw, index, count, registry) && StepGood(raw, step, index, count, registry)
    ensures step.Halt? <==> IsHalt(raw)
    ensures step.ToolCall? ==> ValidCall(step, registry)
  {
    hide ArgsConform, TypeIs, Get, ArgsAre;
    if raw.Obj? {
      TypeWords(raw.fields);
    }
  }

  lemma AcceptableStepsParse(raws: seq<Json>, registry: Registry)
    ensures var r := ParseSteps(raws, 0, registry);
            && (r.Ok? && r.value != [] && r.value[|r.value| - 1].Halt? <==> AcceptableSteps(raws, registry))
            && (AcceptableSteps(raws, registry) ==>
                && |r.value| == |raws|
                && (forall i :: 0 <= i < |raws| ==> StepGood(raws[i], r.value[i], i, |raws|, registry)))
  {
    hide *;
    StepsAccepted(raws, 0, registry);
    var r := ParseSteps(raws, 0, registry);
    var n := |raws|;
    if r.Ok? {
      StepsRead(raws, 0, registry);
      if n > 0 {
        assert StepFits(raws[n - 1], n - 1, n, registry);
        assert StepGood(raws[n - 1], r.value[n - 1], n - 1, n, registry);
        HaltMeansHalt(raws[n - 1], r.value[n - 1], n - 1, n, registry);
      }
    }
    AcceptableEnds(raws, registry);
    if n > 0 && IsHalt(raws[n - 1]) {
      StepsFit(raws, registry);
    }
  }

  lemma AcceptableEnds(raws: seq<Json>, registry: Registry)
    ensures AcceptableSteps(raws, registry) ==> raws != [] && IsHalt(raws[|raws| - 1])
  {
    hide IsHalt;
  }

  lemma GoodStepsValid(raws: seq<Json>, steps: seq<Step>, registry: Registry)
    requires |steps| == |raws|
    requires forall i :: 0 <= i < |raws| ==> StepGood(raws[i], steps[i], i, |raws|, registry)
    ensures forall i :: 0 <= i < |steps| ==> StepMeans(raws[i], steps[i])
    ensures forall i :: 0 <= i < |steps| - 1 ==> ValidCall(steps[i], registry)
  {
    hide StepMeans, ValidCall;
    forall i | 0 <= i < |steps| ensures StepMeans(raws[i], steps[i]) && (i < |steps| - 1 ==> ValidCall(steps[i], registry)) {
      assert StepGood(raws[i], steps[i], i, |raws|, registry);
    }
  }

  /** `parse_plan` returns a plan for exactly the acceptable objects, and the plan
      returned is valid and says what the object says. */
  lemma AcceptsExactly(data: Json, registry: Registry)
    ensures var r := ParseData(data, registry);
            && (r.Ok? <==> Acceptable(data, registry))
            && (r.Ok? ==>
                && ValidPlan(r.value, registry)
                && r.value.goal == Strip(Get(data.fields, "goal").value.s)
                && |r.value.steps| == |Get(data.fields, "steps").value.items|
                && forall i :: 0 <= i < |r.value.steps| ==> StepMeans(Get(data.fields, "steps").value.items[i], r.value.steps[i]))
  {
    hide ParseSteps, AcceptableSteps, ValidCall, StepMeans, StepGood, Get, Strip, Trimmed, HasNonBlank;
    if data.Obj? {
      var goal, steps := Get(data.fields, "goal"), Get(data.fields, "steps");
      if goal.Some? && goal.value.Str? && steps.Some? && steps.value.Arr? {
        var _, _ := StripMeans(goal.value.s);
        var raws := steps.value.items;
        AcceptableEnds(raws, registry);
        AcceptableStepsParse(raws, registry);
        if AcceptableSteps(raws, registry) {
          GoodStepsValid(raws, ParseSteps(raws, 0, registry).value, registry);
        }
      }
    }
  }

  lemma CallPrints(step: Step)
    requires step.ToolCall?
    ensures var fs := StepToJson(step).fields;
            && Get(fs, "type") == Some(Str("tool")) && Get(fs, "name") == Some(Str(step.name)) && Get(fs, "args") == Some(Obj(step.args))
  {
    var fs := StepToJson(step).fields;
    assert fs[1..][0] == fs[1] && fs[2..][0] == fs[2];
    assert Get(fs, "type") == Some(Str("tool"));
    assert Get(fs, "name") == Get(fs[1..], "name") == Some(fs[1].value);
    assert Get(fs, "args") == Get(fs[1..], "args") == Get(fs[1..][1..], "args") == Some(fs[2].value);
  }

  lemma HaltPrints(step: Step)
    requires step.Halt?
    ensures var fs := StepToJson(step).fields;
            Get(fs, "type") == Some(Str("halt")) && Get(fs, "reason") == Some(Str(step.reason))
  {
    var fs := StepToJson(step).fields;
    assert Get(fs, "reason") == Get(fs[1..], "reason") == Some(fs[1].value);
  }

  lemma {:induction false} PrintedStepsParse(steps: seq<Step>, index: nat, registry: Registry)
    requires index <= |steps|
    requires forall i :: 0 <= i < |steps| ==> ValidCall(steps[i], registry) || (steps[i].Halt? && i + 1 == |steps|)
    ensures ParseSteps(StepsToJson(steps), index, registry) == Ok(steps[index..])
    decreases |steps| - index
  {
    hide ParseStep, ValidCall, StepToJson;
    var raws := StepsToJson(steps);
    if index == |steps| {
      assert steps[index..] == [];
    } else {
      PrintedStepsParse(steps, index + 1, registry);
      PrintedStepParses(steps[index], index, |steps|, registry);
      assert [steps[index]] + steps[index + 1..] == steps[index..];
    }
  }

  lemma PrintedStepParses(step: Step, index: nat, count: nat, registry: Registry)
    requires ValidCall(step, registry) || (step.Halt? && index + 1 == count)
    ensures StepToJson(step).Obj? && ParseStep(StepToJson(step), index, count, registry) == Ok(step)
  {
    hide Get, StepType, ArgsConform, ValidateArgs, Lower;
    var raw := StepToJson(step);
    TypeWords(raw.fields);
    WordsDiffer();
    if step.Halt? {
      HaltPrints(step);
      SpellsItself("halt");
    } else {
      CallPrints(step);
      SpellsItself("tool");
      ArgsChecked(index, registry[step.name], Obj(step.args));
    }
  }

  lemma SpellsItself(word: string)
    ensures IgnoringCase(word, word)
  {
  }

  lemma PlanPrints(plan: Plan)
    ensures var fs := PlanToJson(plan).fields;
            Get(fs, "goal") == Some(Str(plan.goal)) && Get(fs, "steps") == Some(Arr(StepsToJson(plan.steps)))
  {
    var fs := PlanToJson(plan).fields;
    assert Get(fs, "steps") == Get(fs[1..], "steps") == Some(fs[1].value);
  }

  /** Parsing a plan's own JSON gives the plan back if and only if the plan is valid. */
  lemma ParseInvertsPrint(plan: Plan, registry: Registry)
    ensures ParseData(PlanToJson(plan), registry) == Ok(plan) <==> ValidPlan(plan, registry)
  {
    hide ParseData, ValidPlan, Acceptable, StepMeans, Get, Strip, PlanToJson;
    AcceptsExactly(PlanToJson(plan), registry);
    if ValidPlan(plan, registry) {
      ValidPlanParses(plan, registry);
    }
  }

  lemma ValidPlanParses(plan: Plan, registry: Registry)
    requires ValidPlan(plan, registry)
    ensures ParseData(PlanToJson(plan), registry) == Ok(plan)
  {
    hide ParseSteps, Get, Strip, StepsToJson, ArgsConform;
    PlanPrints(plan);
    TrimmedIsKept(plan.goal);
    PrintedStepsParse(plan.steps, 0, registry);
    assert plan.steps[0..] == plan.steps;
  }

  /** Whatever is parsed re-parses to itself: `parse_plan` is a normaliser. */
  lemma ParsedPlanReparses(data: Json, registry: Registry)
    requires ParseData(data, registry).Ok?
    ensures var plan := ParseData(data, registry).value;
            ParseData(PlanToJson(plan), registry) == Ok(plan)
  {
    AcceptsExactly(data, registry);
    ParseInvertsPrint(ParseData(data, registry).value, registry);
  }

  // ------------------------------------------------------------------ as text

  ghost predicate WellFormedPlan(plan: Plan) {
    WellFormed(PlanToJson(plan))
  }

  lemma PrintedObjectEdges(st: Style, fields: seq<Field>)
    ensures var t := Print(st, Obj(fields));
            |t| >= 2 && t[0] == '{' && t[|t| - 1] == '}'
  {
  }

  /** A response that is nothing but an object is taken whole. */
  lemma BareBody(body: string)
    requires |body| >= 2 && body[0] == '{' && body[|body| - 1] == '}'
    ensures ExtractBody(body) == Some(body)
  {
    TrimmedIsKept(body);
    assert FENCE[0] == '`';
    BraceFirst(body);
  }

  lemma BraceFirst(body: string)
    requires body != "" && body[0] == '{'
    ensures FromBrace(body) == Some(body)
  {
    assert body[0..1] == "{";
    assert OccursAt(body, "{", 0);
    assert body[0..] == body;
  }

  /** Extraction undoes a fence around any body in braces, even one that contains
      fences of its own. */
  lemma FencedBody(tag: string, body: string)
    requires '\n' !in tag
    requires |body| >= 2 && body[0] == '{' && body[|body| - 1] == '}'
    ensures ExtractBody(FENCE + tag + "\n" + body + "\n" + FENCE) == Some(body)
  {
    hide Strip, Find, FindLast, FromBrace;
    var head := FENCE + tag;
    var inner := body + "\n" + FENCE;
    var text := head + "\n" + inner;
    assert text == FENCE + tag + "\n" + body + "\n" + FENCE;
    assert Strip(text) == text by {
      FenceEnds(head + "\n" + body + "\n");
      assert text == head + "\n" + body + "\n" + FENCE;
      TrimmedIsKept(text);
    }
    assert FENCE <= text;
    SplitAt(head, inner);
    FirstNewline(head, inner);
    assert FindLast(inner, FENCE) == |body| + 1 by {
      FenceEnds(body + "\n");
    }
    assert inner[..|body| + 1] == body + "\n";
    StripNewline(body);
    BraceFirst(body);
  }

  lemma SplitAt(head: string, inner: string)
    ensures (head + "\n" + inner)[|head| + 1..] == inner
  {
  }

  lemma FenceEnds(s: string)
    ensures OccursAt(s + FENCE, FENCE, |s|)
    ensures FindLast(s + FENCE, FENCE) == |s|
    ensures (s + FENCE)[|s + FENCE| - 1] == '`'
  {
    assert |FENCE| == 3;
    assert (s + FENCE)[|s|..|s| + 3] == FENCE;
    assert OccursAt(s + FENCE, FENCE, |s|);
  }

  lemma FirstNewline(head: string, inner: string)
    requires '\n' !in head
    ensures Find(head + "\n" + inner, "\n") == |head|
  {
    var text := head + "\n" + inner;
    assert text[|head|..|head| + 1] == "\n";
    assert OccursAt(text, "\n", |head|);
    var p := Find(text, "\n");
    assert text[p] == text[p..p + 1][0] == '\n';
    assert forall i :: 0 <= i < |head| ==> text[i] == head[i] && head[i] in head;
  }

  lemma StripNewline(body: string)
    requires Trimmed(body)
    ensures Strip(body + "\n") == body
  {
    var s := body + "\n";
    assert s[..|s| - 1] == body;
    assert StripLeft(s) == s;
    assert StripRight(s) == StripRight(body);
  }

  /** The text round trip that every execution starts with: a valid plan printed with
      `json.dumps` and parsed again is the same plan. */
  lemma TextRoundTrip(st: Style, plan: Plan, registry: Registry)
    requires ValidPlan(plan, registry) && WellFormedPlan(plan)
    ensures ParseText(Print(st, PlanToJson(plan)), registry) == Ok(plan)
  {
    var t := Print(st, PlanToJson(plan));
    PrintedObjectEdges(st, PlanToJson(plan).fields);
    BareBody(t);
    RoundTrip.ReadsBack(st, PlanToJson(plan), "");
    assert t + "" == t;
    ParseInvertsPrint(plan, registry);
  }

  /** The same through a fence, whatever text the plan's strings hold. */
  lemma FencedRoundTrip(st: Style, tag: string, plan: Plan, registry: Registry)
    requires ValidPlan(plan, registry) && WellFormedPlan(plan) && '\n' !in tag
    ensures ParseText(FENCE + tag + "\n" + Print(st, PlanToJson(plan)) + "\n" + FENCE, registry) == Ok(plan)
  {
    var t := Print(st, PlanToJson(plan));
    PrintedObjectEdges(st, PlanToJson(plan).fields);
    FencedBody(tag, t);
    RoundTrip.ReadsBack(st, PlanToJson(plan), "");
    assert t + "" == t;
    ParseInvertsPrint(plan, registry);
  }

  // ---------------------------------------------- every plan parsed is well formed

  lemma {:induction false} PutDistinct(fs: seq<Field>, f: Field)
    requires DistinctKeys(fs)
    ensures DistinctKeys(Put(fs, f))
    ensures forall g :: g in Put(fs, f) ==> g == f || g in fs
  {
    if fs != [] && fs[0].key != f.key {
      var rest := Put(fs[1..], f);
      PutDistinct(fs[1..], f);
      forall i, j | 0 <= i < j < |[fs[0]] + rest| ensures ([fs[0]] + rest)[i].key != ([fs[0]] + rest)[j].key {
        if i == 0 {
          var g := rest[j - 1];
          assert g in rest;
          if g != f {
            var k :| 0 <= k < |fs[1..]| && fs[1..][k] == g;
            assert fs[k + 1] == g;
          }
        }
      }
    }
  }

  lemma {:induction false} ToDictDistinct(fs: seq<Field>)
    ensures DistinctKeys(ToDict(fs))
    ensures forall g :: g in ToDict(fs) ==> g in fs
  {
    if fs != [] {
      ToDictDistinct(fs[..|fs| - 1]);
      PutDistinct(ToDict(fs[..|fs| - 1]), fs[|fs| - 1]);
    }
  }

  lemma {:induction false} ReadWellFormed(s: string)
    requires Read(s).Got?
    ensures WellFormed(Read(s).value)
    decreases |s|, 0
  {
    var t := SkipSpace(s[1..]);
    if s[0] == '[' {
      if t == "" || t[0] != ']' {
        ReadItemsWellFormed(t);
      }
    } else if s[0] == '{' {
      if t == "" || t[0] != '}' {
        ReadFieldsWellFormed(t);
        var fs := ReadFields(t).value;
        ToDictDistinct(fs);
        forall i | 0 <= i < |ToDict(fs)| ensures WellFormed(ToDict(fs)[i].value) {
          assert ToDict(fs)[i] in fs;
        }
      }
    }
  }

  lemma {:induction false} ReadItemsWellFormed(s: string)
    requires ReadItems(s).Got?
    ensures forall i :: 0 <= i < |ReadItems(s).value| ==> WellFormed(ReadItems(s).value[i])
    decreases |s|, 1
  {
    ReadWellFormed(s);
    var t := SkipSpace(Read(s).rest);
    if t[0] == ',' {
      ReadItemsWellFormed(SkipSpace(t[1..]));
    }
  }

  lemma {:induction false} ReadFieldsWellFormed(s: string)
    requires ReadFields(s).Got?
    ensures forall i :: 0 <= i < |ReadFields(s).value| ==> WellFormed(ReadFields(s).value[i].value)
    decreases |s|, 1
  {
    var t := SkipSpace(ReadString(s[1..]).rest);
    ReadWellFormed(SkipSpace(t[1..]));
    var u := SkipSpace(Read(SkipSpace(t[1..])).rest);
    if u[0] == ',' {
      ReadFieldsWellFormed(SkipSpace(u[1..]));
    }
  }

  lemma StepWellFormed(step: Step)
    requires step.ToolCall? ==> WellFormed(Obj(step.args))
    ensures WellFormed(StepToJson(step))
  {
    var fs := StepToJson(step).fields;
    assert fs[0].key[0] == 't' && (step.Halt? ==> fs[1].key[0] == 'r') && (step.ToolCall? ==> fs[1].key[0] == 'n' && fs[2].key[0] == 'a');
    assert DistinctKeys(fs);
  }

  lemma StepsMakeWellFormed(plan: Plan)
    requires forall i :: 0 <= i < |plan.steps| && plan.steps[i].ToolCall? ==> WellFormed(Obj(plan.steps[i].args))
    ensures WellFormedPlan(plan)
  {
    forall i | 0 <= i < |plan.steps| ensures WellFormed(StepToJson(plan.steps[i])) {
      StepWellFormed(plan.steps[i]);
    }
    var fs := PlanToJson(plan).fields;
    assert |fs[0].key| == 4 && |fs[1].key| == 5;
    assert DistinctKeys(fs);
  }

  lemma {:induction false} GetWellFormed(fields: seq<Field>, key: string)
    requires forall i :: 0 <= i < |fields| ==> WellFormed(fields[i].value)
    ensures Get(fields, key).Some? ==> WellFormed(Get(fields, key).value)
  {
    if fields != [] && fields[0].key != key {
      GetWellFormed(fields[1..], key);
    }
  }

  lemma ParsedStepArgs(raw: Json, step: Step)
    requires WellFormed(raw) && StepMeans(raw, step) && step.ToolCall?
    ensures WellFormed(Obj(step.args))
  {
    GetWellFormed(raw.fields, "args");
  }

  /** Whatever `parse_plan` returns can be printed and read back. */
  lemma ParsedPlanWellFormed(response: string, registry: Registry)
    requires ParseText(response, registry).Ok?
    ensures ValidPlan(ParseText(response, registry).value, registry)
    ensures WellFormedPlan(ParseText(response, registry).value)
  {
    hide ExtractBody, ParseData, Read, Get, ValidCall;
    var data := Read(ExtractBody(response).value).value;
    var plan := ParseText(response, registry).value;
    AcceptsExactly(data, registry);
    ReadWellFormed(ExtractBody(response).value);
    hide ParseText;
    GetWellFormed(data.fields, "steps");
    var raws := Get(data.fields, "steps").value.items;
    forall i | 0 <= i < |plan.steps| && plan.steps[i].ToolCall? ensures WellFormed(Obj(plan.steps[i].args)) {
      ParsedStepArgs(raws[i], plan.steps[i]) by { hide ArgsOf; assert StepMeans(raws[i], plan.steps[i]); }
    }
    StepsMakeWellFormed(plan);
  }
}
