/** ASON: a policy check over a requested plan, its translation to an APEX plan, and the
    authorization that binds the two. */
module Ason {
  import opened Json
  import opened Text
  import opened Plans
  import opened Binding
  import BT = BindingTheorems
  import PT = PlanTheorems
  import Canonical
  import RoundTrip = JsonRoundTrip

  datatype Radius = NoRadius | Local | Network

  datatype Policy = Policy(maxSteps: int, allowedTools: seq<string>, radius: Radius, rollback: bool) {
    /** The bounds the schema enforces. */
    predicate Valid() {
      1 <= maxSteps <= 32
    }
  }

  datatype RequestStep = RequestStep(tool: string, args: seq<Field>)

  datatype Request = Request(steps: seq<RequestStep>, policy: Policy)

  const BLOCKED := {"shell"}
  const BLOCKED_WITHOUT_RADIUS := {"write_file", "delete_file", "memory_write", "http_get", "http_post", "rag_multi_query"}
  const BLOCKED_LOCALLY := {"http_get", "http_post", "rag_multi_query"}
  const CLASSIFIED := {"read_file", "memory_read"} + BLOCKED_WITHOUT_RADIUS

  function RadiusBlocks(radius: Radius): set<string> {
    match radius
    case NoRadius => BLOCKED_WITHOUT_RADIUS
    case Local => BLOCKED_LOCALLY
    case Network => {}
  }

  datatype Violation =
    | TooManySteps(count: nat)
    | UnconditionallyBlocked(index: nat)
    | Unclassified(index: nat)
    | NotAllowed(index: nat)
    | BlockedByRadius(index: nat)

  /** The block list, the classified tools and the radius lists, as what they leave. */
  lemma ListsMean(tool: string, radius: Radius)
    ensures tool in BLOCKED <==> tool == "shell"
    ensures tool in CLASSIFIED <==> tool in NETWORK_TOOLS
    ensures tool == "shell" ==> tool !in NETWORK_TOOLS
    ensures tool in RadiusBlocks(radius) <==> tool in NETWORK_TOOLS && tool !in Reach(radius)
  {
    assert "shell"[0] == 's';
    assert forall t :: t in NETWORK_TOOLS ==> |t| > 0 && t[0] != 's';
    assert "http_get"[0] == 'h' && "read_file"[0] == 'r' && "write_file"[0] == 'w' && "delete_file"[0] == 'd' && "memory_read"[0] == 'm';
    assert |"memory_read"| == 11 && |"memory_write"| == 12 && |"rag_multi_query"| == 15 && |"read_file"| == 9;
  }

  /** What the first loop has to say about a step. */
  ghost function FirstOf(policy: Policy, tool: string, i: nat): seq<Violation> {
    if tool == "shell" then [UnconditionallyBlocked(i)]
    else if tool !in NETWORK_TOOLS then [Unclassified(i)]
    else if policy.allowedTools != [] && tool !in policy.allowedTools then [NotAllowed(i)]
    else []
  }

  /** What the second loop has to say about it. */
  ghost function SecondOf(policy: Policy, tool: string, i: nat): seq<Violation> {
    if tool in NETWORK_TOOLS && tool !in Reach(policy.radius) then [BlockedByRadius(i)] else []
  }

  ghost function FirstPass(req: Request, n: nat): seq<Violation>
    requires n <= |req.steps|
  {
    if n == 0 then [] else FirstPass(req, n - 1) + FirstOf(req.policy, req.steps[n - 1].tool, n - 1)
  }

  ghost function SecondPass(req: Request, n: nat): seq<Violation>
    requires n <= |req.steps|
  {
    if n == 0 then [] else SecondPass(req, n - 1) + SecondOf(req.policy, req.steps[n - 1].tool, n - 1)
  }

  /** Everything wrong with a request, in the order it is reported. */
  ghost function Violations(req: Request): seq<Violation> {
    (if |req.steps| > req.policy.maxSteps then [Violation.TooManySteps(|req.steps|)] else []) +
    FirstPass(req, |req.steps|) + SecondPass(req, |req.steps|)
  }

  lemma {:induction false} PassMembers(req: Request, n: nat)
    requires n <= |req.steps|
    ensures forall v :: v in FirstPass(req, n) <==> !v.TooManySteps? && v.index < n && v in FirstOf(req.policy, req.steps[v.index].tool, v.index)
    ensures forall v :: v in SecondPass(req, n) <==> !v.TooManySteps? && v.index < n && v in SecondOf(req.policy, req.steps[v.index].tool, v.index)
  {
    hide FirstOf, SecondOf;
    if n > 0 {
      PassMembers(req, n - 1);
      OwnIndex(req.policy, req.steps[n - 1].tool, n - 1);
    }
  }

  lemma OwnIndex(policy: Policy, tool: string, i: nat)
    ensures forall v :: v in FirstOf(policy, tool, i) || v in SecondOf(policy, tool, i) ==> !v.TooManySteps? && v.index == i
  {
    hide NETWORK_TOOLS, Reach;
  }

  /** A tool is reported by neither loop exactly if the policy permits it. */
  lemma ReportedMeans(policy: Policy, tool: string, i: nat)
    ensures FirstOf(policy, tool, i) == [] && SecondOf(policy, tool, i) == [] <==> ToolPermitted(policy, tool)
    ensures |FirstOf(policy, tool, i)| <= 1 && |SecondOf(policy, tool, i)| <= 1
  {
    ListsMean(tool, policy.radius);
    ReachGrows(policy.radius);
    hide Reach;
  }

  lemma ReachGrows(radius: Radius)
    ensures Reach(radius) <= NETWORK_TOOLS
  {
  }

  /** Nothing is reported exactly if the policy permits the request, and a step is reported
      exactly if its tool is not permitted. */
  lemma ViolationsMean(req: Request)
    ensures Violations(req) == [] <==> Permits(req)
    ensures forall i :: 0 <= i < |req.steps| ==>
              (!ToolPermitted(req.policy, req.steps[i].tool) <==> exists v :: v in Violations(req) && !v.TooManySteps? && v.index == i)
  {
    hide ToolPermitted, FirstOf, SecondOf, FirstPass, SecondPass;
    var n := |req.steps|;
    PassMembers(req, n);
    forall i | 0 <= i < n
      ensures !ToolPermitted(req.policy, req.steps[i].tool) <==> exists v :: v in Violations(req) && !v.TooManySteps? && v.index == i
    {
      ReportedMeans(req.policy, req.steps[i].tool, i);
      StepReported(req, i);
    }
    if Violations(req) != [] {
      var v := Violations(req)[0];
      assert v in Violations(req);
    }
  }

  lemma StepReported(req: Request, i: nat)
    requires i < |req.steps|
    ensures (exists v :: v in Violations(req) && !v.TooManySteps? && v.index == i) <==>
            FirstOf(req.policy, req.steps[i].tool, i) != [] || SecondOf(req.policy, req.steps[i].tool, i) != []
  {
    PassMembers(req, |req.steps|);
    hide Reach, FirstPass, SecondPass;
    var first, second := FirstOf(req.policy, req.steps[i].tool, i), SecondOf(req.policy, req.steps[i].tool, i);
    if first != [] {
      assert first[0] in Violations(req);
    }
    if second != [] {
      assert second[0] in Violations(req);
    }
  }

  /** `validate`: both loops over the steps, collecting every violation. */
  method Validate(req: Request) returns (violations: seq<Violation>)
    ensures violations == Violations(req)
    ensures violations == [] <==> Permits(req)
  {
    hide Permits, NETWORK_TOOLS, Reach, RadiusBlocks, BLOCKED, CLASSIFIED;
    violations := [];
    if |req.steps| > req.policy.maxSteps {
      violations := [Violation.TooManySteps(|req.steps|)];
    }
    ghost var head := violations;
    var allowed := set t | t in req.policy.allowedTools;
    AllowedNames(req.policy.allowedTools);
    var i := 0;
    while i < |req.steps|
      invariant 0 <= i <= |req.steps|
      invariant violations == head + FirstPass(req, i)
    {
      var tool := req.steps[i].tool;
      ListsMean(tool, req.policy.radius);
      ghost var seen := violations;
      if tool in BLOCKED {
        violations := violations + [UnconditionallyBlocked(i)];
      } else if tool !in CLASSIFIED {
        violations := violations + [Unclassified(i)];
      } else if allowed != {} && tool !in allowed {
        violations := violations + [NotAllowed(i)];
      }
      assert violations == seen + FirstOf(req.policy, tool, i);
      i := i + 1;
    }
    var blocks := RadiusBlocks(req.policy.radius);
    ghost var first := violations;
    var j := 0;
    while j < |req.steps|
      invariant 0 <= j <= |req.steps|
      invariant violations == first + SecondPass(req, j)
    {
      ListsMean(req.steps[j].tool, req.policy.radius);
      ghost var seen := violations;
      if req.steps[j].tool in blocks {
        violations := violations + [BlockedByRadius(j)];
      }
      assert violations == seen + SecondOf(req.policy, req.steps[j].tool, j);
      j := j + 1;
    }
    ViolationsMean(req);
  }

  lemma AllowedNames(names: seq<string>)
    ensures (set t | t in names) != {} <==> names != []
  {
    var s := set t | t in names;
    if names != [] {
      assert names[0] in s;
    } else {
      assert forall t :: t !in s;
    }
  }

  // ----------------------------------------------- the policy, stated as a whitelist

  const READ_TOOLS := {"read_file", "memory_read"}
  const LOCAL_TOOLS := READ_TOOLS + {"write_file", "delete_file", "memory_write"}
  const NETWORK_TOOLS := LOCAL_TOOLS + {"http_get", "http_post", "rag_multi_query"}

  /** The tools a blast radius admits. */
  function Reach(radius: Radius): set<string> {
    match radius
    case NoRadius => READ_TOOLS
    case Local => LOCAL_TOOLS
    case Network => NETWORK_TOOLS
  }

  /** A tool within reach of the radius, and on the allow list if there is one. */
  predicate ToolPermitted(policy: Policy, tool: string) {
    tool in Reach(policy.radius) && (policy.allowedTools == [] || tool in policy.allowedTools)
  }

  predicate Permits(req: Request) {
    |req.steps| <= req.policy.maxSteps && forall i :: 0 <= i < |req.steps| ==> ToolPermitted(req.policy, req.steps[i].tool)
  }

  // --------------------------------------------------------------- translation

  const GOAL := "Execute ASON-approved plan"
  const REASON := "ASON-approved plan complete"

  function CallItems(steps: seq<RequestStep>): seq<Json> {
    if steps == [] then []
    else
      [Obj([Field("type", Str("tool")), Field("name", Str(steps[0].tool)), Field("args", Obj(steps[0].args))])] +
      CallItems(steps[1..])
  }

  /** `_apex_plan`. */
  function ApexPlan(req: Request): Json {
    Obj([Field("goal", Str(GOAL)),
         Field("steps", Arr(CallItems(req.steps) + [Obj([Field("type", Str("halt")), Field("reason", Str(REASON))])]))])
  }

  function PolicyToJson(policy: Policy): Json {
    Obj([Field("max_steps", Int(policy.maxSteps)),
         Field("allowed_tools", Arr(seq(|policy.allowedTools|, i requires 0 <= i < |policy.allowedTools| => Str(policy.allowedTools[i])))),
         Field("blast_radius", Str(match policy.radius case NoRadius => "none" case Local => "local" case Network => "network")),
         Field("rollback_on_failure", Bool(policy.rollback))])
  }

  /** `_authorization`; the fresh identifier is a parameter. */
  function AuthorizationFor(sha: Hash, req: Request, id: string, authority: string): Json {
    Obj([Field("authorization_id", Str(id)),
         Field("approved_plan_digest", Str(sha(Canonical.Text(ApexPlan(req))))),
         Field("policy_digest_or_ref", Str(sha(Canonical.Text(PolicyToJson(req.policy))))),
         Field("authority_ref", Str(authority)),
         Field("decision", Bool(true))])
  }

  datatype Submission =
    | Rejected(violations: seq<Violation>)
    | NoAuthority
    | Dispatched(payload: string)

  /** `submit` up to the HTTP call: policy first, then the authority, then the payload. */
  method Submit(sha: Hash, req: Request, authorityArg: Option<string>, ownAuthority: Option<string>, id: string)
    returns (r: Submission)
    ensures r.Rejected? <==> !Permits(req)
    ensures var authority := if authorityArg.Some? then authorityArg else ownAuthority;
            && (r.NoAuthority? <==> Permits(req) && (authority.None? || Strip(authority.value) == ""))
            && (r.Dispatched? ==>
                  r.payload == Print(COMPACT, Obj([Field("plan", ApexPlan(req)),
                                                   Field("authorization", AuthorizationFor(sha, req, id, Strip(authority.value)))])))
  {
    var violations := Validate(req);
    if violations != [] { return Rejected(violations); }
    var authority := if authorityArg.Some? then authorityArg else ownAuthority;
    if authority.None? || Strip(authority.value) == "" { return NoAuthority; }
    var plan := ApexPlan(req);
    var authorization := AuthorizationFor(sha, req, id, Strip(authority.value));
    return Dispatched(Print(COMPACT, Obj([Field("plan", plan), Field("authorization", authorization)])));
  }

  // ------------------------------------------------------------------- theorems

  /** The approved steps in order, then one halt. */
  function TranslatedSteps(req: Request): (r: seq<Step>)
    ensures |r| == |req.steps| + 1
    ensures forall i :: 0 <= i < |req.steps| ==> r[i] == ToolCall(req.steps[i].tool, req.steps[i].args)
    ensures r[|req.steps|] == Halt(REASON)
  {
    seq(|req.steps|, i requires 0 <= i < |req.steps| => ToolCall(req.steps[i].tool, req.steps[i].args)) + [Halt(REASON)]
  }

  function Translated(req: Request): Plan {
    Plan(GOAL, TranslatedSteps(req))
  }

  lemma {:induction false} CallItemsAt(steps: seq<RequestStep>)
    ensures |CallItems(steps)| == |steps|
    ensures forall i :: 0 <= i < |steps| ==> CallItems(steps)[i] == StepToJson(ToolCall(steps[i].tool, steps[i].args))
  {
    if steps != [] {
      CallItemsAt(steps[1..]);
    }
  }

  /** ASON's dict is the dict APEX prints for the translated plan, key order included. */
  lemma TranslationPrints(req: Request)
    ensures PlanToJson(Translated(req)) == ApexPlan(req)
  {
    CallItemsAt(req.steps);
    var calls := CallItems(req.steps);
    var halt := Obj([Field("type", Str("halt")), Field("reason", Str(REASON))]);
    assert StepsToJson(TranslatedSteps(req)) == calls + [halt];
  }

  /** Everything a step asks of the registry. */
  ghost predicate StepConforms(step: RequestStep, registry: Registry) {
    step.tool in registry && ArgsConform(registry[step.tool], step.args)
  }

  lemma GoalTrimmed()
    ensures Trimmed(GOAL)
  {
  }

  lemma TranslationValid(req: Request, registry: Registry)
    ensures PT.ValidPlan(Translated(req), registry) <==>
            |req.steps| <= 31 && forall i :: 0 <= i < |req.steps| ==> StepConforms(req.steps[i], registry)
  {
    GoalTrimmed();
    hide Trimmed, GOAL, ArgsConform;
    var steps := TranslatedSteps(req);
    forall i | 0 <= i < |req.steps| ensures PT.ValidCall(steps[i], registry) <==> StepConforms(req.steps[i], registry) {
    }
  }

  /** APEX parses ASON's plan if and only if it has at most 31 approved steps that conform
      to the registry, and then gets exactly the approved steps and one halt. */
  lemma ApexParsesExactly(req: Request, registry: Registry)
    requires WellFormed(ApexPlan(req))
    ensures var parsed := ParseText(Print(DEFAULT, ApexPlan(req)), registry);
            && (parsed.Ok? <==> |req.steps| <= 31 && forall i :: 0 <= i < |req.steps| ==> StepConforms(req.steps[i], registry))
            && (parsed.Ok? ==> parsed.value == Translated(req))
  {
    hide Print, ParseText, ParseData, PlanToJson, ApexPlan, Translated, StepConforms, PT.ValidPlan, GOAL, WellFormed, Trimmed;
    TranslationPrints(req);
    TranslationValid(req, registry);
    TranslatedShape(req);
    PrintedPlanParses(Translated(req), registry);
  }

  lemma TranslatedShape(req: Request)
    ensures Trimmed(Translated(req).goal) && Translated(req).steps != []
  {
    GoalTrimmed();
    hide Trimmed, GOAL;
  }

  lemma StepMeansItself(s: Step, t: Step)
    requires PT.StepMeans(StepToJson(s), t)
    ensures s == t
  {
    hide Get, StepType, IgnoringCase;
    PT.TypeWords(StepToJson(s).fields);
    if s.Halt? {
      PT.SpellsItself("halt");
      PT.HaltPrints(s);
    } else {
      PT.SpellsItself("tool");
      PT.CallPrints(s);
    }
  }

  /** A plan whose JSON parses is the plan that comes out. */
  lemma ParsedIsItself(plan: Plan, registry: Registry)
    requires Trimmed(plan.goal) && ParseData(PlanToJson(plan), registry).Ok?
    ensures ParseData(PlanToJson(plan), registry) == Ok(plan)
  {
    PT.AcceptsExactly(PlanToJson(plan), registry);
    PT.PlanPrints(plan);
    TrimmedIsKept(plan.goal);
    var r := ParseData(PlanToJson(plan), registry).value;
    hide *;
    forall i | 0 <= i < |plan.steps| ensures r.steps[i] == plan.steps[i] {
      StepMeansItself(plan.steps[i], r.steps[i]);
    }
    assert r.steps == plan.steps;
  }

  /** The text that APEX re-parses stands for the JSON it was printed from. */
  lemma PrintedPlanParses(plan: Plan, registry: Registry)
    requires PT.WellFormedPlan(plan)
    ensures var parsed := ParseText(Print(DEFAULT, PlanToJson(plan)), registry);
            parsed == ParseData(PlanToJson(plan), registry)
    ensures var parsed := ParseText(Print(DEFAULT, PlanToJson(plan)), registry);
            Trimmed(plan.goal) && plan.steps != [] ==>
              (parsed.Ok? <==> PT.ValidPlan(plan, registry)) && (parsed.Ok? ==> parsed.value == plan)
  {
    var t := Print(DEFAULT, PlanToJson(plan));
    PT.PrintedObjectEdges(DEFAULT, PlanToJson(plan).fields);
    PT.BareBody(t);
    RoundTrip.ReadsBack(DEFAULT, PlanToJson(plan), "");
    assert t + "" == t;
    PT.ParseInvertsPrint(plan, registry);
    if Trimmed(plan.goal) && plan.steps != [] && ParseData(PlanToJson(plan), registry).Ok? {
      ParsedIsItself(plan, registry);
    }
  }

  /** SHA-256 digests are 64 hexadecimal characters. */
  ghost predicate HexDigests(sha: Hash) {
    forall t :: |sha(t)| == 64 && forall i :: 0 <= i < 64 ==> '0' <= sha(t)[i] <= '9' || 'a' <= sha(t)[i] <= 'f'
  }

  lemma DigestTrimmed(sha: Hash, t: string)
    requires HexDigests(sha)
    ensures Trimmed(sha(t))
  {
    var d := sha(t);
    assert |d| == 64 && ('0' <= d[0] <= '9' || 'a' <= d[0] <= 'f') && ('0' <= d[63] <= '9' || 'a' <= d[63] <= 'f');
  }

  // ----------------------------------------------------------- what is signed

  ghost function RadiusName(radius: Radius): string {
    if radius == NoRadius then "none" else if radius == Local then "local" else "network"
  }

  /** The policy's text says what the policy is, key by key. */
  ghost predicate PolicySays(j: Json, policy: Policy) {
    && j.Obj?
    && Get(j.fields, "max_steps") == Some(Int(policy.maxSteps))
    && Get(j.fields, "rollback_on_failure") == Some(Bool(policy.rollback))
    && Get(j.fields, "blast_radius") == Some(Str(RadiusName(policy.radius)))
    && Get(j.fields, "allowed_tools").Some? && Get(j.fields, "allowed_tools").value.Arr?
    && |Get(j.fields, "allowed_tools").value.items| == |policy.allowedTools|
    && forall i :: 0 <= i < |policy.allowedTools| ==> Get(j.fields, "allowed_tools").value.items[i] == Str(policy.allowedTools[i])
  }

  lemma PolicyFields(policy: Policy)
    ensures PolicySays(PolicyToJson(policy), policy) && WellFormed(PolicyToJson(policy))
  {
    var fs := PolicyToJson(policy).fields;
    assert |fs[0].key| == 9 && |fs[1].key| == 13 && |fs[2].key| == 12 && |fs[3].key| == 19;
    assert DistinctKeys(fs);
    assert fs[1..][0] == fs[1] && fs[2..][0] == fs[2] && fs[3..][0] == fs[3];
    assert Get(fs, "allowed_tools") == Get(fs[1..], "allowed_tools") == Some(fs[1].value);
    assert Get(fs, "blast_radius") == Get(fs[1..], "blast_radius") == Get(fs[1..][1..], "blast_radius") == Some(fs[2].value);
    assert fs[1..][1..][1..] == fs[3..];
    assert Get(fs, "rollback_on_failure") == Get(fs[1..], "rollback_on_failure") == Get(fs[1..][1..], "rollback_on_failure") ==
           Get(fs[3..], "rollback_on_failure") == Some(fs[3].value);
  }

  /** The text whose digest stands for the policy determines the policy. */
  lemma PolicyTextIdentifies(p: Policy, q: Policy)
    ensures Canonical.Text(PolicyToJson(p)) == Canonical.Text(PolicyToJson(q)) <==> p == q
  {
    PolicyFields(p);
    PolicyFields(q);
    Canonical.TextIdentifies(PolicyToJson(p), PolicyToJson(q));
    if Canonical.Same(PolicyToJson(p), PolicyToJson(q)) {
      SamePolicy(p, q);
    }
  }

  lemma SamePolicy(p: Policy, q: Policy)
    requires Canonical.Same(PolicyToJson(p), PolicyToJson(q))
    ensures p == q
  {
    hide Canonical.Same;
    PolicyFields(q);
    var f, g := PolicyToJson(p).fields, PolicyToJson(q).fields;
    BT.AlignedFields(f, g);
    assert Canonical.Same(f[0].value, g[0].value) && Canonical.Same(f[1].value, g[1].value);
    assert Canonical.Same(f[2].value, g[2].value) && Canonical.Same(f[3].value, g[3].value);
    ScalarsSame(f[0].value, g[0].value);
    ScalarsSame(f[2].value, g[2].value);
    ScalarsSame(f[3].value, g[3].value);
    Canonical.SameItems(f[1].value.items, g[1].value.items);
    forall i | 0 <= i < |p.allowedTools| ensures p.allowedTools[i] == q.allowedTools[i] {
      ScalarsSame(f[1].value.items[i], g[1].value.items[i]);
    }
    RadiusNames(p.radius, q.radius);
    assert p.allowedTools == q.allowedTools;
  }

  lemma ScalarsSame(j: Json, k: Json)
    requires Canonical.Same(j, k) && !j.Arr? && !j.Obj?
    ensures j == k
  {
  }

  lemma RadiusNames(r: Radius, s: Radius)
    requires RadiusName(r) == RadiusName(s)
    ensures r == s
  {
    assert |"none"| == 4 && |"local"| == 5 && |"network"| == 7;
  }

  /** The authorization carries the digest of the plan APEX will execute, the digest of the
      policy, and the trimmed authority, under the names APEX reads. */
  lemma AuthorizationSays(sha: Hash, req: Request, id: string, authority: string)
    ensures var fs := AuthorizationFor(sha, req, id, authority).fields;
            && Get(fs, "authorization_id") == Some(Str(id))
            && Get(fs, "approved_plan_digest") == Some(Str(sha(Canonical.Text(PlanToJson(Translated(req))))))
            && Get(fs, "policy_digest_or_ref") == Some(Str(sha(Canonical.Text(PolicyToJson(req.policy)))))
            && Get(fs, "authority_ref") == Some(Str(authority))
            && Get(fs, "decision") == Some(Bool(true))
  {
    TranslationPrints(req);
    var a := Authorization(id, sha(Canonical.Text(ApexPlan(req))), sha(Canonical.Text(PolicyToJson(req.policy))), authority);
    assert AuthorizationToJson(a) == AuthorizationFor(sha, req, id, authority);
    hide Canonical.Text, PolicyToJson, ApexPlan, PlanToJson, Translated;
    BT.AuthorizationFields(a);
  }

  /** From an accepted request to a committed run: if APEX parses the plan at all, the
      digest it recomputes is the one ASON sent, the authorization validates, what it
      normalises to validates again, and the run binds to both. */
  lemma EndToEnd(sha: Hash, req: Request, registry: Registry, id: string, authority: string, plan: Plan)
    requires HexDigests(sha) && WellFormed(ApexPlan(req)) && Trimmed(id) && Strip(authority) != ""
    requires ParseText(Print(DEFAULT, ApexPlan(req)), registry) == Ok(plan)
    ensures plan.goal == "Execute ASON-approved plan" && |plan.steps| == |req.steps| + 1
    ensures forall i :: 0 <= i < |req.steps| ==> plan.steps[i] == ToolCall(req.steps[i].tool, req.steps[i].args)
    ensures plan.steps[|req.steps|] == Halt("ASON-approved plan complete")
    ensures AuthorizationAccepted(sha, AuthorizationFor(sha, req, id, Strip(authority)), plan, registry)
  {
    ApexParsesExactly(req, registry);
    TranslationPrints(req);
    var digest := sha(Canonical.Text(ApexPlan(req)));
    var policy := sha(Canonical.Text(PolicyToJson(req.policy)));
    DigestTrimmed(sha, Canonical.Text(ApexPlan(req)));
    DigestTrimmed(sha, Canonical.Text(PolicyToJson(req.policy)));
    StripTrims(authority);
    var a := Authorization(id, digest, policy, Strip(authority));
    assert AuthorizationToJson(a) == AuthorizationFor(sha, req, id, Strip(authority));
    BT.AuthorizationFields(a);
    hide Canonical.Text, PolicyToJson, ApexPlan, ParseText, Strip, Trimmed, TranslatedSteps;
    BT.NormalizedValidates(sha, a, ApexPlan(req));
  }

  /** The authorization names the plan's own digest, is accepted, stays as it is when
      validated again, and lets the run begin. */
  ghost predicate AuthorizationAccepted(sha: Hash, sent: Json, plan: Plan, registry: Registry) {
    && sent.Obj? && Get(sent.fields, "approved_plan_digest") == Some(Str(PlanDigest(sha, PlanToJson(plan))))
    && var checked := ValidateAuthorization(sha, sent, PlanToJson(plan));
    && checked.Accept?
    && ValidateAuthorization(sha, AuthorizationToJson(checked.value), PlanToJson(plan)) == checked
    && Bind(sha, plan, registry, Some(AuthorizationToJson(checked.value))).Accept?
  }

  /** What crosses the wire is what was sent: the payload parses to the plan and the
      authorization. */
  lemma PayloadReadsBack(plan: Json, authorization: Json)
    requires WellFormed(plan) && WellFormed(authorization)
    ensures Loads(Print(COMPACT, Obj([Field("plan", plan), Field("authorization", authorization)]))) ==
            Some(Obj([Field("plan", plan), Field("authorization", authorization)]))
  {
    var fs := [Field("plan", plan), Field("authorization", authorization)];
    assert |fs[0].key| == 4 && |fs[1].key| == 13;
    assert DistinctKeys(fs);
    RoundTrip.LoadsInvertsPrint(COMPACT, Obj(fs));
  }

  /** The policy admits 32 steps; APEX counts the halt as one more and never accepts
      them, whatever its registry. */
  lemma ThirtyTwoStepsRefused(req: Request, registry: Registry)
    requires |req.steps| == 32 && WellFormed(ApexPlan(req))
    ensures ParseText(Print(DEFAULT, ApexPlan(req)), registry) == Err(Problem.TooManySteps(33))
  {
    TranslationPrints(req);
    PrintedPlanParses(Translated(req), registry);
    PT.PlanPrints(Translated(req));
    GoalTrimmed();
    TrimmedIsKept(GOAL);
    hide GOAL, Trimmed, Strip, ParseText, ParseSteps;
  }

  /** And there is such a request that the policy accepts. */
  lemma ThirtyTwoStepsPermitted() returns (req: Request)
    ensures req.policy.Valid() && Permits(req) && |req.steps| == 32 && WellFormed(ApexPlan(req))
  {
    req := Request(seq(32, i => RequestStep("read_file", [])), Policy(32, [], Local, true));
    CallItemsAt(req.steps);
    assert "read_file" in READ_TOOLS;
    TranslationPrints(req);
    PT.StepsMakeWellFormed(Translated(req));
  }
}
