/** What ties a durable run to one plan: digests of the plan and of the tool contract,
    and an optional authorization.

    SHA-256 is a parameter `sha`. Results that need it not to confuse two texts say
    which two. */
module Binding {
  import opened Json
  import opened Text
  import opened Plans
  import Canonical
  import RoundTrip = JsonRoundTrip

  type Hash = string -> string

  /** `plan_digest`. */
  function PlanDigest(sha: Hash, plan: Json): string {
    sha(Canonical.Text(plan))
  }

  // -------------------------------------------------------------- authorization

  datatype Authorization = Authorization(id: string, planDigest: string, policyRef: string, authorityRef: string)

  datatype Refusal =
    | AuthNotAnObject
    | AuthBadField(name: string)
    | AuthNotGranted
    | AuthDigestMismatch
    | NoLedger
    | PlanMismatch
    | ContractMissing
    | ContractMismatch
    | AuthLedgerMismatch
    | AuthMismatch
    | AuthMissing
    | LedgerIncomplete
    | UncertainEffect(step: nat)
    | DispatchDenied(step: nat)
    | OutcomeDenied(step: nat)

  datatype Checked<+T> = Accept(value: T) | Refuse(reason: Refusal)

  /** One required field: a string that is not blank, trimmed. */
  function AuthField(fields: seq<Field>, name: string): Checked<string> {
    match Get(fields, name)
    case Some(Str(s)) => if Strip(s) == "" then Refuse(AuthBadField(name)) else Accept(Strip(s))
    case _ => Refuse(AuthBadField(name))
  }

  /** `validate_authorization`. */
  function ValidateAuthorization(sha: Hash, authorization: Json, plan: Json): Checked<Authorization> {
    if !authorization.Obj? then Refuse(AuthNotAnObject)
    else
      var fs := authorization.fields;
      var id := AuthField(fs, "authorization_id");
      var digest := AuthField(fs, "approved_plan_digest");
      var policy := AuthField(fs, "policy_digest_or_ref");
      var authority := AuthField(fs, "authority_ref");
      if id.Refuse? then Refuse(id.reason)
      else if digest.Refuse? then Refuse(digest.reason)
      else if policy.Refuse? then Refuse(policy.reason)
      else if authority.Refuse? then Refuse(authority.reason)
      else if Get(fs, "decision") != Some(Bool(true)) then Refuse(AuthNotGranted)
      else if digest.value != PlanDigest(sha, plan) then Refuse(AuthDigestMismatch)
      else Accept(Authorization(id.value, digest.value, policy.value, authority.value))
  }

  function AuthorizationToJson(a: Authorization): Json {
    Obj([Field("authorization_id", Str(a.id)),
         Field("approved_plan_digest", Str(a.planDigest)),
         Field("policy_digest_or_ref", Str(a.policyRef)),
         Field("authority_ref", Str(a.authorityRef)),
         Field("decision", Bool(true))])
  }

  // -------------------------------------------------------------- tool contract

  function TypeRef(t: Type): string {
    match t
    case AnyType => "builtins.object"
    case IntegerType => "builtins.int"
    case NumberType => "builtins.float"
    case BooleanType => "builtins.bool"
    case StringType => "builtins.str"
    case ObjectType => "builtins.dict"
    case ArrayType => "builtins.list"
  }

  lemma {:induction false} LeastExists(s: set<string>) returns (m: string)
    requires s != {}
    ensures m in s && forall x :: x in s ==> x == m || Canonical.Before(m, x)
  {
    m :| m in s;
    if s != {m} {
      var rest := LeastExists(s - {m});
      Canonical.BeforeTotal(m, rest);
      if Canonical.Before(rest, m) {
        m := rest;
      } else {
        forall x | x in s ensures x == m || Canonical.Before(m, x) {
          if x != m && x != rest {
            Canonical.BeforeTransitive(m, rest, x);
          }
        }
      }
    }
  }

  predicate IsLeast(s: set<string>, m: string) {
    m in s && forall x :: x in s ==> x == m || Canonical.Before(m, x)
  }

  lemma LeastUnique(s: set<string>)
    ensures forall m, n :: IsLeast(s, m) && IsLeast(s, n) ==> m == n
  {
    forall m, n | IsLeast(s, m) && IsLeast(s, n) ensures m == n {
      Canonical.BeforeStrict(m, n);
    }
  }

  /** `sorted(names)`. */
  function SortedNames(s: set<string>): (r: seq<string>)
    ensures forall x :: x in r <==> x in s
    ensures |r| == |s|
    ensures forall i, j :: 0 <= i < j < |r| ==> Canonical.Before(r[i], r[j]) && r[i] != r[j]
  {
    if s == {} then []
    else
      assert exists m :: IsLeast(s, m) by {
        var m := LeastExists(s);
        assert IsLeast(s, m);
      }
      assert forall m, n :: IsLeast(s, m) && IsLeast(s, n) ==> m == n by { LeastUnique(s); }
      var m :| m in s && IsLeast(s, m);
      [m] + SortedNames(s - {m})
  }

  function SpecFields(spec: map<string, Type>, names: seq<string>): (r: seq<Field>)
    requires forall n :: n in names ==> n in spec
    ensures |r| == |names|
    ensures forall i :: 0 <= i < |names| ==> r[i] == Field(names[i], Str(TypeRef(spec[names[i]])))
  {
    seq(|names|, i requires 0 <= i < |names| => Field(names[i], Str(TypeRef(spec[names[i]]))))
  }

  function NameItems(names: seq<string>): (r: seq<Json>)
    ensures |r| == |names| && forall i :: 0 <= i < |names| ==> r[i] == Str(names[i])
  {
    seq(|names|, i requires 0 <= i < |names| => Str(names[i]))
  }

  /** The planner-visible contract of one tool. */
  function ToolContract(key: string, tool: Tool): Json {
    Obj([Field("registry_key", Str(key)),
         Field("name", Str(tool.name)),
         Field("input_spec", Obj(SpecFields(tool.inputSpec, SortedNames(tool.inputSpec.Keys)))),
         Field("output_spec", Obj(SpecFields(tool.outputSpec, SortedNames(tool.outputSpec.Keys)))),
         Field("required", Arr(NameItems(SortedNames(tool.RequiredArgs())))),
         Field("retry_safe", Bool(tool.retrySafe))])
  }

  function ContractItems(registry: Registry, keys: seq<string>): (r: seq<Json>)
    requires forall k :: k in keys ==> k in registry
    ensures |r| == |keys| && forall i :: 0 <= i < |keys| ==> r[i] == ToolContract(keys[i], registry[keys[i]])
  {
    seq(|keys|, i requires 0 <= i < |keys| => ToolContract(keys[i], registry[keys[i]]))
  }

  /** What `tool_registry_contract_digest` hashes. */
  function ContractJson(registry: Registry): Json {
    Arr(ContractItems(registry, SortedNames(registry.Keys)))
  }

  function ContractText(registry: Registry): string {
    Canonical.Text(ContractJson(registry))
  }

  /** The parts of two tools that the contract covers agree. */
  ghost predicate SameTool(t: Tool, u: Tool) {
    && t.name == u.name && t.inputSpec == u.inputSpec && t.outputSpec == u.outputSpec
    && (forall name :: Requires(t, name) <==> Requires(u, name)) && t.retrySafe == u.retrySafe
  }

  ghost predicate SameContract(r: Registry, s: Registry) {
    r.Keys == s.Keys && forall k :: k in r ==> SameTool(r[k], s[k])
  }

  // ------------------------------------------------------------ the durable binding

  /** The rows of `runs`, `ledger_runs`, `registry_bindings` and `authorizations` that
      bind a run. */
  datatype Bound = Bound(
    planJson: string, planDigest: string, stepCount: nat, contract: Option<string>, authorization: Option<Authorization>)

  /** The binding `begin_run` commits. */
  function Bind(sha: Hash, plan: Plan, registry: Registry, authorization: Option<Json>): Checked<Bound> {
    var json := PlanToJson(plan);
    var row := (a: Option<Authorization>) =>
      Bound(Print(COMPACT, json), PlanDigest(sha, json), |plan.steps|, Some(sha(ContractText(registry))), a);
    match authorization
    case None => Accept(row(None))
    case Some(j) =>
      match ValidateAuthorization(sha, j, json)
      case Refuse(reason) => Refuse(reason)
      case Accept(a) => Accept(row(Some(a)))
  }

  /** The checks of `bound_effects` before it reads the effect rows, in order. */
  function CheckBinding(sha: Hash, bound: Bound, plan: Plan, registry: Registry, authorization: Option<Json>): Checked<()> {
    var json := PlanToJson(plan);
    if PlanDigest(sha, json) != bound.planDigest
       || Loads(bound.planJson).None?
       || PlanDigest(sha, Loads(bound.planJson).value) != bound.planDigest
       || |plan.steps| != bound.stepCount then Refuse(PlanMismatch)
    else if bound.contract.None? then Refuse(ContractMissing)
    else if bound.contract.value != sha(ContractText(registry)) then Refuse(ContractMismatch)
    else CheckAuthorization(sha, bound, json, authorization)
  }

  /** The stored authorization must still be valid for the plan, and a supplied one must
      normalise to it. */
  function CheckAuthorization(sha: Hash, bound: Bound, plan: Json, authorization: Option<Json>): Checked<()> {
    match bound.authorization
    case None => if authorization.Some? then Refuse(AuthMissing) else Accept(())
    case Some(row) =>
      match ValidateAuthorization(sha, AuthorizationToJson(row), plan)
      case Refuse(reason) => Refuse(reason)
      case Accept(stored) =>
        if stored.planDigest != bound.planDigest then Refuse(AuthLedgerMismatch)
        else if authorization.None? then Accept(())
        else
          match ValidateAuthorization(sha, authorization.value, plan)
          case Refuse(reason) => Refuse(reason)
          case Accept(supplied) => if supplied != stored then Refuse(AuthMismatch) else Accept(())
  }
}
