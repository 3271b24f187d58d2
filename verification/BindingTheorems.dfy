/** The binding check accepts exactly the plan, tool contract and authorization that
    were committed. */
module BindingTheorems {
  import opened Json
  import opened Text
  import opened Plans
  import opened Binding
  import Canonical
  import PT = PlanTheorems
  import RoundTrip = JsonRoundTrip

  /** SHA-256 tells these two texts apart if they differ. */
  ghost predicate NoCollision(sha: Hash, a: string, b: string) {
    sha(a) == sha(b) ==> a == b
  }

  // ------------------------------------------------------------ authorization

  lemma AuthFieldTrims(fields: seq<Field>, name: string)
    ensures AuthField(fields, name).Accept? ==> Trimmed(AuthField(fields, name).value)
    ensures AuthField(fields, name).Accept? <==>
              Get(fields, name).Some? && Get(fields, name).value.Str? && Strip(Get(fields, name).value.s) != ""
  {
    match Get(fields, name)
    case Some(Str(s)) => StripTrims(s);
    case _ =>
  }

  lemma AuthorizationFields(a: Authorization)
    ensures var fs := AuthorizationToJson(a).fields;
            && Get(fs, "authorization_id") == Some(Str(a.id))
            && Get(fs, "approved_plan_digest") == Some(Str(a.planDigest))
            && Get(fs, "policy_digest_or_ref") == Some(Str(a.policyRef))
            && Get(fs, "authority_ref") == Some(Str(a.authorityRef))
            && Get(fs, "decision") == Some(Bool(true))
  {
    var fs := AuthorizationToJson(a).fields;
    assert Get(fs[4..], "decision") == Some(Bool(true));
    assert Get(fs[3..], "decision") == Get(fs[3..][1..], "decision") && fs[3..][1..] == fs[4..];
    assert Get(fs[2..], "decision") == Get(fs[2..][1..], "decision") && fs[2..][1..] == fs[3..];
    assert Get(fs[1..], "decision") == Get(fs[1..][1..], "decision") && fs[1..][1..] == fs[2..];
    assert Get(fs[3..], "authority_ref") == Some(Str(a.authorityRef));
    assert Get(fs[2..], "authority_ref") == Get(fs[2..][1..], "authority_ref");
    assert Get(fs[1..], "authority_ref") == Get(fs[1..][1..], "authority_ref");
    assert Get(fs[2..], "policy_digest_or_ref") == Some(Str(a.policyRef));
    assert Get(fs[1..], "policy_digest_or_ref") == Get(fs[1..][1..], "policy_digest_or_ref");
  }

  ghost predicate Normalized(a: Authorization) {
    Trimmed(a.id) && Trimmed(a.planDigest) && Trimmed(a.policyRef) && Trimmed(a.authorityRef)
  }

  /** A normal authorization is accepted, unchanged, for exactly the plan it names. */
  lemma NormalizedValidates(sha: Hash, a: Authorization, plan: Json)
    requires Normalized(a)
    ensures ValidateAuthorization(sha, AuthorizationToJson(a), plan) ==
            if a.planDigest == PlanDigest(sha, plan) then Accept(a) else Refuse(AuthDigestMismatch)
  {
    AuthorizationFields(a);
    TrimmedIsKept(a.id);
    TrimmedIsKept(a.planDigest);
    TrimmedIsKept(a.policyRef);
    TrimmedIsKept(a.authorityRef);
  }

  lemma ValidationNormalizes(sha: Hash, j: Json, plan: Json)
    requires ValidateAuthorization(sha, j, plan).Accept?
    ensures var a := ValidateAuthorization(sha, j, plan).value;
            Normalized(a) && a.planDigest == PlanDigest(sha, plan)
  {
    AuthFieldTrims(j.fields, "authorization_id");
    AuthFieldTrims(j.fields, "approved_plan_digest");
    AuthFieldTrims(j.fields, "policy_digest_or_ref");
    AuthFieldTrims(j.fields, "authority_ref");
  }

  /** Validating what validation returned returns it again. */
  lemma ValidationIdempotent(sha: Hash, j: Json, plan: Json)
    requires ValidateAuthorization(sha, j, plan).Accept?
    ensures ValidateAuthorization(sha, AuthorizationToJson(ValidateAuthorization(sha, j, plan).value), plan) ==
            ValidateAuthorization(sha, j, plan)
  {
    ValidationNormalizes(sha, j, plan);
    NormalizedValidates(sha, ValidateAuthorization(sha, j, plan).value, plan);
  }

  // ------------------------------------------- what an authorization must say

  /** The field is a string that is not blank, and this is its text, trimmed. */
  ghost predicate TextField(fields: seq<Field>, name: string, text: string) {
    exists s :: Get(fields, name) == Some(Str(s)) && HasNonBlank(s) && text == Strip(s)
  }

  ghost predicate LacksText(fields: seq<Field>, name: string) {
    forall s :: Get(fields, name) == Some(Str(s)) ==> !HasNonBlank(s)
  }

  /** The object grants exactly this authorization for exactly this plan: each text comes
      from its own field, the decision is the boolean true, and the approved digest is the
      hash of the plan's canonical text. */
  ghost predicate Grants(sha: Hash, j: Json, plan: Json, a: Authorization) {
    && j.Obj?
    && TextField(j.fields, "authorization_id", a.id)
    && TextField(j.fields, "approved_plan_digest", a.planDigest)
    && TextField(j.fields, "policy_digest_or_ref", a.policyRef)
    && TextField(j.fields, "authority_ref", a.authorityRef)
    && Get(j.fields, "decision") == Some(Bool(true))
    && a.planDigest == sha(Canonical.Text(plan))
  }

  lemma AuthFieldExact(fields: seq<Field>, name: string)
    ensures forall text :: AuthField(fields, name) == Accept(text) <==> TextField(fields, name, text)
    ensures AuthField(fields, name).Refuse? ==> AuthField(fields, name).reason == AuthBadField(name) && LacksText(fields, name)
  {
    match Get(fields, name)
    case Some(Str(s)) =>
      var _, _ := StripMeans(s);
      hide Strip, HasNonBlank;
    case _ =>
  }

  /** Validation accepts exactly the objects that grant the plan, and returns what they
      grant. */
  lemma ValidationExact(sha: Hash, j: Json, plan: Json, a: Authorization)
    ensures ValidateAuthorization(sha, j, plan) == Accept(a) <==> Grants(sha, j, plan, a)
  {
    hide AuthField, TextField, Get, Canonical.Text;
    if j.Obj? {
      AuthFieldExact(j.fields, "authorization_id");
      AuthFieldExact(j.fields, "approved_plan_digest");
      AuthFieldExact(j.fields, "policy_digest_or_ref");
      AuthFieldExact(j.fields, "authority_ref");
    }
  }

  /** A refusal names the first thing wrong: the kind, a field in order, the decision, or
      the digest. */
  lemma RefusalExact(sha: Hash, j: Json, plan: Json)
    requires ValidateAuthorization(sha, j, plan).Refuse?
    ensures var reason := ValidateAuthorization(sha, j, plan).reason;
            if !j.Obj? then reason == AuthNotAnObject
            else if LacksText(j.fields, "authorization_id") then reason == AuthBadField("authorization_id")
            else if LacksText(j.fields, "approved_plan_digest") then reason == AuthBadField("approved_plan_digest")
            else if LacksText(j.fields, "policy_digest_or_ref") then reason == AuthBadField("policy_digest_or_ref")
            else if LacksText(j.fields, "authority_ref") then reason == AuthBadField("authority_ref")
            else if Get(j.fields, "decision") != Some(Bool(true)) then reason == AuthNotGranted
            else reason == AuthDigestMismatch
  {
    hide AuthField, LacksText, Get, Canonical.Text;
    if j.Obj? {
      FieldRefused(j.fields, "authorization_id");
      FieldRefused(j.fields, "approved_plan_digest");
      FieldRefused(j.fields, "policy_digest_or_ref");
      FieldRefused(j.fields, "authority_ref");
    }
  }

  lemma FieldRefused(fields: seq<Field>, name: string)
    ensures AuthField(fields, name).Refuse? <==> LacksText(fields, name)
    ensures AuthField(fields, name).Refuse? ==> AuthField(fields, name).reason == AuthBadField(name)
  {
    AuthFieldExact(fields, name);
    if AuthField(fields, name).Accept? {
      assert TextField(fields, name, AuthField(fields, name).value);
    }
  }

  // -------------------------------------------------- what a tool contract says

  /** The name stands for this type and no other. */
  ghost predicate NamesType(name: string, t: Type) {
    && (name == "builtins.object" <==> t == AnyType)
    && (name == "builtins.int" <==> t == IntegerType)
    && (name == "builtins.float" <==> t == NumberType)
    && (name == "builtins.bool" <==> t == BooleanType)
    && (name == "builtins.str" <==> t == StringType)
    && (name == "builtins.dict" <==> t == ObjectType)
    && (name == "builtins.list" <==> t == ArrayType)
  }

  /** A dict with the type of every name, and nothing else. */
  ghost predicate SpecSays(j: Json, spec: map<string, Type>) {
    && j.Obj? && |j.fields| == |spec|
    && forall n :: n in spec ==> exists i :: 0 <= i < |j.fields| && j.fields[i].key == n && TypeSaid(j.fields[i].value, spec[n])
  }

  ghost predicate TypeSaid(j: Json, t: Type) {
    j.Str? && NamesType(j.s, t)
  }

  /** The list of the required names, sorted. */
  ghost predicate RequiredSaid(j: Json, tool: Tool) {
    && j.Arr? && (forall i :: 0 <= i < |j.items| ==> j.items[i].Str?)
    && (forall name :: Requires(tool, name) <==> Str(name) in j.items)
    && (forall i, k :: 0 <= i < k < |j.items| ==> Canonical.Before(j.items[i].s, j.items[k].s) && j.items[i] != j.items[k])
  }

  ghost predicate ToolSays(j: Json, key: string, tool: Tool) {
    && j.Obj? && |j.fields| == 6
    && j.fields[0] == Field("registry_key", Str(key))
    && j.fields[1] == Field("name", Str(tool.name))
    && j.fields[2].key == "input_spec" && SpecSays(j.fields[2].value, tool.inputSpec)
    && j.fields[3].key == "output_spec" && SpecSays(j.fields[3].value, tool.outputSpec)
    && j.fields[4].key == "required" && RequiredSaid(j.fields[4].value, tool)
    && j.fields[5] == Field("retry_safe", Bool(tool.retrySafe))
  }

  lemma TypeRefNames(t: Type)
    ensures NamesType(TypeRef(t), t)
  {
    assert |"builtins.object"| == 15 && |"builtins.int"| == 12 && |"builtins.float"| == 14 && |"builtins.bool"| == 13;
    assert |"builtins.str"| == 12 && |"builtins.dict"| == 13 && |"builtins.list"| == 13;
    assert "builtins.int"[9] == 'i' && "builtins.str"[9] == 's';
    assert "builtins.bool"[9] == 'b' && "builtins.dict"[9] == 'd' && "builtins.list"[9] == 'l';
  }

  lemma SpecSaid(spec: map<string, Type>)
    ensures SpecSays(Obj(SpecFields(spec, SortedNames(spec.Keys))), spec)
  {
    var names := SortedNames(spec.Keys);
    var fs := SpecFields(spec, names);
    hide TypeRef, NamesType, SortedNames, SpecFields;
    forall n | n in spec ensures exists i :: 0 <= i < |fs| && fs[i].key == n && TypeSaid(fs[i].value, spec[n]) {
      var i :| 0 <= i < |names| && names[i] == n;
      TypeRefNames(spec[n]);
      assert fs[i] == Field(n, Str(TypeRef(spec[n])));
    }
  }

  lemma RequiredListed(tool: Tool)
    ensures RequiredSaid(Arr(NameItems(SortedNames(tool.RequiredArgs()))), tool)
  {
    PT.RequiredMeans(tool);
    var names := SortedNames(tool.RequiredArgs());
    var items := NameItems(names);
    hide Requires, SortedNames, NameItems;
    forall name ensures Requires(tool, name) <==> Str(name) in items {
      if name in names {
        var i :| 0 <= i < |names| && names[i] == name;
        assert items[i] == Str(name);
      }
    }
  }

  lemma ToolSaid(key: string, tool: Tool)
    ensures ToolSays(ToolContract(key, tool), key, tool)
  {
    SpecSaid(tool.inputSpec);
    SpecSaid(tool.outputSpec);
    RequiredListed(tool);
    hide SortedNames, SpecFields, NameItems, SpecSays, RequiredSaid;
  }

  /** What stands for a registry: for every tool in the order of their keys, its key, its
      name, the type of every input and output, the arguments it requires in order, and
      whether it may be retried. */
  lemma ContractSays(registry: Registry) returns (keys: seq<string>)
    ensures |keys| == |registry| && forall k :: k in keys <==> k in registry
    ensures forall i, j :: 0 <= i < j < |keys| ==> Canonical.Before(keys[i], keys[j]) && keys[i] != keys[j]
    ensures ContractJson(registry).Arr? && |ContractJson(registry).items| == |keys|
    ensures forall i :: 0 <= i < |keys| ==> ToolSays(ContractJson(registry).items[i], keys[i], registry[keys[i]])
  {
    keys := SortedNames(registry.Keys);
    hide SortedNames, ToolContract, ToolSays;
    forall i | 0 <= i < |keys| ensures ToolSays(ContractJson(registry).items[i], keys[i], registry[keys[i]]) {
      ToolSaid(keys[i], registry[keys[i]]);
    }
  }

  // ------------------------------------------------------------- tool contracts

  lemma SpecWellFormed(spec: map<string, Type>)
    ensures WellFormed(Obj(SpecFields(spec, SortedNames(spec.Keys))))
  {
  }

  lemma ToolContractWellFormed(key: string, tool: Tool)
    ensures WellFormed(ToolContract(key, tool))
  {
    SpecWellFormed(tool.inputSpec);
    SpecWellFormed(tool.outputSpec);
    NamesWellFormed(SortedNames(tool.RequiredArgs()));
    hide SpecFields, SortedNames, NameItems;
    var fs := ToolContract(key, tool).fields;
    assert |fs[0].key| == 12 && |fs[1].key| == 4 && |fs[2].key| == 10 && |fs[3].key| == 11 && |fs[4].key| == 8 && |fs[5].key| == 10;
    assert fs[2].key[0] == 'i' && fs[5].key[0] == 'r';
    assert DistinctKeys(fs);
  }

  lemma NamesWellFormed(names: seq<string>)
    ensures WellFormed(Arr(NameItems(names)))
  {
  }

  lemma ContractWellFormed(registry: Registry)
    ensures WellFormed(ContractJson(registry))
  {
    var keys := SortedNames(registry.Keys);
    forall i | 0 <= i < |keys| ensures WellFormed(ContractItems(registry, keys)[i]) {
      ToolContractWellFormed(keys[i], registry[keys[i]]);
    }
  }

  lemma TypeRefInjective(t: Type, u: Type)
    requires TypeRef(t) == TypeRef(u)
    ensures t == u
  {
    assert |TypeRef(AnyType)| == 15 && |TypeRef(IntegerType)| == 12 && |TypeRef(NumberType)| == 14;
    assert TypeRef(BooleanType)[9] == 'b' && TypeRef(StringType)[9] == 's' && TypeRef(ObjectType)[9] == 'd' &&
           TypeRef(ArrayType)[9] == 'l' && TypeRef(IntegerType)[9] == 'i' && TypeRef(NumberType)[9] == 'f' && TypeRef(AnyType)[9] == 'o';
  }

  lemma SameSpecs(s: map<string, Type>, t: map<string, Type>)
    requires Canonical.Same(Obj(SpecFields(s, SortedNames(s.Keys))), Obj(SpecFields(t, SortedNames(t.Keys))))
    ensures s == t
  {
    var ns, nt := SortedNames(s.Keys), SortedNames(t.Keys);
    SpecsMatch(s, t, ns, nt);
    hide SortedNames;
    forall k | k in s ensures k in t && t[k] == s[k] {
      assert k in ns;
    }
    assert s.Keys <= t.Keys;
    Canonical.SubsetOfSameSize(s.Keys, t.Keys);
  }

  lemma SpecsMatch(s: map<string, Type>, t: map<string, Type>, ns: seq<string>, nt: seq<string>)
    requires (forall n :: n in ns ==> n in s) && (forall n :: n in nt ==> n in t)
    requires Canonical.Same(Obj(SpecFields(s, ns)), Obj(SpecFields(t, nt)))
    ensures |ns| == |nt|
    ensures forall k :: k in ns ==> k in t && t[k] == s[k]
  {
    var fs, ft := SpecFields(s, ns), SpecFields(t, nt);
    assert |fs| == |ft|;
    forall k | k in ns ensures k in t && t[k] == s[k] {
      var i :| 0 <= i < |ns| && ns[i] == k;
      assert fs[i] == Field(k, Str(TypeRef(s[k])));
      var m := Canonical.SameField(fs, ft, i);
      assert nt[m] in nt;
      assert ft[m] == Field(nt[m], Str(TypeRef(t[nt[m]])));
      hide TypeRef;
      SameScalars(fs[i].value, ft[m].value);
      TypeRefInjective(s[k], t[k]);
    }
  }

  lemma SameNames(a: set<string>, b: set<string>)
    requires Canonical.Same(Arr(NameItems(SortedNames(a))), Arr(NameItems(SortedNames(b))))
    ensures a == b
  {
    hide *;
    var na, nb := SortedNames(a), SortedNames(b);
    Canonical.SameItems(NameItems(na), NameItems(nb));
    forall i | 0 <= i < |na| ensures na[i] == nb[i] {
      SameScalars(NameItems(na)[i], NameItems(nb)[i]);
    }
    assert na == nb;
    SortedNamesInjective(a, b);
  }

  /** Two equal dicts with their keys in one order agree position by position. */
  lemma AlignedFields(f: seq<Field>, g: seq<Field>)
    requires Canonical.Same(Obj(f), Obj(g)) && DistinctKeys(g)
    requires |f| == |g| && forall i :: 0 <= i < |f| ==> f[i].key == g[i].key
    ensures forall i :: 0 <= i < |f| ==> Canonical.Same(f[i].value, g[i].value)
  {
    hide Canonical.Same;
    forall i | 0 <= i < |f| ensures Canonical.Same(f[i].value, g[i].value) {
      var m := Canonical.SameField(f, g, i);
      assert m == i;
    }
  }

  lemma SameToolContracts(k: string, t: Tool, l: string, u: Tool)
    requires Canonical.Same(ToolContract(k, t), ToolContract(l, u))
    ensures k == l && SameTool(t, u)
  {
    hide Canonical.Same, SpecFields, SortedNames, NameItems, DistinctKeys, WellFormed, SameTool;
    var f, g := ToolContract(k, t).fields, ToolContract(l, u).fields;
    assert DistinctKeys(g) by { ToolContractFields(l, u); }
    AlignedFields(f, g);
    assert Canonical.Same(f[0].value, g[0].value) && Canonical.Same(f[1].value, g[1].value) && Canonical.Same(f[5].value, g[5].value);
    SameScalars(Str(k), Str(l));
    SameScalars(Str(t.name), Str(u.name));
    SameScalars(Bool(t.retrySafe), Bool(u.retrySafe));
    assert Canonical.Same(f[2].value, g[2].value) && Canonical.Same(f[3].value, g[3].value) && Canonical.Same(f[4].value, g[4].value);
    SameSpecs(t.inputSpec, u.inputSpec);
    SameSpecs(t.outputSpec, u.outputSpec);
    SameNames(t.RequiredArgs(), u.RequiredArgs());
    AgreeingTools(t, u);
  }

  lemma AgreeingTools(t: Tool, u: Tool)
    requires t.name == u.name && t.inputSpec == u.inputSpec && t.outputSpec == u.outputSpec && t.retrySafe == u.retrySafe
    requires t.RequiredArgs() == u.RequiredArgs()
    ensures SameTool(t, u)
  {
    PT.RequiredMeans(t);
    PT.RequiredMeans(u);
    hide Requires;
  }

  lemma ToolContractFields(key: string, tool: Tool)
    ensures DistinctKeys(ToolContract(key, tool).fields)
  {
    ToolContractWellFormed(key, tool);
    hide SpecFields, SortedNames, NameItems;
  }

  lemma SameScalars(j: Json, k: Json)
    requires Canonical.Same(j, k) && (j.Str? || j.Bool?)
    ensures j == k
  {
  }

  lemma SameToolsPrintAlike(k: string, t: Tool, u: Tool)
    requires SameTool(t, u)
    ensures ToolContract(k, t) == ToolContract(k, u)
  {
    PT.RequiredMeans(t);
    PT.RequiredMeans(u);
    assert t.RequiredArgs() == u.RequiredArgs();
  }

  /** The contract text identifies the contract: registry order, tool bodies and the
      order of declarations do not matter, everything the planner sees does. */
  lemma ContractTextIdentifies(r: Registry, s: Registry)
    ensures ContractText(r) == ContractText(s) <==> SameContract(r, s)
  {
    ContractWellFormed(r);
    ContractWellFormed(s);
    Canonical.TextIdentifies(ContractJson(r), ContractJson(s));
    hide ContractJson, Canonical.Text, Canonical.Same;
    if ContractText(r) == ContractText(s) {
      SameContractJson(r, s);
    }
    if SameContract(r, s) {
      SameContractsPrintAlike(r, s);
    }
  }

  lemma SameContractsPrintAlike(r: Registry, s: Registry)
    requires SameContract(r, s)
    ensures ContractJson(r) == ContractJson(s)
  {
    hide ToolContract, SortedNames, SameTool;
    var keys := SortedNames(r.Keys);
    forall i | 0 <= i < |keys| ensures ContractItems(r, keys)[i] == ContractItems(s, keys)[i] {
      assert keys[i] in keys;
      SameToolsPrintAlike(keys[i], r[keys[i]], s[keys[i]]);
    }
    assert ContractItems(r, keys) == ContractItems(s, keys);
  }

  lemma SortedNamesInjective(a: set<string>, b: set<string>)
    requires SortedNames(a) == SortedNames(b)
    ensures a == b
  {
    hide SortedNames;
    forall x ensures x in a <==> x in b {
      assert x in SortedNames(a) <==> x in SortedNames(b);
    }
  }

  lemma SameContractJson(r: Registry, s: Registry)
    requires Canonical.Same(ContractJson(r), ContractJson(s))
    ensures SameContract(r, s)
  {
    var keys := SortedNames(r.Keys);
    ContractsMatch(r, s, keys, SortedNames(s.Keys));
    SortedNamesInjective(r.Keys, s.Keys);
    hide *;
    ToolsByName(r, s, keys);
  }

  lemma ToolsByName(r: Registry, s: Registry, keys: seq<string>)
    requires r.Keys == s.Keys && forall k :: k in keys <==> k in r
    requires forall i :: 0 <= i < |keys| ==> SameTool(r[keys[i]], s[keys[i]])
    ensures SameContract(r, s)
  {
    hide SameTool;
    forall k | k in r ensures SameTool(r[k], s[k]) {
      assert k in keys;
    }
  }

  lemma ContractsMatch(r: Registry, s: Registry, kr: seq<string>, ks: seq<string>)
    requires (forall k :: k in kr ==> k in r) && (forall k :: k in ks ==> k in s)
    requires Canonical.Same(Arr(ContractItems(r, kr)), Arr(ContractItems(s, ks)))
    ensures kr == ks
    ensures forall i :: 0 <= i < |kr| ==> SameTool(r[kr[i]], s[kr[i]])
  {
    var cr, cs := ContractItems(r, kr), ContractItems(s, ks);
    Canonical.SameItems(cr, cs);
    hide ToolContract, SameTool, Canonical.Same;
    forall i | 0 <= i < |kr| ensures kr[i] == ks[i] && SameTool(r[kr[i]], s[ks[i]]) {
      assert cr[i] == ToolContract(kr[i], r[kr[i]]) && cs[i] == ToolContract(ks[i], s[ks[i]]);
      SameToolContracts(kr[i], r[kr[i]], ks[i], s[ks[i]]);
    }
    assert kr == ks;
  }

  // ---------------------------------------------------------------- same plans

  /** Two plans are the same plan: equal as the dicts they print to. */
  ghost predicate SamePlan(p: Plan, q: Plan) {
    Canonical.Same(PlanToJson(p), PlanToJson(q))
  }

  ghost predicate SameStep(s: Step, t: Step) {
    match (s, t)
    case (Halt(r), Halt(r')) => r == r'
    case (ToolCall(n, a), ToolCall(n', a')) => n == n' && Canonical.Same(Obj(a), Obj(a'))
    case _ => false
  }

  lemma SameFields(f: seq<Field>, g: seq<Field>, i: nat)
    requires Canonical.Same(Obj(f), Obj(g)) && DistinctKeys(g) && i < |f| && i < |g| && f[i].key == g[i].key
    ensures |f| == |g| && Canonical.Same(f[i].value, g[i].value)
  {
    hide Canonical.Same;
    var m := Canonical.SameField(f, g, i);
    assert m == i;
  }

  lemma SameFieldCount(f: seq<Field>, g: seq<Field>)
    requires Canonical.Same(Obj(f), Obj(g))
    ensures |f| == |g|
  {
  }

  lemma SameStepJson(s: Step, t: Step)
    requires Canonical.Same(StepToJson(s), StepToJson(t))
    ensures SameStep(s, t)
  {
    var f, g := StepToJson(s).fields, StepToJson(t).fields;
    SameFieldCount(f, g);
    hide Canonical.Same;
    if s.Halt? {
      assert |g[0].key| == 4 && |g[1].key| == 6;
      SameFields(f, g, 1);
      SameScalars(Str(s.reason), Str(t.reason));
    } else {
      assert |g[0].key| == 4 && |g[1].key| == 4 && |g[2].key| == 4;
      assert g[0].key[0] == 't' && g[1].key[0] == 'n' && g[2].key[0] == 'a';
      SameFields(f, g, 1);
      SameScalars(Str(s.name), Str(t.name));
      SameFields(f, g, 2);
    }
  }

  /** The same plan has the same goal and, step by step, the same tool with equal
      arguments. */
  lemma SamePlanSteps(p: Plan, q: Plan)
    requires SamePlan(p, q)
    ensures p.goal == q.goal && |p.steps| == |q.steps|
    ensures forall i :: 0 <= i < |p.steps| ==> SameStep(p.steps[i], q.steps[i])
  {
    var f, g := PlanToJson(p).fields, PlanToJson(q).fields;
    assert |g[0].key| == 4 && |g[1].key| == 5;
    hide Canonical.Same, SameStep;
    SameFields(f, g, 0);
    SameScalars(Str(p.goal), Str(q.goal));
    SameFields(f, g, 1);
    Canonical.SameItems(StepsToJson(p.steps), StepsToJson(q.steps));
    forall i | 0 <= i < |p.steps| ensures SameStep(p.steps[i], q.steps[i]) {
      SameStepJson(p.steps[i], q.steps[i]);
    }
  }

  // ------------------------------------------------------------------- theorems

  ghost function PlanText(plan: Plan): string {
    Canonical.Text(PlanToJson(plan))
  }

  lemma PlanTextIdentifies(p: Plan, q: Plan)
    requires PT.WellFormedPlan(p) && PT.WellFormedPlan(q)
    ensures PlanText(p) == PlanText(q) <==> SamePlan(p, q)
  {
    Canonical.TextIdentifies(PlanToJson(p), PlanToJson(q));
  }

  /** The authorization a recovery supplies is none, or grants just what the stored one
      granted. */
  ghost predicate AuthorizationMatches(sha: Hash, plan: Plan, stored: Option<Json>, plan': Plan, supplied: Option<Json>) {
    supplied == None ||
    (stored.Some? && exists a :: Grants(sha, stored.value, PlanToJson(plan), a) && Grants(sha, supplied.value, PlanToJson(plan'), a))
  }

  lemma DigestsCompare(sha: Hash, p: Plan, q: Plan)
    requires PT.WellFormedPlan(p) && PT.WellFormedPlan(q) && NoCollision(sha, PlanText(p), PlanText(q))
    ensures PlanDigest(sha, PlanToJson(p)) == PlanDigest(sha, PlanToJson(q)) <==> SamePlan(p, q)
  {
    PlanTextIdentifies(p, q);
    hide SamePlan;
  }

  /** A recovery passes the binding check if and only if it presents the committed plan
      (key order aside), the committed tool contract, and no other authorization. */
  lemma CheckAcceptsExactly(sha: Hash, plan: Plan, registry: Registry, authorization: Option<Json>,
                            plan': Plan, registry': Registry, authorization': Option<Json>)
    requires Bind(sha, plan, registry, authorization).Accept?
    requires PT.WellFormedPlan(plan) && PT.WellFormedPlan(plan')
    requires NoCollision(sha, PlanText(plan), PlanText(plan'))
    requires NoCollision(sha, ContractText(registry), ContractText(registry'))
    ensures CheckBinding(sha, Bind(sha, plan, registry, authorization).value, plan', registry', authorization').Accept? <==>
            SamePlan(plan, plan') && SameContract(registry, registry') &&
            AuthorizationMatches(sha, plan, authorization, plan', authorization')
  {
    hide Loads, Print, WellFormed, SamePlan, SameContract, ValidateAuthorization, CheckAuthorization, AuthorizationMatches;
    RoundTrip.LoadsInvertsPrint(COMPACT, PlanToJson(plan));
    DigestsCompare(sha, plan, plan');
    ContractTextIdentifies(registry, registry');
    if SamePlan(plan, plan') {
      SamePlanSteps(plan, plan');
      AuthorizationChecked(sha, plan, registry, authorization, plan', authorization');
    }
    hide ContractText, PlanDigest, PlanToJson;
  }

  lemma AuthorizationChecked(sha: Hash, plan: Plan, registry: Registry, authorization: Option<Json>,
                             plan': Plan, authorization': Option<Json>)
    requires Bind(sha, plan, registry, authorization).Accept?
    requires PlanDigest(sha, PlanToJson(plan)) == PlanDigest(sha, PlanToJson(plan'))
    ensures CheckAuthorization(sha, Bind(sha, plan, registry, authorization).value, PlanToJson(plan'), authorization').Accept? <==>
            AuthorizationMatches(sha, plan, authorization, plan', authorization')
  {
    hide ContractText, PlanDigest, ValidateAuthorization, PlanToJson, Grants;
    if authorization.Some? {
      var row := Bind(sha, plan, registry, authorization).value.authorization.value;
      ValidationNormalizes(sha, authorization.value, PlanToJson(plan));
      NormalizedValidates(sha, row, PlanToJson(plan'));
      GrantsOne(sha, authorization.value, PlanToJson(plan), row);
      if authorization'.Some? {
        ValidationExact(sha, authorization'.value, PlanToJson(plan'), row);
      }
    }
  }

  /** An object grants at most one authorization. */
  lemma GrantsOne(sha: Hash, j: Json, plan: Json, row: Authorization)
    requires ValidateAuthorization(sha, j, plan) == Accept(row)
    ensures forall a :: Grants(sha, j, plan, a) <==> a == row
  {
    hide ValidateAuthorization, Grants;
    forall a ensures Grants(sha, j, plan, a) <==> a == row {
      ValidationExact(sha, j, plan, a);
    }
  }

  // ------------------------------------------------------- what is committed, and when

  /** The rows that bind a run to what was presented. */
  ghost predicate Binds(sha: Hash, bound: Bound, plan: Plan, registry: Registry, authorization: Option<Json>) {
    && Loads(bound.planJson) == Some(PlanToJson(plan))
    && bound.planDigest == sha(Canonical.Text(PlanToJson(plan)))
    && bound.stepCount == |plan.steps|
    && bound.contract == Some(sha(ContractText(registry)))
    && (match authorization
        case None => bound.authorization == None
        case Some(j) => bound.authorization.Some? && Grants(sha, j, PlanToJson(plan), bound.authorization.value))
  }

  /** A run begins if and only if no authorization is presented or the one presented
      grants the plan; and what is committed is then what was presented. */
  lemma BindsExactly(sha: Hash, plan: Plan, registry: Registry, authorization: Option<Json>)
    requires PT.WellFormedPlan(plan)
    ensures var r := Bind(sha, plan, registry, authorization);
            && (r.Accept? <==> authorization.None? || exists a :: Grants(sha, authorization.value, PlanToJson(plan), a))
            && (r.Accept? ==> Binds(sha, r.value, plan, registry, authorization))
  {
    hide ContractText, ValidateAuthorization, PlanToJson, Grants, Canonical.Text, Loads, Print, WellFormed;
    RoundTrip.LoadsInvertsPrint(COMPACT, PlanToJson(plan));
    if authorization.Some? {
      var r := ValidateAuthorization(sha, authorization.value, PlanToJson(plan));
      if r.Accept? {
        ValidationExact(sha, authorization.value, PlanToJson(plan), r.value);
      }
      forall a | Grants(sha, authorization.value, PlanToJson(plan), a) ensures r == Accept(a) {
        ValidationExact(sha, authorization.value, PlanToJson(plan), a);
      }
    }
  }

  /** Any stored binding, however it came about, admits a request if and only if the plan
      presented, and the stored plan read back, have the stored digest; the number of steps
      and the contract hash are the stored ones; and the stored authorization, if any,
      still holds for the plan, and is the one supplied if one is. */
  ghost predicate Admits(sha: Hash, bound: Bound, plan: Plan, registry: Registry, authorization: Option<Json>) {
    && sha(Canonical.Text(PlanToJson(plan))) == bound.planDigest
    && Loads(bound.planJson).Some? && sha(Canonical.Text(Loads(bound.planJson).value)) == bound.planDigest
    && |plan.steps| == bound.stepCount
    && bound.contract == Some(sha(ContractText(registry)))
    && (match bound.authorization
        case None => authorization == None
        case Some(row) =>
          exists stored :: Grants(sha, AuthorizationToJson(row), PlanToJson(plan), stored) &&
            (authorization.Some? ==> Grants(sha, authorization.value, PlanToJson(plan), stored)))
  }

  lemma AdmitsExactly(sha: Hash, bound: Bound, plan: Plan, registry: Registry, authorization: Option<Json>)
    ensures CheckBinding(sha, bound, plan, registry, authorization).Accept? <==> Admits(sha, bound, plan, registry, authorization)
  {
    hide ContractText, ValidateAuthorization, PlanToJson, Grants, Canonical.Text, Loads, AuthorizationToJson;
    if bound.authorization.Some? {
      StoredHolds(sha, bound, PlanToJson(plan), authorization);
    }
  }

  /** Why a request is turned away: the plan first, then the contract, then the
      authorization; the ledger digest of an authorization that still holds for the plan
      can never be the one that differs. */
  lemma CheckRefusalExact(sha: Hash, bound: Bound, plan: Plan, registry: Registry, authorization: Option<Json>)
    requires CheckBinding(sha, bound, plan, registry, authorization).Refuse?
    ensures var reason := CheckBinding(sha, bound, plan, registry, authorization).reason;
            var json := PlanToJson(plan);
            if !(sha(Canonical.Text(json)) == bound.planDigest && Loads(bound.planJson).Some? &&
                 sha(Canonical.Text(Loads(bound.planJson).value)) == bound.planDigest && |plan.steps| == bound.stepCount) then
              reason == PlanMismatch
            else if bound.contract == None then reason == ContractMissing
            else if bound.contract.value != sha(ContractText(registry)) then reason == ContractMismatch
            else if bound.authorization == None then reason == AuthMissing
            else
              var stored := ValidateAuthorization(sha, AuthorizationToJson(bound.authorization.value), json);
              if stored.Refuse? then reason == stored.reason
              else
                authorization.Some? &&
                (forall a :: Grants(sha, authorization.value, json, a) ==> a != stored.value && reason == AuthMismatch) &&
                ((forall a :: !Grants(sha, authorization.value, json, a)) ==>
                   ValidateAuthorization(sha, authorization.value, json) == Refuse(reason))
  {
    hide ContractText, ValidateAuthorization, PlanToJson, Grants, Canonical.Text, Loads, AuthorizationToJson;
    var json := PlanToJson(plan);
    if bound.authorization.Some? {
      var stored := ValidateAuthorization(sha, AuthorizationToJson(bound.authorization.value), json);
      if stored.Accept? {
        GrantsOne(sha, AuthorizationToJson(bound.authorization.value), json, stored.value);
        GrantedDigest(sha, AuthorizationToJson(bound.authorization.value), json, stored.value);
      }
      if authorization.Some? {
        var supplied := ValidateAuthorization(sha, authorization.value, json);
        if supplied.Accept? {
          GrantsOne(sha, authorization.value, json, supplied.value);
          assert Grants(sha, authorization.value, json, supplied.value);
        } else {
          forall a ensures !Grants(sha, authorization.value, json, a) {
            ValidationExact(sha, authorization.value, json, a);
          }
        }
      }
    }
  }

  lemma StoredHolds(sha: Hash, bound: Bound, plan: Json, authorization: Option<Json>)
    requires bound.authorization.Some?
    ensures var row := AuthorizationToJson(bound.authorization.value);
            PlanDigest(sha, plan) == bound.planDigest ==>
              (CheckAuthorization(sha, bound, plan, authorization).Accept? <==>
                exists stored :: Grants(sha, row, plan, stored) && (authorization.Some? ==> Grants(sha, authorization.value, plan, stored)))
  {
    hide ValidateAuthorization, Grants, AuthorizationToJson, PlanDigest;
    var row := AuthorizationToJson(bound.authorization.value);
    var checked := ValidateAuthorization(sha, row, plan);
    if checked.Accept? {
      GrantsOne(sha, row, plan, checked.value);
      GrantedDigest(sha, row, plan, checked.value);
      if authorization.Some? {
        ValidationExact(sha, authorization.value, plan, checked.value);
      }
    } else {
      forall stored ensures !Grants(sha, row, plan, stored) {
        ValidationExact(sha, row, plan, stored);
      }
    }
  }

  lemma GrantedDigest(sha: Hash, j: Json, plan: Json, a: Authorization)
    requires Grants(sha, j, plan, a)
    ensures a.planDigest == PlanDigest(sha, plan)
  {
    hide TextField, Canonical.Text, Get;
  }

  /** A binding that a plan committed is met by that plan and what it was committed with. */
  lemma OwnBindingAccepted(sha: Hash, plan: Plan, registry: Registry, authorization: Option<Json>)
    requires Bind(sha, plan, registry, authorization).Accept? && PT.WellFormedPlan(plan)
    ensures CheckBinding(sha, Bind(sha, plan, registry, authorization).value, plan, registry, authorization).Accept?
  {
    hide ContractText, PlanToJson, Grants, ValidateAuthorization, CheckBinding, Bind, Canonical.Text, SamePlan, SameContract;
    PlanTextIdentifies(plan, plan);
    ContractTextIdentifies(registry, registry);
    BindsExactly(sha, plan, registry, authorization);
    CheckAcceptsExactly(sha, plan, registry, authorization, plan, registry, authorization);
  }
}
