/** Task and resource specifications of the harness: construction, which normalises and
    validates; the canonical JSON they are stored as; eligibility. */
module HarnessSpecs {
  import opened Json
  import opened Text
  import opened Plans
  import opened Binding
  import Canonical
  import RoundTrip = JsonRoundTrip

  /** The cash ceiling is always 0.0 and is left out. */
  datatype TaskSpec = TaskSpec(
    taskId: string,
    intentRef: string,
    domain: string,
    capabilities: seq<string>,
    expected: string,
    mutation: string,
    contextBudget: Option<int>,
    retryBudget: int)

  datatype ResourceSpec = ResourceSpec(
    resourceId: string,
    capabilities: seq<string>,
    mutation: string,
    zeroSpend: bool,
    contextLimit: Option<int>)

  datatype Built<+T> = Built(value: T) | ValueError(field: string)

  // ------------------------------------------------------------- construction

  function Stripped(values: seq<string>): set<string> {
    set v | v in values && Strip(v) != "" :: Strip(v)
  }

  /** `_normalize_capabilities`: trimmed, sorted; none empty, none twice. */
  function NormalizeCapabilities(values: seq<string>): Built<seq<string>> {
    var cleaned := SortedNames(Stripped(values));
    if |cleaned| != |values| then ValueError("capabilities") else Built(cleaned)
  }

  predicate IsHex(c: char) {
    '0' <= c <= '9' || 'a' <= c <= 'f'
  }

  predicate IsDigest(s: string) {
    |s| == 64 && forall i :: 0 <= i < |s| ==> IsHex(s[i])
  }

  /** `_validate_digest`. */
  function ValidateDigest(value: string): Built<string> {
    var digest := Lower(Strip(value));
    if IsDigest(digest) then Built(digest) else ValueError("expected_result_sha256")
  }

  predicate IsMutation(m: string) {
    |m| == 2 && m[0] == 'M' && '0' <= m[1] <= '4'
  }

  function MutationLevel(m: string): nat
    requires IsMutation(m)
  {
    (m[1] - '0') as nat
  }

  /** `TaskSpec.__post_init__`. */
  function BuildTask(raw: TaskSpec): Built<TaskSpec> {
    if Strip(raw.taskId) == "" then ValueError("task_id")
    else if Strip(raw.intentRef) == "" then ValueError("intent_ref")
    else if Strip(raw.domain) == "" then ValueError("domain")
    else
      match NormalizeCapabilities(raw.capabilities)
      case ValueError(field) => ValueError(field)
      case Built(capabilities) =>
        match ValidateDigest(raw.expected)
        case ValueError(field) => ValueError(field)
        case Built(expected) =>
          if !IsMutation(raw.mutation) then ValueError("mutation_class")
          else if raw.contextBudget.Some? && raw.contextBudget.value < 0 then ValueError("context_budget")
          else if raw.retryBudget < 0 then ValueError("retry_budget")
          else Built(TaskSpec(Strip(raw.taskId), Strip(raw.intentRef), Strip(raw.domain), capabilities, expected,
                              raw.mutation, raw.contextBudget, raw.retryBudget))
  }

  /** `ResourceSpec.__post_init__`. */
  function BuildResource(raw: ResourceSpec): Built<ResourceSpec> {
    if Strip(raw.resourceId) == "" then ValueError("resource_id")
    else
      match NormalizeCapabilities(raw.capabilities)
      case ValueError(field) => ValueError(field)
      case Built(capabilities) =>
        if !IsMutation(raw.mutation) then ValueError("maximum_mutation_class")
        else if raw.contextLimit.Some? && raw.contextLimit.value < 0 then ValueError("context_limit")
        else Built(raw.(resourceId := Strip(raw.resourceId), capabilities := capabilities))
  }

  /** A specification object that exists: construction leaves it as it is. */
  predicate IsTask(t: TaskSpec) {
    BuildTask(t) == Built(t)
  }

  predicate IsResource(r: ResourceSpec) {
    BuildResource(r) == Built(r)
  }

  /** `_eligible`. */
  predicate Eligible(task: TaskSpec, resource: ResourceSpec)
    requires IsMutation(task.mutation) && IsMutation(resource.mutation)
  {
    && resource.zeroSpend
    && (forall c :: c in task.capabilities ==> c in resource.capabilities)
    && MutationLevel(task.mutation) <= MutationLevel(resource.mutation)
    && !(task.contextBudget.Some? && resource.contextLimit.Some? && resource.contextLimit.value < task.contextBudget.value)
  }

  // ------------------------------------------------------------------ encoding

  function OptionalInt(n: Option<int>): Json {
    match n
    case None => Null
    case Some(i) => Int(i)
  }

  /** `asdict`, in the order of the declarations. */
  function TaskDict(t: TaskSpec): Json {
    Obj([Field("task_id", Str(t.taskId)),
         Field("intent_ref", Str(t.intentRef)),
         Field("domain", Str(t.domain)),
         Field("capabilities", Arr(NameItems(t.capabilities))),
         Field("expected_result_sha256", Str(t.expected)),
         Field("mutation_class", Str(t.mutation)),
         Field("context_budget", OptionalInt(t.contextBudget)),
         Field("retry_budget", Int(t.retryBudget))])
  }

  function ResourceDict(r: ResourceSpec): Json {
    Obj([Field("resource_id", Str(r.resourceId)),
         Field("capabilities", Arr(NameItems(r.capabilities))),
         Field("maximum_mutation_class", Str(r.mutation)),
         Field("hard_zero_spend_eligible", Bool(r.zeroSpend)),
         Field("context_limit", OptionalInt(r.contextLimit))])
  }

  /** `_canonical_json`: sorted keys, compact, ASCII. */
  function CanonicalJson(j: Json): string {
    Print(COMPACT_ASCII, Canonical.Normal(j))
  }

  function TaskText(t: TaskSpec): string {
    CanonicalJson(TaskDict(t))
  }

  function ResourceText(r: ResourceSpec): string {
    CanonicalJson(ResourceDict(r))
  }

  /** `_spec_hash`. */
  function SpecHash(sha: Hash, value: Json): string {
    sha(CanonicalJson(value))
  }

  // ------------------------------------------------------------------ decoding

  function GetStr(fields: seq<Field>, key: string): Option<string> {
    match Get(fields, key)
    case Some(Str(s)) => Some(s)
    case _ => None
  }

  function GetOptionalInt(fields: seq<Field>, key: string): Option<Option<int>> {
    match Get(fields, key)
    case Some(Null) => Some(None)
    case Some(Int(n)) => Some(Some(n))
    case _ => None
  }

  function Names(items: seq<Json>): Option<seq<string>> {
    if items == [] then Some([])
    else if !items[0].Str? then None
    else
      match Names(items[1..])
      case None => None
      case Some(rest) => Some([items[0].s] + rest)
  }

  function GetNames(fields: seq<Field>, key: string): Option<seq<string>> {
    match Get(fields, key)
    case Some(Arr(items)) => Names(items)
    case _ => None
  }

  /** The object a dict describes; fields of the wrong type do not decode. */
  function TaskOf(fs: seq<Field>): Option<TaskSpec> {
    var taskId, intentRef, domain := GetStr(fs, "task_id"), GetStr(fs, "intent_ref"), GetStr(fs, "domain");
    var capabilities, expected := GetNames(fs, "capabilities"), GetStr(fs, "expected_result_sha256");
    var mutation, context, retry := GetStr(fs, "mutation_class"), GetOptionalInt(fs, "context_budget"), Get(fs, "retry_budget");
    if taskId.Some? && intentRef.Some? && domain.Some? && capabilities.Some? && expected.Some? && mutation.Some? && context.Some? &&
       retry.Some? && retry.value.Int? then
      match BuildTask(TaskSpec(taskId.value, intentRef.value, domain.value, capabilities.value, expected.value,
                               mutation.value, context.value, retry.value.n))
      case Built(t) => Some(t)
      case ValueError(_) => None
    else None
  }

  function ResourceOf(fs: seq<Field>): Option<ResourceSpec> {
    var resourceId, capabilities := GetStr(fs, "resource_id"), GetNames(fs, "capabilities");
    var mutation, zero, context := GetStr(fs, "maximum_mutation_class"), Get(fs, "hard_zero_spend_eligible"), GetOptionalInt(fs, "context_limit");
    if resourceId.Some? && capabilities.Some? && mutation.Some? && zero.Some? && zero.value.Bool? && context.Some? then
      match BuildResource(ResourceSpec(resourceId.value, capabilities.value, mutation.value, zero.value.b, context.value))
      case Built(r) => Some(r)
      case ValueError(_) => None
    else None
  }

  /** `_decode_task`. */
  function DecodeTask(text: string): Option<TaskSpec> {
    match Loads(text)
    case Some(Obj(fs)) => TaskOf(fs)
    case _ => None
  }

  /** `_decode_resource`. */
  function DecodeResource(text: string): Option<ResourceSpec> {
    match Loads(text)
    case Some(Obj(fs)) => ResourceOf(fs)
    case _ => None
  }

  // ------------------------------------------------------- construction facts

  /** A sequence of trimmed, sorted names is its own normal form. */
  lemma NormalCapabilities(values: seq<string>)
    requires NormalizeCapabilities(values).Built?
    ensures NormalizeCapabilities(NormalizeCapabilities(values).value) == NormalizeCapabilities(values)
  {
    var cleaned := NormalizeCapabilities(values).value;
    hide SortedNames;
    forall v | v in cleaned ensures Strip(v) == v && v != "" {
      var w :| w in values && Strip(w) != "" && Strip(w) == v;
      StripIdempotent(w);
    }
    assert Stripped(cleaned) == Stripped(values);
  }

  /** The order capabilities are listed in does not matter. */
  lemma PermutedCapabilities(a: seq<string>, b: seq<string>)
    requires multiset(a) == multiset(b)
    ensures NormalizeCapabilities(a) == NormalizeCapabilities(b)
  {
    assert |a| == |multiset(a)| == |multiset(b)| == |b|;
    forall v ensures v in a <==> v in b {
      assert v in a <==> v in multiset(a);
      assert v in b <==> v in multiset(b);
    }
    assert Stripped(a) == Stripped(b);
  }

  lemma DigestIsNormal(value: string)
    requires ValidateDigest(value).Built?
    ensures ValidateDigest(ValidateDigest(value).value) == ValidateDigest(value)
  {
    var digest := ValidateDigest(value).value;
    assert IsHex(digest[0]) && IsHex(digest[63]);
    TrimmedIsKept(digest);
    assert Lower(digest) == digest;
  }

  /** Building what was built changes nothing. */
  lemma BuildTaskIdempotent(raw: TaskSpec)
    requires BuildTask(raw).Built?
    ensures IsTask(BuildTask(raw).value)
  {
    hide Strip, NormalizeCapabilities, ValidateDigest;
    StripIdempotent(raw.taskId);
    StripIdempotent(raw.intentRef);
    StripIdempotent(raw.domain);
    NormalCapabilities(raw.capabilities);
    DigestIsNormal(raw.expected);
  }

  lemma BuildResourceIdempotent(raw: ResourceSpec)
    requires BuildResource(raw).Built?
    ensures IsResource(BuildResource(raw).value)
  {
    hide Strip, NormalizeCapabilities;
    StripIdempotent(raw.resourceId);
    NormalCapabilities(raw.capabilities);
  }

  // --------------------------------------------------------------- round trips

  lemma {:induction false} GetIsMember(fields: seq<Field>, key: string, value: Json)
    requires DistinctKeys(fields)
    ensures Get(fields, key) == Some(value) <==> Field(key, value) in fields
  {
    if fields != [] {
      GetIsMember(fields[1..], key, value);
      assert fields == [fields[0]] + fields[1..];
    }
  }

  /** Every field is found under its own key. */
  lemma FieldsFound(fields: seq<Field>)
    requires DistinctKeys(fields)
    ensures forall i :: 0 <= i < |fields| ==> Get(fields, fields[i].key) == Some(fields[i].value)
  {
    hide Get, DistinctKeys;
    forall i | 0 <= i < |fields| ensures Get(fields, fields[i].key) == Some(fields[i].value) {
      GetIsMember(fields, fields[i].key, fields[i].value);
      assert fields[i] == Field(fields[i].key, fields[i].value);
    }
  }

  /** Sorting the keys does not change what they lead to. */
  lemma GetSorted(fields: seq<Field>, key: string)
    requires DistinctKeys(fields)
    ensures Get(Canonical.Sort(fields), key) == Get(fields, key)
  {
    Canonical.SortSorts(fields);
    Canonical.SortedDistinct(Canonical.Sort(fields));
    if Get(fields, key).Some? {
      var value := Get(fields, key).value;
      GetIsMember(fields, key, value);
      Canonical.SortMembers(fields, Field(key, value));
      GetIsMember(Canonical.Sort(fields), key, value);
    } else if Get(Canonical.Sort(fields), key).Some? {
      var value := Get(Canonical.Sort(fields), key).value;
      GetIsMember(Canonical.Sort(fields), key, value);
      Canonical.SortMembers(fields, Field(key, value));
      GetIsMember(fields, key, value);
    }
  }

  lemma {:induction false} GetNormal(fields: seq<Field>, key: string)
    ensures Get(Canonical.NormalFields(fields), key) ==
            match Get(fields, key) case None => None case Some(value) => Some(Canonical.Normal(value))
  {
    if fields != [] {
      GetNormal(fields[1..], key);
      assert Canonical.NormalFields(fields)[1..] == Canonical.NormalFields(fields[1..]);
    }
  }

  /** The fields of an object once its canonical text has been read back. */
  function Reread(fields: seq<Field>): seq<Field> {
    Canonical.Sort(Canonical.NormalFields(fields))
  }

  lemma CanonicalReadsBack(fields: seq<Field>)
    requires WellFormed(Obj(fields))
    ensures Loads(CanonicalJson(Obj(fields))) == Some(Obj(Reread(fields)))
  {
    Canonical.NormalWellFormed(Obj(fields));
    RoundTrip.LoadsInvertsPrint(COMPACT_ASCII, Canonical.Normal(Obj(fields)));
  }

  /** Under every key there is the same value as before. */
  lemma RereadKey(fields: seq<Field>, key: string)
    requires DistinctKeys(fields)
    ensures Get(Reread(fields), key) == match Get(fields, key) case None => None case Some(value) => Some(Canonical.Normal(value))
  {
    assert DistinctKeys(Canonical.NormalFields(fields));
    GetSorted(Canonical.NormalFields(fields), key);
    GetNormal(fields, key);
  }

  lemma {:induction false} NamesOfItems(names: seq<string>)
    ensures Names(NameItems(names)) == Some(names)
    ensures Canonical.Normal(Arr(NameItems(names))) == Arr(NameItems(names))
  {
    PlainIsNormal(Arr(NameItems(names)));
    hide Canonical.Normal;
    if names != [] {
      NamesOfItems(names[1..]);
      FirstName(names);
      hide NameItems;
    }
  }

  lemma FirstName(names: seq<string>)
    requires names != []
    ensures var items := NameItems(names);
            |items| > 0 && items[0] == Str(names[0]) && items[1..] == NameItems(names[1..])
    ensures names == [names[0]] + names[1..]
  {
  }

  lemma TaskDictFields(t: TaskSpec)
    ensures WellFormed(TaskDict(t))
    ensures var fs := TaskDict(t).fields;
            && Get(fs, "task_id") == Some(Str(t.taskId)) && Get(fs, "intent_ref") == Some(Str(t.intentRef))
            && Get(fs, "domain") == Some(Str(t.domain)) && Get(fs, "capabilities") == Some(Arr(NameItems(t.capabilities)))
            && Get(fs, "expected_result_sha256") == Some(Str(t.expected)) && Get(fs, "mutation_class") == Some(Str(t.mutation))
            && Get(fs, "context_budget") == Some(OptionalInt(t.contextBudget)) && Get(fs, "retry_budget") == Some(Int(t.retryBudget))
  {
    hide NameItems;
    var fs := TaskDict(t).fields;
    TaskKeysDistinct(t);
    forall i | 0 <= i < |fs| ensures WellFormed(fs[i].value) {
      NameItemsWellFormed(t.capabilities);
    }
    forall i | 0 <= i < |fs| ensures Get(fs, fs[i].key) == Some(fs[i].value) {
      GetIsMember(fs, fs[i].key, fs[i].value);
      assert fs[i] == Field(fs[i].key, fs[i].value);
    }
    hide Get;
    assert fs[0].key == "task_id" && fs[1].key == "intent_ref" && fs[2].key == "domain" && fs[3].key == "capabilities";
    assert fs[4].key == "expected_result_sha256" && fs[5].key == "mutation_class" && fs[6].key == "context_budget" && fs[7].key == "retry_budget";
  }

  lemma TaskKeysDistinct(t: TaskSpec)
    ensures DistinctKeys(TaskDict(t).fields)
  {
    var fs := TaskDict(t).fields;
    assert |fs[0].key| == 7 && |fs[1].key| == 10 && |fs[2].key| == 6 && |fs[3].key| == 12;
    assert |fs[4].key| == 22 && |fs[5].key| == 14 && fs[5].key[0] == 'm' && |fs[6].key| == 14 && fs[6].key[0] == 'c' && |fs[7].key| == 12 && fs[7].key[0] == 'r';
    assert fs[3].key[0] == 'c';
  }

  lemma NameItemsWellFormed(names: seq<string>)
    ensures WellFormed(Arr(NameItems(names)))
  {
  }

  /** Strings, numbers, booleans and lists of strings come back unchanged. */
  lemma PlainKey(fields: seq<Field>, key: string)
    requires DistinctKeys(fields) && Get(fields, key).Some? && Plain(Get(fields, key).value)
    ensures Get(Reread(fields), key) == Get(fields, key)
  {
    hide Reread;
    RereadKey(fields, key);
    PlainIsNormal(Get(fields, key).value);
  }

  ghost predicate Plain(j: Json) {
    match j
    case Obj(_) => false
    case Arr(items) => forall i :: 0 <= i < |items| ==> items[i].Str?
    case _ => true
  }

  lemma PlainIsNormal(j: Json)
    requires Plain(j)
    ensures Canonical.Normal(j) == j
  {
    if j.Arr? {
      assert Canonical.NormalItems(j.items) == j.items;
    }
  }

  lemma TaskFieldsDecode(fs: seq<Field>, t: TaskSpec)
    requires Get(fs, "task_id") == Some(Str(t.taskId)) && Get(fs, "intent_ref") == Some(Str(t.intentRef))
    requires Get(fs, "domain") == Some(Str(t.domain)) && Get(fs, "capabilities") == Some(Arr(NameItems(t.capabilities)))
    requires Get(fs, "expected_result_sha256") == Some(Str(t.expected)) && Get(fs, "mutation_class") == Some(Str(t.mutation))
    requires Get(fs, "context_budget") == Some(OptionalInt(t.contextBudget)) && Get(fs, "retry_budget") == Some(Int(t.retryBudget))
    requires IsTask(t)
    ensures TaskOf(fs) == Some(t)
  {
    hide BuildTask, NameItems, Names, Get;
    NamesOfItems(t.capabilities);
  }

  /** `_decode_task` undoes `_task_json`. */
  lemma TaskRoundTrip(t: TaskSpec)
    requires IsTask(t)
    ensures DecodeTask(TaskText(t)) == Some(t)
  {
    hide IsTask, CanonicalJson, Loads, NameItems, Reread, Get, TaskOf;
    var fs := TaskDict(t).fields;
    TaskDictFields(t);
    CanonicalReadsBack(fs);
    PlainKey(fs, "task_id");
    PlainKey(fs, "intent_ref");
    PlainKey(fs, "domain");
    PlainKey(fs, "capabilities");
    PlainKey(fs, "expected_result_sha256");
    PlainKey(fs, "mutation_class");
    PlainKey(fs, "context_budget");
    PlainKey(fs, "retry_budget");
    TaskFieldsDecode(Reread(fs), t);
  }

  lemma ResourceDictFields(r: ResourceSpec)
    ensures WellFormed(ResourceDict(r))
    ensures var fs := ResourceDict(r).fields;
            && Get(fs, "resource_id") == Some(Str(r.resourceId)) && Get(fs, "capabilities") == Some(Arr(NameItems(r.capabilities)))
            && Get(fs, "maximum_mutation_class") == Some(Str(r.mutation)) && Get(fs, "hard_zero_spend_eligible") == Some(Bool(r.zeroSpend))
            && Get(fs, "context_limit") == Some(OptionalInt(r.contextLimit))
  {
    hide NameItems;
    var fs := ResourceDict(r).fields;
    assert |fs[0].key| == 11 && |fs[1].key| == 12 && |fs[2].key| == 22 && |fs[3].key| == 24 && |fs[4].key| == 13;
    assert DistinctKeys(fs);
    forall i | 0 <= i < |fs| ensures WellFormed(fs[i].value) {
      NameItemsWellFormed(r.capabilities);
    }
    forall i | 0 <= i < |fs| ensures Get(fs, fs[i].key) == Some(fs[i].value) {
      GetIsMember(fs, fs[i].key, fs[i].value);
      assert fs[i] == Field(fs[i].key, fs[i].value);
    }
    hide Get;
    assert fs[0].key == "resource_id" && fs[1].key == "capabilities" && fs[2].key == "maximum_mutation_class";
    assert fs[3].key == "hard_zero_spend_eligible" && fs[4].key == "context_limit";
  }

  lemma ResourceFieldsDecode(fs: seq<Field>, r: ResourceSpec)
    requires Get(fs, "resource_id") == Some(Str(r.resourceId)) && Get(fs, "capabilities") == Some(Arr(NameItems(r.capabilities)))
    requires Get(fs, "maximum_mutation_class") == Some(Str(r.mutation)) && Get(fs, "hard_zero_spend_eligible") == Some(Bool(r.zeroSpend))
    requires Get(fs, "context_limit") == Some(OptionalInt(r.contextLimit))
    requires IsResource(r)
    ensures ResourceOf(fs) == Some(r)
  {
    hide BuildResource, NameItems, Names, Get;
    NamesOfItems(r.capabilities);
  }

  /** `_decode_resource` undoes `_resource_json`. */
  lemma ResourceRoundTrip(r: ResourceSpec)
    requires IsResource(r)
    ensures DecodeResource(ResourceText(r)) == Some(r)
  {
    hide IsResource, CanonicalJson, Loads, NameItems, Reread, Get, ResourceOf;
    var fs := ResourceDict(r).fields;
    ResourceDictFields(r);
    CanonicalReadsBack(fs);
    PlainKey(fs, "resource_id");
    PlainKey(fs, "capabilities");
    PlainKey(fs, "maximum_mutation_class");
    PlainKey(fs, "hard_zero_spend_eligible");
    PlainKey(fs, "context_limit");
    ResourceFieldsDecode(Reread(fs), r);
  }

  /** Two specifications that list the same capabilities in different orders are one
      object, so they have one text and one hash. */
  lemma PermutedTasksAgree(raw: TaskSpec, capabilities: seq<string>)
    requires multiset(capabilities) == multiset(raw.capabilities)
    ensures BuildTask(raw.(capabilities := capabilities)) == BuildTask(raw)
  {
    hide Strip, NormalizeCapabilities, ValidateDigest;
    PermutedCapabilities(capabilities, raw.capabilities);
  }

  // ------------------------------------------------------------------- hashing

  lemma SortOfSorted(fs: seq<Field>)
    requires DistinctKeys(fs)
    ensures Canonical.Sort(Canonical.Sort(fs)) == Canonical.Sort(fs)
  {
    var gs := Canonical.Sort(fs);
    Canonical.SortSorts(fs);
    Canonical.SortedDistinct(gs);
    Canonical.SortSorts(gs);
    Canonical.SortKeeps(gs);
    forall f ensures f in Canonical.Sort(gs) <==> f in gs {
      Canonical.SortMembers(gs, f);
    }
    Canonical.SortedUnique(Canonical.Sort(gs), gs);
  }

  /** Normal forms are normal. */
  lemma {:induction false} NormalTwice(j: Json)
    requires WellFormed(j)
    ensures Canonical.Normal(Canonical.Normal(j)) == Canonical.Normal(j)
    decreases j
  {
    match j
    case Arr(items) =>
      forall i | 0 <= i < |items| ensures Canonical.Normal(Canonical.Normal(items[i])) == Canonical.Normal(items[i]) {
        NormalTwice(items[i]);
      }
      assert Canonical.NormalItems(Canonical.NormalItems(items)) == Canonical.NormalItems(items);
    case Obj(fields) =>
      var nf := Canonical.NormalFields(fields);
      forall f | f in nf ensures Canonical.Normal(f.value) == f.value {
        var i :| 0 <= i < |nf| && nf[i] == f;
        NormalTwice(fields[i].value);
      }
      var gs := Canonical.Sort(nf);
      forall i | 0 <= i < |gs| ensures Canonical.Normal(gs[i].value) == gs[i].value {
        Canonical.SortMembers(nf, gs[i]);
      }
      assert Canonical.NormalFields(gs) == gs;
      SortOfSorted(nf);
    case _ =>
  }

  /** `_spec_hash(json.loads(raw))` is the hash of the stored text itself. */
  lemma HashOfText(sha: Hash, fields: seq<Field>)
    requires WellFormed(Obj(fields))
    ensures Loads(CanonicalJson(Obj(fields))).Some?
    ensures SpecHash(sha, Loads(CanonicalJson(Obj(fields))).value) == sha(CanonicalJson(Obj(fields)))
  {
    CanonicalReadsBack(fields);
    NormalTwice(Obj(fields));
  }
}