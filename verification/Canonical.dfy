/** Canonical JSON text: `json.dumps(value, sort_keys=True, separators=(",", ":"))`.

    The text forgets the order of object keys and nothing else, so two values have
    the same canonical text exactly when they are equal as Python dicts are. */
module Canonical {
  import opened Json
  import RoundTrip = JsonRoundTrip

  // ------------------------------------------------------------- key ordering

  /** Python's order on strings: by code point, a prefix first. */
  predicate Before(a: string, b: string) {
    if b == "" then false
    else if a == "" then true
    else if a[0] != b[0] then a[0] < b[0]
    else Before(a[1..], b[1..])
  }

  lemma {:induction false} BeforeTotal(a: string, b: string)
    ensures a == b || Before(a, b) || Before(b, a)
  {
    if a != "" && b != "" && a[0] == b[0] {
      BeforeTotal(a[1..], b[1..]);
      assert a == [a[0]] + a[1..] && b == [b[0]] + b[1..];
    }
  }

  lemma {:induction false} BeforeStrict(a: string, b: string)
    ensures !(Before(a, b) && Before(b, a))
    ensures !Before(a, a)
  {
    if a != "" {
      BeforeStrict(a[1..], a[1..]);
      if b != "" {
        BeforeStrict(a[1..], b[1..]);
      }
    }
  }

  lemma {:induction false} BeforeTransitive(a: string, b: string, c: string)
    requires Before(a, b) && Before(b, c)
    ensures Before(a, c)
  {
    if a != "" && a[0] == b[0] == c[0] {
      BeforeTransitive(a[1..], b[1..], c[1..]);
    }
  }

  ghost predicate Sorted(fs: seq<Field>) {
    forall i, j :: 0 <= i < j < |fs| ==> Before(fs[i].key, fs[j].key)
  }

  function Insert(f: Field, fs: seq<Field>): seq<Field> {
    if fs == [] || Before(f.key, fs[0].key) then [f] + fs else [fs[0]] + Insert(f, fs[1..])
  }

  function Sort(fs: seq<Field>): seq<Field> {
    if fs == [] then [] else Insert(fs[0], Sort(fs[1..]))
  }

  /** Keys sorted at every level. */
  function Normal(j: Json): Json
    decreases j, 1
  {
    match j
    case Arr(items) => Arr(NormalItems(items))
    case Obj(fields) => Obj(Sort(NormalFields(fields)))
    case _ => j
  }

  function NormalItems(items: seq<Json>): (r: seq<Json>)
    ensures |r| == |items|
    ensures forall i :: 0 <= i < |items| ==> r[i] == Normal(items[i])
    decreases items, 0
  {
    if items == [] then [] else [Normal(items[0])] + NormalItems(items[1..])
  }

  function NormalFields(fields: seq<Field>): (r: seq<Field>)
    ensures |r| == |fields|
    ensures forall i :: 0 <= i < |fields| ==> r[i] == Field(fields[i].key, Normal(fields[i].value))
    decreases fields, 0
  {
    if fields == [] then [] else [Field(fields[0].key, Normal(fields[0].value))] + NormalFields(fields[1..])
  }

  /** The text that `plan_digest` and `_canonical_digest` hash. */
  function Text(j: Json): string {
    Print(COMPACT, Normal(j))
  }

  /** Equality of Python values: dicts are compared without regard to order. */
  ghost predicate Same(j: Json, k: Json)
    decreases j, 1
  {
    match (j, k)
    case (Arr(a), Arr(b)) => |a| == |b| && forall i :: 0 <= i < |a| ==> Same(a[i], b[i])
    case (Obj(f), Obj(g)) =>
      |f| == |g| && forall i :: 0 <= i < |f| ==> exists k :: 0 <= k < |g| && g[k].key == f[i].key && Same(f[i].value, g[k].value)
    case _ => j == k
  }

  lemma SameField(f: seq<Field>, g: seq<Field>, i: nat) returns (m: nat)
    requires Same(Obj(f), Obj(g)) && i < |f|
    ensures |f| == |g|
    ensures m < |g| && g[m].key == f[i].key && Same(f[i].value, g[m].value)
  {
    m :| 0 <= m < |g| && g[m].key == f[i].key && Same(f[i].value, g[m].value);
  }

  lemma SameItems(a: seq<Json>, b: seq<Json>)
    requires Same(Arr(a), Arr(b))
    ensures |a| == |b| && forall i :: 0 <= i < |a| ==> Same(a[i], b[i])
  {
  }

  // ------------------------------------------------------------ sorting facts

  lemma {:induction false} InsertKeeps(f: Field, fs: seq<Field>)
    ensures |Insert(f, fs)| == |fs| + 1
    ensures multiset(Insert(f, fs)) == multiset{f} + multiset(fs)
  {
    if fs == [] || Before(f.key, fs[0].key) {
    } else {
      InsertKeeps(f, fs[1..]);
      assert fs == [fs[0]] + fs[1..];
    }
  }

  lemma {:induction false} SortKeeps(fs: seq<Field>)
    ensures |Sort(fs)| == |fs|
    ensures multiset(Sort(fs)) == multiset(fs)
  {
    if fs != [] {
      SortKeeps(fs[1..]);
      InsertKeeps(fs[0], Sort(fs[1..]));
      assert fs == [fs[0]] + fs[1..];
    }
  }

  lemma SortMembers(fs: seq<Field>, f: Field)
    ensures f in Sort(fs) <==> f in fs
  {
    SortKeeps(fs);
    assert f in Sort(fs) <==> f in multiset(Sort(fs));
    assert f in fs <==> f in multiset(fs);
  }

  lemma {:induction false} InsertSorts(f: Field, fs: seq<Field>)
    requires Sorted(fs)
    requires forall g :: g in fs ==> g.key != f.key
    ensures Sorted(Insert(f, fs))
  {
    if fs == [] {
    } else if Before(f.key, fs[0].key) {
      forall j | 0 <= j < |fs| ensures Before(f.key, fs[j].key) {
        if j > 0 {
          BeforeTransitive(f.key, fs[0].key, fs[j].key);
        }
      }
    } else {
      var tail := Insert(f, fs[1..]);
      InsertSorts(f, fs[1..]);
      InsertKeeps(f, fs[1..]);
      forall j | 0 <= j < |tail| ensures Before(fs[0].key, tail[j].key) {
        assert tail[j] in multiset(tail);
        assert fs[0] in fs;
        BeforeTotal(f.key, fs[0].key);
        if tail[j] != f {
          var k :| 0 <= k < |fs[1..]| && fs[1..][k] == tail[j];
          assert fs[k + 1] == tail[j];
        }
      }
    }
  }

  lemma {:induction false} SortSorts(fs: seq<Field>)
    requires DistinctKeys(fs)
    ensures Sorted(Sort(fs))
  {
    if fs != [] {
      SortSorts(fs[1..]);
      forall g | g in Sort(fs[1..]) ensures g.key != fs[0].key {
        SortMembers(fs[1..], g);
      }
      InsertSorts(fs[0], Sort(fs[1..]));
    }
  }

  lemma SortedDistinct(fs: seq<Field>)
    requires Sorted(fs)
    ensures DistinctKeys(fs)
  {
    forall i, j | 0 <= i < j < |fs| ensures fs[i].key != fs[j].key {
      BeforeStrict(fs[i].key, fs[j].key);
    }
  }

  /** A sorted sequence is determined by its members. */
  lemma {:induction false} SortedUnique(fs: seq<Field>, gs: seq<Field>)
    requires Sorted(fs) && Sorted(gs) && |fs| == |gs|
    requires forall f :: f in fs <==> f in gs
    ensures fs == gs
  {
    if fs != [] {
      assert fs[0] in gs && gs[0] in fs;
      BeforeStrict(fs[0].key, gs[0].key);
      assert fs[0] == gs[0];
      SortedDistinct(fs);
      SortedDistinct(gs);
      TailMembers(fs);
      TailMembers(gs);
      SortedUnique(fs[1..], gs[1..]);
      assert fs == [fs[0]] + fs[1..] && gs == [gs[0]] + gs[1..];
    }
  }

  lemma TailMembers(fs: seq<Field>)
    requires fs != [] && DistinctKeys(fs)
    ensures forall f :: f in fs[1..] <==> f in fs && f != fs[0]
  {
    forall f | f in fs && f != fs[0] ensures f in fs[1..] {
      var i :| 0 <= i < |fs| && fs[i] == f;
      assert fs[1..][i - 1] == f;
    }
  }

  function Keys(fs: seq<Field>): set<string> {
    set f | f in fs :: f.key
  }

  lemma {:induction false} KeysCount(fs: seq<Field>)
    requires DistinctKeys(fs)
    ensures |Keys(fs)| == |fs|
  {
    if fs != [] {
      KeysCount(fs[1..]);
      TailMembers(fs);
      assert fs[0].key !in Keys(fs[1..]);
      assert Keys(fs) == Keys(fs[1..]) + {fs[0].key};
    }
  }

  lemma SubsetOfSameSize<T>(a: set<T>, b: set<T>)
    requires a <= b && |a| == |b|
    ensures a == b
  {
    assert |b - a| == |b| - |a|;
  }

  // ------------------------------------------------------------ main theorems

  lemma {:induction false} NormalWellFormed(j: Json)
    requires WellFormed(j)
    ensures WellFormed(Normal(j))
    decreases j
  {
    match j
    case Arr(items) =>
      forall i | 0 <= i < |items| ensures WellFormed(Normal(items[i])) {
        NormalWellFormed(items[i]);
      }
    case Obj(fields) =>
      var nf := NormalFields(fields);
      SortSorts(nf);
      SortedDistinct(Sort(nf));
      forall i | 0 <= i < |Sort(nf)| ensures WellFormed(Sort(nf)[i].value) {
        SortMembers(nf, Sort(nf)[i]);
        var k :| 0 <= k < |nf| && nf[k] == Sort(nf)[i];
        NormalWellFormed(fields[k].value);
      }
      SortKeeps(nf);
    case _ =>
  }

  /** Dict-equal values have the same normal form, however their keys were ordered. */
  lemma {:induction false} SameHasOneNormalForm(j: Json, k: Json)
    requires WellFormed(j) && WellFormed(k) && Same(j, k)
    ensures Normal(j) == Normal(k)
    decreases j
  {
    match (j, k)
    case (Arr(a), Arr(b)) =>
      forall i | 0 <= i < |a| ensures Normal(a[i]) == Normal(b[i]) {
        SameHasOneNormalForm(a[i], b[i]);
      }
      assert NormalItems(a) == NormalItems(b);
    case (Obj(f), Obj(g)) =>
      var nf, ng := NormalFields(f), NormalFields(g);
      forall i | 0 <= i < |f| ensures nf[i] in ng {
        var m :| 0 <= m < |g| && g[m].key == f[i].key && Same(f[i].value, g[m].value);
        SameHasOneNormalForm(f[i].value, g[m].value);
        assert ng[m] == nf[i];
      }
      SameMembers(nf, ng);
    case _ =>
  }

  /** Sorting two dicts' fields gives one sequence when each field of the first is in
      the second and they are equally many. */
  lemma SameMembers(fs: seq<Field>, gs: seq<Field>)
    requires DistinctKeys(fs) && DistinctKeys(gs) && |fs| == |gs|
    requires forall i :: 0 <= i < |fs| ==> fs[i] in gs
    ensures Sort(fs) == Sort(gs)
  {
    KeysCount(fs);
    KeysCount(gs);
    assert Keys(fs) <= Keys(gs);
    SubsetOfSameSize(Keys(fs), Keys(gs));
    forall f ensures f in Sort(fs) <==> f in Sort(gs) {
      SortMembers(fs, f);
      SortMembers(gs, f);
      if f in gs {
        assert f.key in Keys(fs);
        var h :| h in fs && h.key == f.key;
        assert h in gs;
        OneFieldPerKey(gs, f, h);
      }
    }
    SortKeeps(fs);
    SortKeeps(gs);
    SortSorts(fs);
    SortSorts(gs);
    SortedUnique(Sort(fs), Sort(gs));
  }

  lemma OneFieldPerKey(fs: seq<Field>, f: Field, g: Field)
    requires DistinctKeys(fs) && f in fs && g in fs && f.key == g.key
    ensures f == g
  {
    var i :| 0 <= i < |fs| && fs[i] == f;
    var k :| 0 <= k < |fs| && fs[k] == g;
    assert i == k;
  }

  lemma SortedTogether(fs: seq<Field>, gs: seq<Field>, i: nat) returns (m: nat)
    requires Sort(fs) == Sort(gs) && i < |fs|
    ensures m < |gs| && gs[m] == fs[i]
  {
    SortMembers(fs, fs[i]);
    SortMembers(gs, fs[i]);
    m :| 0 <= m < |gs| && gs[m] == fs[i];
  }

  lemma {:induction false} NormalFormIsFaithful(j: Json, k: Json)
    requires WellFormed(j) && WellFormed(k) && Normal(j) == Normal(k)
    ensures Same(j, k)
    decreases j, 1
  {
    match (j, k)
    case (Arr(a), Arr(b)) =>
      assert |NormalItems(a)| == |NormalItems(b)|;
      forall i | 0 <= i < |a| ensures Same(a[i], b[i]) {
        assert NormalItems(a)[i] == NormalItems(b)[i];
        NormalFormIsFaithful(a[i], b[i]);
      }
    case (Obj(f), Obj(g)) => NormalFieldsAreFaithful(f, g);
    case _ =>
  }

  lemma {:induction false} NormalFieldsAreFaithful(f: seq<Field>, g: seq<Field>)
    requires forall i :: 0 <= i < |f| ==> WellFormed(f[i].value)
    requires forall i :: 0 <= i < |g| ==> WellFormed(g[i].value)
    requires Sort(NormalFields(f)) == Sort(NormalFields(g))
    ensures Same(Obj(f), Obj(g))
    decreases f, 0
  {
    var nf, ng := NormalFields(f), NormalFields(g);
    SortKeeps(nf);
    SortKeeps(ng);
    forall i | 0 <= i < |f|
      ensures exists m :: 0 <= m < |g| && g[m].key == f[i].key && Same(f[i].value, g[m].value)
    {
      var m := SortedTogether(nf, ng, i);
      assert ng[m] == Field(g[m].key, Normal(g[m].value));
      NormalFormIsFaithful(f[i].value, g[m].value);
    }
  }

  /** The canonical text identifies a value: two values have the same text if and only
      if they are equal as Python compares them, key order aside. */
  lemma TextIdentifies(j: Json, k: Json)
    requires WellFormed(j) && WellFormed(k)
    ensures Text(j) == Text(k) <==> Same(j, k)
  {
    NormalWellFormed(j);
    NormalWellFormed(k);
    if Text(j) == Text(k) {
      RoundTrip.PrintInjective(COMPACT, Normal(j), Normal(k));
      NormalFormIsFaithful(j, k);
    }
    if Same(j, k) {
      SameHasOneNormalForm(j, k);
    }
  }

  // --------------------------------------------------------- what the order is

  /** Where the strings first differ, or one ends, the smaller code point or the end comes
      first. */
  ghost predicate FirstDifference(a: string, b: string, k: nat) {
    && k <= |a| && k < |b| && a[..k] == b[..k] && (k == |a| || a[k] < b[k])
  }

  lemma BeforeMeans(a: string, b: string)
    ensures Before(a, b) <==> exists k :: FirstDifference(a, b, k)
  {
    if Before(a, b) {
      var k := BeforeDiffers(a, b);
    }
    forall k | FirstDifference(a, b, k) ensures Before(a, b) {
      DifferenceOrders(a, b, k);
    }
  }

  lemma {:induction false} BeforeDiffers(a: string, b: string) returns (k: nat)
    requires Before(a, b)
    ensures FirstDifference(a, b, k)
  {
    if a == "" || a[0] != b[0] {
      k := 0;
    } else {
      var rest := BeforeDiffers(a[1..], b[1..]);
      k := rest + 1;
      assert a[..k] == [a[0]] + a[1..][..rest] && b[..k] == [b[0]] + b[1..][..rest];
    }
  }

  lemma {:induction false} DifferenceOrders(a: string, b: string, k: nat)
    requires FirstDifference(a, b, k)
    ensures Before(a, b)
  {
    if k > 0 {
      assert a[0] == a[..k][0] && b[0] == b[..k][0];
      assert a[1..][..k - 1] == a[..k][1..] && b[1..][..k - 1] == b[..k][1..];
      DifferenceOrders(a[1..], b[1..], k - 1);
    }
  }

  /** Keys in code-point order at every level. */
  ghost predicate DeepSorted(j: Json)
    decreases j
  {
    match j
    case Arr(items) => forall i :: 0 <= i < |items| ==> DeepSorted(items[i])
    case Obj(fields) => Sorted(fields) && forall i :: 0 <= i < |fields| ==> DeepSorted(fields[i].value)
    case _ => true
  }

  /** The canonical text is that of an equal value whose keys are in order at every level. */
  lemma {:induction false} NormalIsSorted(j: Json)
    requires WellFormed(j)
    ensures DeepSorted(Normal(j))
    decreases j
  {
    match j
    case Arr(items) =>
      forall i | 0 <= i < |items| ensures DeepSorted(Normal(items[i])) {
        NormalIsSorted(items[i]);
      }
    case Obj(fields) =>
      var nf := NormalFields(fields);
      SortSorts(nf);
      forall i | 0 <= i < |Sort(nf)| ensures DeepSorted(Sort(nf)[i].value) {
        SortMembers(nf, Sort(nf)[i]);
        var k :| 0 <= k < |nf| && nf[k] == Sort(nf)[i];
        NormalIsSorted(fields[k].value);
      }
    case _ =>
  }
}
