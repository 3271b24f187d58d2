/** How MCP tool arguments travel as HTTP header values. */
module HeaderValue {
  import opened Json
  import opened Text
  import Utf8
  import Base64
  import RoundTrip = JsonRoundTrip

  const SENTINEL := "=?base64?"
  const CLOSE := "?="

  predicate EndsWith(s: string, end: string) {
    |end| <= |s| && s[|s| - |end|..] == end
  }

  /** `text.strip(" \t")` would change the text. */
  predicate HasOuterBlank(text: string) {
    text != "" && (text[0] == ' ' || text[0] == '\t' || text[|text| - 1] == ' ' || text[|text| - 1] == '\t')
  }

  predicate Printable(c: char) {
    ' ' <= c <= '~'
  }

  predicate Unsafe(text: string) {
    (SENTINEL <= text && EndsWith(text, CLOSE)) || HasOuterBlank(text) || exists i :: 0 <= i < |text| && !Printable(text[i])
  }

  predicate Scalar(j: Json) {
    j.Bool? || j.Int? || j.Str?
  }

  /** `str(value)` for the scalar types a header may be bound to. */
  function Render(value: Json): string
    requires Scalar(value)
  {
    match value
    case Bool(b) => if b then "true" else "false"
    case Int(n) => DecimalInt(n)
    case Str(s) => s
  }

  /** `_header_value`, on the rendered text. */
  function HeaderText(text: string): string {
    if Unsafe(text) then SENTINEL + Base64.Encode(Utf8.Encode(text)) + CLOSE else text
  }

  /** The receiver's side: the sentinel form is decoded, anything else is raw. */
  function ReadHeader(header: string): Option<string> {
    if SENTINEL <= header && EndsWith(header, CLOSE) && |header| >= |SENTINEL| + |CLOSE| then
      match Base64.Decode(header[|SENTINEL|..|header| - |CLOSE|])
      case None => None
      case Some(bytes) => Utf8.Decode(bytes)
    else Some(header)
  }

  lemma Wrapped(body: string)
    ensures var h := SENTINEL + body + CLOSE;
            && SENTINEL <= h && EndsWith(h, CLOSE) && |h| == |SENTINEL| + |body| + |CLOSE|
            && h[|SENTINEL|..|h| - |CLOSE|] == body
  {
  }

  /** The sentinel-or-raw choice is unambiguous: every text is read back. */
  lemma ReadInvertsHeader(text: string)
    ensures ReadHeader(HeaderText(text)) == Some(text)
  {
    if Unsafe(text) {
      Wrapped(Base64.Encode(Utf8.Encode(text)));
      Base64.DecodeInvertsEncode(Utf8.Encode(text));
      Utf8.DecodeInvertsEncode(text);
    }
  }

  lemma HeaderInjective(a: string, b: string)
    requires HeaderText(a) == HeaderText(b)
    ensures a == b
  {
    ReadInvertsHeader(a);
    ReadInvertsHeader(b);
  }

  /** Whatever the argument, the header is printable ASCII without outer blanks. */
  lemma HeaderIsSafe(text: string)
    ensures var h := HeaderText(text);
            && (forall i :: 0 <= i < |h| ==> Printable(h[i]))
            && !HasOuterBlank(h)
  {
    if Unsafe(text) {
      Base64.EncodesToSymbols(Utf8.Encode(text));
      hide Unsafe, Base64.Encode, Utf8.Encode;
      WrappedIsSafe(Base64.Encode(Utf8.Encode(text)));
    }
  }

  lemma WrappedIsSafe(body: string)
    requires forall i :: 0 <= i < |body| ==> Base64.IsSymbol(body[i]) || body[i] == '='
    ensures var h := SENTINEL + body + CLOSE;
            (forall i :: 0 <= i < |h| ==> Printable(h[i])) && !HasOuterBlank(h)
  {
    var h := SENTINEL + body + CLOSE;
    forall i | 0 <= i < |h| ensures Printable(h[i]) {
      if |SENTINEL| <= i < |SENTINEL| + |body| {
        assert h[i] == body[i - |SENTINEL|];
      }
    }
  }

  /** A text that may travel as it is: printable ASCII, no blank at either end, and not
      shaped like an encoded one. */
  ghost predicate Plain(text: string) {
    && (forall i :: 0 <= i < |text| ==> 32 <= text[i] as int <= 126)
    && (|text| > 0 ==> text[0] != ' ' && text[|text| - 1] != ' ')
    && !(|text| >= 9 && text[..9] == "=?base64?" && text[|text| - 2..] == "?=")
  }

  /** A plain text travels raw; any other as the base64 of its UTF-8 bytes between the two
      marks. */
  lemma HeaderExact(text: string)
    ensures Plain(text) ==> HeaderText(text) == text
    ensures !Plain(text) ==> HeaderText(text) == "=?base64?" + Base64.Encode(Utf8.Encode(text)) + "?="
  {
    assert |SENTINEL| == 9 && |CLOSE| == 2;
    hide Base64.Encode, Utf8.Encode;
    assert Unsafe(text) <==> !Plain(text);
  }

  /** Booleans are spelled small, strings are sent as they are, and integers in the decimal
      form that reads back. */
  lemma RenderExact(value: Json)
    requires Scalar(value)
    ensures value == Bool(true) ==> Render(value) == "true"
    ensures value == Bool(false) ==> Render(value) == "false"
    ensures value.Str? ==> Render(value) == value.s
    ensures value.Int? ==> Loads(Render(value)) == Some(value)
  {
    if value.Int? {
      RoundTrip.LoadsInvertsPrint(COMPACT, value);
    }
  }

  // ------------------------------------------------------------------ bindings

  datatype Binding = Binding(argument: string, header: string)

  datatype Bindings = Bound(bindings: seq<Binding>) | Rejected | TypeError

  predicate ValidHeaderName(value: Json) {
    value.Str? && value.s != "" && forall i :: 0 <= i < |value.s| ==> '!' <= value.s[i] <= '~' && value.s[i] != ':'
  }

  const HEADER_KEY := "x-mcp-header"

  function Lookup(fields: seq<Field>, key: string): Option<Json> {
    if fields == [] then None
    else if fields[0].key == key then Some(fields[0].value)
    else Lookup(fields[1..], key)
  }

  /** The property asks for a header. */
  predicate Declared(p: Field) {
    p.value.Obj? && Lookup(p.value.fields, HEADER_KEY).Some?
  }

  function HeaderOf(p: Field): Json
    requires Declared(p)
  {
    Lookup(p.value.fields, HEADER_KEY).value
  }

  /** The declared type is one of the four scalar names. */
  predicate ScalarType(p: Field)
    requires Declared(p)
  {
    Lookup(p.value.fields, "type") in
      {Some(Str("string")), Some(Str("integer")), Some(Str("number")), Some(Str("boolean"))}
  }

  /** A list or dict is not hashable, so the membership test raises. */
  predicate UnhashableType(p: Field)
    requires Declared(p)
  {
    var t := Lookup(p.value.fields, "type");
    t.Some? && (t.value.Arr? || t.value.Obj?)
  }

  // ------------------------------------------- what a usable schema is, stated outright

  /** The property asks for a header, by this value. */
  ghost predicate Asks(p: Field) {
    p.value.Obj? && Lookup(p.value.fields, "x-mcp-header").Some?
  }

  ghost function Asked(p: Field): Json
    requires Asks(p)
  {
    Lookup(p.value.fields, "x-mcp-header").value
  }

  /** Visible ASCII without a colon, and not empty. */
  ghost predicate GoodName(value: Json) {
    value.Str? && |value.s| > 0 && forall i :: 0 <= i < |value.s| ==> 33 <= value.s[i] as int <= 126 && value.s[i] as int != 58
  }

  ghost predicate GoodType(p: Field) {
    p.value.Obj? &&
    match Lookup(p.value.fields, "type")
    case Some(Str(t)) => t == "string" || t == "integer" || t == "number" || t == "boolean"
    case _ => false
  }

  ghost predicate ListType(p: Field) {
    p.value.Obj? &&
    match Lookup(p.value.fields, "type")
    case Some(t) => t.Arr? || t.Obj?
    case None => false
  }

  lemma Spelled(p: Field)
    ensures Declared(p) <==> Asks(p)
    ensures Declared(p) ==>
              && HeaderOf(p) == Asked(p) && (ValidHeaderName(HeaderOf(p)) <==> GoodName(Asked(p)))
              && (ScalarType(p) <==> GoodType(p)) && (UnhashableType(p) <==> ListType(p))
  {
    hide Lookup;
  }

  /** The name is valid and no earlier property asks for it, in any letter case. */
  ghost predicate NameAccepted(ps: seq<Field>, i: nat)
    requires i < |ps| && Asks(ps[i])
  {
    && GoodName(Asked(ps[i]))
    && forall j :: 0 <= j < i && Asks(ps[j]) && Asked(ps[j]).Str? ==> Lower(Asked(ps[j]).s) != Lower(Asked(ps[i]).s)
  }

  ghost predicate Accepted(ps: seq<Field>, i: nat)
    requires i < |ps|
  {
    Asks(ps[i]) ==> NameAccepted(ps, i) && GoodType(ps[i])
  }

  /** The membership test raises here, everything before being accepted. */
  ghost predicate RaisesAt(ps: seq<Field>, i: int) {
    && 0 <= i < |ps| && (forall j :: 0 <= j < i ==> Accepted(ps, j))
    && Asks(ps[i]) && NameAccepted(ps, i) && ListType(ps[i])
  }

  lemma RaisesOnlyAtFailure(ps: seq<Field>, i: nat, k: int)
    requires i < |ps| && !Accepted(ps, i) && RaisesAt(ps, k) && forall j :: 0 <= j < i ==> Accepted(ps, j)
    ensures k == i
  {
    assert k < i ==> Accepted(ps, k);
  }

  lemma AcceptedNeverRaises(ps: seq<Field>)
    requires forall i :: 0 <= i < |ps| ==> Accepted(ps, i)
    ensures !exists i :: RaisesAt(ps, i)
  {
    assert forall i :: RaisesAt(ps, i) ==> Accepted(ps, i);
  }

  ghost function BindingsOf(ps: seq<Field>): seq<Binding> {
    if ps == [] then []
    else
      var p := ps[|ps| - 1];
      BindingsOf(ps[..|ps| - 1]) +
      (if Asks(p) && Asked(p).Str? then [Binding(p.key, Asked(p).s)] else [])
  }

  /** `_header_bindings`: collect the declared headers in order, refusing the schema at
      the first unusable one. */
  method HeaderBindings(schema: seq<Field>) returns (r: Bindings)
    ensures var properties := Lookup(schema, "properties");
            if properties.Some? && properties.value.Obj? then
              var ps := properties.value.fields;
              && (r.Bound? <==> forall i :: 0 <= i < |ps| ==> Accepted(ps, i))
              && (r.Bound? ==> r.bindings == BindingsOf(ps))
              && (r.TypeError? <==> exists i :: RaisesAt(ps, i))
            else r == Bound([])
  {
    hide Lookup, Asks, Asked, GoodName, GoodType, ListType, Declared, HeaderOf, ValidHeaderName, ScalarType, UnhashableType, Lower;
    var properties := Lookup(schema, "properties");
    if properties.None? || !properties.value.Obj? { return Bound([]); }
    var ps := properties.value.fields;
    var bindings: seq<Binding> := [];
    var seen: set<string> := {};
    var i := 0;
    while i < |ps|
      invariant 0 <= i <= |ps|
      invariant bindings == BindingsOf(ps[..i])
      invariant forall j :: 0 <= j < i ==> Accepted(ps, j)
      invariant seen == set j | 0 <= j < i && Asks(ps[j]) && Asked(ps[j]).Str? :: Lower(Asked(ps[j]).s)
    {
      var p := ps[i];
      Spelled(p);
      assert ps[..i + 1][..i] == ps[..i];
      if Declared(p) {
        var header := HeaderOf(p);
        GoodNameIsText(header);
        var normalized := if header.Str? then Lower(header.s) else "";
        assert NameAccepted(ps, i) <==> ValidHeaderName(header) && normalized !in seen;
        if !ValidHeaderName(header) || normalized in seen {
          assert !Accepted(ps, i);
          forall k | RaisesAt(ps, k) ensures k == i { RaisesOnlyAtFailure(ps, i, k); }
          return Rejected;
        }
        if UnhashableType(p) {
          ListIsNoScalar(p);
          assert RaisesAt(ps, i) && !Accepted(ps, i);
          return TypeError;
        }
        if !ScalarType(p) {
          assert !Accepted(ps, i);
          forall k | RaisesAt(ps, k) ensures k == i { RaisesOnlyAtFailure(ps, i, k); }
          return Rejected;
        }
        seen := seen + {normalized};
        bindings := bindings + [Binding(p.key, header.s)];
      }
      i := i + 1;
    }
    assert ps[..|ps|] == ps;
    AcceptedNeverRaises(ps);
    return Bound(bindings);
  }

  lemma GoodNameIsText(header: Json)
    ensures GoodName(header) ==> header.Str?
  {
  }

  lemma ListIsNoScalar(p: Field)
    ensures ListType(p) ==> !GoodType(p)
  {
  }

  ghost predicate CaseDistinct(bs: seq<Binding>) {
    forall i, j :: 0 <= i < j < |bs| ==> Lower(bs[i].header) != Lower(bs[j].header)
  }

  lemma {:induction false} BindingsHaveSources(ps: seq<Field>, b: Binding)
    requires b in BindingsOf(ps)
    ensures exists i :: 0 <= i < |ps| && Asks(ps[i]) && Asked(ps[i]) == Str(b.header) && ps[i].key == b.argument
  {
    hide Asks, Asked;
    var p := ps[|ps| - 1];
    if !(Asks(p) && Asked(p) == Str(b.header) && p.key == b.argument) {
      BindingsHaveSources(ps[..|ps| - 1], b);
      var i :| 0 <= i < |ps| - 1 && Asks(ps[..|ps| - 1][i]) && Asked(ps[..|ps| - 1][i]) == Str(b.header) && ps[..|ps| - 1][i].key == b.argument;
      assert ps[i] == ps[..|ps| - 1][i];
    }
  }

  /** Accepted schemas bind header names that differ without regard to case. */
  lemma {:induction false} BindingsDistinct(ps: seq<Field>)
    requires forall i :: 0 <= i < |ps| ==> Accepted(ps, i)
    ensures CaseDistinct(BindingsOf(ps))
  {
    if ps != [] {
      var front := ps[..|ps| - 1];
      forall i | 0 <= i < |front| ensures Accepted(front, i) {
        assert Accepted(ps, i);
      }
      BindingsDistinct(front);
      var p := ps[|ps| - 1];
      if Asks(p) && Asked(p).Str? {
        assert Accepted(ps, |ps| - 1);
        forall i | 0 <= i < |BindingsOf(front)| ensures Lower(BindingsOf(front)[i].header) != Lower(Asked(p).s) {
          BindingsHaveSources(front, BindingsOf(front)[i]);
        }
      }
    }
  }

  // ------------------------------------------------------------------- sending

  const PREFIX := "Mcp-Param-"

  predicate Present(b: Binding, args: seq<Field>) {
    Lookup(args, b.argument).Some? && !Lookup(args, b.argument).value.Null?
  }

  /** The argument is there and is not null. */
  ghost predicate Supplied(b: Binding, args: seq<Field>) {
    match Lookup(args, b.argument)
    case None => false
    case Some(value) => value != Null
  }

  /** `_custom_headers`: exactly one header for each bound argument that is present and
      not null, carrying that argument's value, and no two header names alike. */
  method CustomHeaders(bindings: seq<Binding>, args: seq<Field>) returns (headers: map<string, string>)
    requires CaseDistinct(bindings)
    requires forall b :: b in bindings && Supplied(b, args) ==> Scalar(Lookup(args, b.argument).value)
    ensures forall b :: b in bindings && Supplied(b, args) ==>
              "Mcp-Param-" + b.header in headers && headers["Mcp-Param-" + b.header] == HeaderText(Render(Lookup(args, b.argument).value))
    ensures forall name :: name in headers ==> exists b :: b in bindings && Supplied(b, args) && name == "Mcp-Param-" + b.header
    ensures forall m, n :: m in headers && n in headers && m != n ==> Lower(m) != Lower(n)
  {
    hide HeaderText, Render, Lower;
    headers := map[];
    var i := 0;
    while i < |bindings|
      invariant 0 <= i <= |bindings|
      invariant forall k :: 0 <= k < i && Present(bindings[k], args) ==>
        PREFIX + bindings[k].header in headers &&
        headers[PREFIX + bindings[k].header] == HeaderText(Render(Lookup(args, bindings[k].argument).value))
      invariant forall name :: name in headers ==>
        exists k :: 0 <= k < i && Present(bindings[k], args) && name == PREFIX + bindings[k].header
    {
      var b := bindings[i];
      if Present(b, args) {
        forall k | 0 <= k < i && Present(bindings[k], args) ensures PREFIX + bindings[k].header != PREFIX + b.header {
          PrefixInjective(bindings[k].header, b.header);
        }
        headers := headers[PREFIX + b.header := HeaderText(Render(Lookup(args, b.argument).value))];
      }
      i := i + 1;
    }
    forall m, n | m in headers && n in headers && m != n ensures Lower(m) != Lower(n) {
      var j :| 0 <= j < |bindings| && m == PREFIX + bindings[j].header;
      var k :| 0 <= k < |bindings| && n == PREFIX + bindings[k].header;
      PrefixedLower(bindings[j].header, bindings[k].header);
    }
  }

  lemma PrefixInjective(a: string, b: string)
    ensures PREFIX + a == PREFIX + b ==> a == b
  {
    assert (PREFIX + a)[|PREFIX|..] == a;
    assert (PREFIX + b)[|PREFIX|..] == b;
  }

  lemma PrefixedLower(a: string, b: string)
    ensures Lower(PREFIX + a) == Lower(PREFIX + b) ==> Lower(a) == Lower(b)
  {
    assert Lower(PREFIX + a)[|PREFIX|..] == Lower(a);
    assert Lower(PREFIX + b)[|PREFIX|..] == Lower(b);
  }
}
