/** What is printed is a JSON text of the value in every style, so reading it gives the
    value back, whatever text follows. Printing is therefore injective. */
module JsonRoundTrip {
  import opened Json
  import opened JsonGrammar
  import opened JsonReader

  /** Text that cannot extend a number printed before it. */
  predicate Ends(rest: string) {
    rest == "" || (!IsDigit(rest[0]) && rest[0] != '.' && rest[0] != 'e' && rest[0] != 'E')
  }

  // ---------------------------------------------------------------- integers

  lemma {:induction false} DecimalReadsBack(n: nat)
    ensures Decimal(n) != ""
    ensures forall i :: 0 <= i < |Decimal(n)| ==> IsDigit(Decimal(n)[i])
    ensures DecimalValue(Decimal(n)) == n
    ensures Decimal(n)[0] == '0' <==> n == 0
    ensures n < 10 ==> |Decimal(n)| == 1
  {
    if n < 10 {
      assert Decimal(n)[..0] == "";
    } else {
      DecimalReadsBack(n / 10);
      assert Decimal(n)[..|Decimal(n)| - 1] == Decimal(n / 10);
    }
  }

  lemma DecimalIsGood(n: nat)
    ensures GoodDigits(Decimal(n)) && DecimalValue(Decimal(n)) == n
  {
    DecimalReadsBack(n);
    hide Decimal, DecimalValue;
  }

  lemma NumberOf(n: int) returns (t: Tree)
    ensures Good(t) && TreeText(t) == DecimalInt(n) && Meaning(t) == Int(n)
  {
    hide Decimal, DecimalValue, GoodDigits;
    var m := if n < 0 then -n else n;
    DecimalIsGood(m);
    t := Number(n < 0, Decimal(m), m);
  }

  // ----------------------------------------------------------------- strings

  lemma HexIs(n: nat)
    requires n < 0x10000
    ensures HexCode(Hex4(n), n)
  {
    assert n / 16 == 16 * (n / 16 / 16) + n / 16 % 16 && n / 16 / 16 == n / 256;
    assert n / 256 == 16 * (n / 256 / 16) + n / 256 % 16 && n / 256 / 16 == n / 4096;
    FourDigits(n / 4096, n / 256 % 16, n / 16 % 16, n % 16);
  }

  lemma FourDigits(a: nat, b: nat, c: nat, d: nat)
    requires a < 16 && b < 16 && c < 16 && d < 16
    ensures HexCode([HexDigit(a), HexDigit(b), HexDigit(c), HexDigit(d)], 4096 * a + 256 * b + 16 * c + d)
  {
    DigitIs(a);
    DigitIs(b);
    DigitIs(c);
    DigitIs(d);
    hide HexWorth, HexDigit;
    var s := [HexDigit(a), HexDigit(b), HexDigit(c), HexDigit(d)];
    assert HexWorth(s[0], a) && HexWorth(s[1], b) && HexWorth(s[2], c) && HexWorth(s[3], d);
  }

  lemma DigitIs(n: nat)
    requires n < 16
    ensures HexWorth(HexDigit(n), n)
  {
    if n < 10 {
      assert '0' <= HexDigit(n) <= '9' && (HexDigit(n) - '0') as int == n;
    } else {
      assert 'a' <= HexDigit(n) <= 'f' && (HexDigit(n) - 'a') as int == n - 10;
    }
  }

  lemma PieceOf(ascii: bool, c: char) returns (p: Piece)
    ensures GoodPiece(p) && p.c == c && PieceText(p) == Escape(ascii, c)
  {
    hide HexCode, Hex4;
    match ShortEscape(c)
    case Some(letter) => p := Short(letter, c);
    case None =>
      if c < ' ' || (ascii && c > '~') {
        p := UnitsOf(c);
      } else {
        p := Raw(c);
      }
  }

  lemma UnitsOf(c: char) returns (p: Piece)
    ensures GoodPiece(p) && p.c == c && PieceText(p) == Units(c)
  {
    hide HexCode, Hex4;
    if c as int < 0x10000 {
      HexIs(c as int);
      p := Coded(Hex4(c as int), c);
    } else {
      var n := c as int - 0x10000;
      var h, l := 0xd800 + n / 0x400, 0xdc00 + n % 0x400;
      HexIs(h);
      HexIs(l);
      p := Paired(Hex4(h), Hex4(l), c);
      assert Surrogates(p.hi, p.lo, c, h, l);
    }
  }

  lemma {:induction false} PiecesOf(ascii: bool, t: string) returns (ps: seq<Piece>)
    ensures GoodPieces(ps) && PiecesText(ps) == EscapeAll(ascii, t) && PiecesValue(ps) == t
  {
    hide GoodPiece, PieceText, Escape;
    ps := [];
    if t != "" {
      var p := PieceOf(ascii, t[0]);
      var tail := PiecesOf(ascii, t[1..]);
      ps := [p] + tail;
      assert ps[0] == p && ps[1..] == tail;
    }
  }

  // ------------------------------------------------------------------ values

  lemma {:induction false} ToDictKeeps(fs: seq<Field>)
    requires DistinctKeys(fs)
    ensures ToDict(fs) == fs
  {
    if fs != [] {
      var front := fs[..|fs| - 1];
      ToDictKeeps(front);
      PutAppends(front, fs[|fs| - 1]);
      assert front + [fs[|fs| - 1]] == fs;
    }
  }

  lemma {:induction false} PutAppends(fs: seq<Field>, f: Field)
    requires forall i :: 0 <= i < |fs| ==> fs[i].key != f.key
    ensures Put(fs, f) == fs + [f]
  {
    if fs != [] {
      PutAppends(fs[1..], f);
      assert [fs[0]] + fs[1..] == fs;
    }
  }

  /** What is printed is a JSON text of the value. */
  lemma {:induction false} TextOf(st: Style, j: Json) returns (t: Tree)
    requires WellFormed(j)
    ensures Good(t) && TreeText(t) == Print(st, j) && Meaning(t) == j
    decreases j, 1
  {
    hide PrintItems, PrintFields, EscapeAll, ItemsText, MembersText, ItemsValue, MembersValue, GoodItems, GoodMembers;
    hide PiecesText, PiecesValue, GoodPieces, ToDict;
    match j
    case Null => t := NullWord;
    case Bool(b) => t := if b then TrueWord else FalseWord;
    case Int(n) => t := NumberOf(n);
    case Str(s) =>
      var ps := PiecesOf(st.ascii, s);
      t := Quoted(ps);
    case Arr(items) =>
      if items == [] {
        t := EmptyList("");
        NothingPrinted(st);
      } else {
        var ts := ItemsOf(st, items, "");
        t := List(ts);
      }
    case Obj(fields) =>
      if fields == [] {
        t := EmptyDict("");
        NothingPrinted(st);
      } else {
        var ms := MembersOf(st, fields, "");
        t := Dict(ms);
        ToDictKeeps(fields);
      }
  }

  lemma NothingPrinted(st: Style)
    ensures PrintItems(st, []) == "" && PrintFields(st, []) == ""
  {
  }

  lemma {:induction false} ItemsOf(st: Style, items: seq<Json>, before: string) returns (ts: seq<Item>)
    requires IsBlank(before) && items != [] && forall i :: 0 <= i < |items| ==> WellFormed(items[i])
    ensures ts != [] && GoodItems(ts) && ItemsText(ts) == before + PrintItems(st, items) && ItemsValue(ts) == items
    decreases items, 0
  {
    hide WellFormed, Print, Good, TreeText, Meaning, ItemText, GoodItem, GoodItems, ItemsText, ItemsValue;
    var tree := TextOf(st, items[0]);
    var item := Item(before, tree, "");
    var tail := [];
    NoItems();
    if |items| > 1 {
      tail := ItemsOf(st, items[1..], if st.spaced then " " else "");
    }
    ts := [item] + tail;
    ItemsCons(item, tail);
    ItemMeans(item, "");
    assert ItemText(item) + "" == ItemText(item);
    assert items == [items[0]] + items[1..];
  }

  lemma {:induction false} MembersOf(st: Style, fields: seq<Field>, before: string) returns (ms: seq<Member>)
    requires IsBlank(before) && fields != [] && forall i :: 0 <= i < |fields| ==> WellFormed(fields[i].value)
    ensures ms != [] && GoodMembers(ms) && MembersText(ms) == before + PrintFields(st, fields) && MembersValue(ms) == fields
    decreases fields, 0
  {
    hide WellFormed, Print, PrintField, Good, TreeText, Meaning, MemberText, GoodMember, GoodMembers, MembersText, MembersValue, PiecesValue;
    var m := MemberOf(st, fields[0], before);
    var tail := [];
    NoItems();
    if |fields| > 1 {
      tail := MembersOf(st, fields[1..], if st.spaced then " " else "");
    }
    ms := [m] + tail;
    MembersCons(m, tail);
    assert fields == [fields[0]] + fields[1..];
  }

  lemma {:induction false} MemberOf(st: Style, f: Field, before: string) returns (m: Member)
    requires IsBlank(before) && WellFormed(f.value)
    ensures GoodMember(m) && MemberText(m) == before + PrintField(st, f) && Field(PiecesValue(m.key), Meaning(m.tree)) == f
    decreases f, 0
  {
    hide WellFormed, Print, Good, TreeText, Meaning, PiecesText, PiecesValue, GoodPieces, EscapeAll, IsBlank;
    var key := PiecesOf(st.ascii, f.key);
    var tree := TextOf(st, f.value);
    m := Member(before, key, "", if st.spaced then " " else "", tree, "");
    OneBlank();
    Named(before, PiecesText(key), m.space, TreeText(tree));
  }

  lemma OneBlank()
    ensures IsBlank("") && IsBlank(" ")
  {
  }

  lemma Named(before: string, name: string, space: string, value: string)
    ensures before + "\"" + name + "\"" + "" + ":" + space + value + "" == before + ("\"" + name + "\"" + (":" + space) + value)
  {
  }

  // -------------------------------------------------------------------- theorems

  /** The round trip: scanning printed text returns the value and stops exactly at
      the end of it. */
  lemma ReadsBack(st: Style, j: Json, rest: string)
    requires WellFormed(j) && Ends(rest)
    ensures Read(Print(st, j) + rest) == Got(j, rest)
  {
    hide Read, Print, TreeText, Meaning, Good, WellFormed;
    var t := TextOf(st, j);
    ReadComplete(t, rest);
  }

  /** `json.loads(json.dumps(j)) == j`, key order included. */
  lemma LoadsInvertsPrint(st: Style, j: Json)
    requires WellFormed(j)
    ensures Loads(Print(st, j)) == Some(j)
  {
    hide Loads, Print, TreeText, Meaning, Good, WellFormed;
    var t := TextOf(st, j);
    assert IsTextOf(Print(st, j), j, "", t, "");
    LoadsExact(Print(st, j), j);
  }

  /** Printed texts are equal only for equal values. */
  lemma PrintInjective(st: Style, j: Json, k: Json)
    requires WellFormed(j) && WellFormed(k)
    requires Print(st, j) == Print(st, k)
    ensures j == k
  {
    LoadsInvertsPrint(st, j);
    LoadsInvertsPrint(st, k);
  }
}
