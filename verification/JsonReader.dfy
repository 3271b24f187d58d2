/** The texts `json.loads` accepts are those of the JSON grammar, and it reads each as the
    value it stands for. */
module JsonReader {
  import opened Json
  import opened JsonGrammar

  // ------------------------------------------------------------ blanks and numbers

  /** The first character in front of the rest, which is cut in two. */
  lemma Fronted(s: string, a: string, b: string)
    requires s != "" && s[1..] == a + b
    ensures s == [s[0]] + a + b && s == [s[0]] + (a + b)
  {
  }

  lemma BlankFronted(c: char, b: string)
    ensures IsBlank([c] + b) <==> Space(c) && IsBlank(b)
  {
    assert ([c] + b)[1..] == b;
  }

  lemma SkipStep(s: string)
    ensures SkipSpace(s) == if s != "" && Space(s[0]) then SkipSpace(s[1..]) else s
  {
  }

  lemma {:induction false} BlankBefore(s: string) returns (b: string)
    ensures IsBlank(b) && s == b + SkipSpace(s)
    ensures var r := SkipSpace(s); r == "" || !Space(r[0])
  {
    b := "";
    SkipStep(s);
    hide SkipSpace;
    if s != "" && Space(s[0]) {
      b := BlankBefore(s[1..]);
      BlankFronted(s[0], b);
      Fronted(s, b, SkipSpace(s[1..]));
      b := [s[0]] + b;
    }
  }

  lemma {:induction false} SkipsBlank(b: string, s: string)
    requires IsBlank(b) && (s == "" || !Space(s[0]))
    ensures SkipSpace(b + s) == s
  {
    if b == "" {
      assert b + s == s;
    } else {
      SkipsBlank(b[1..], s);
      assert (b + s)[1..] == b[1..] + s && (b + s)[0] == b[0];
    }
  }

  lemma {:induction false} PrefixMaximal(s: string)
    ensures DigitPrefix(s) < |s| ==> !IsDigit(s[DigitPrefix(s)])
  {
    if s != "" && IsDigit(s[0]) {
      PrefixMaximal(s[1..]);
    }
  }

  lemma {:induction false} PrefixStops(digits: string, rest: string)
    requires forall i :: 0 <= i < |digits| ==> IsDigit(digits[i])
    requires rest == "" || !IsDigit(rest[0])
    ensures DigitPrefix(digits + rest) == |digits|
  {
    if digits == "" {
      assert digits + rest == rest;
    } else {
      PrefixStops(digits[1..], rest);
      assert (digits + rest)[1..] == digits[1..] + rest && (digits + rest)[0] == digits[0];
    }
  }

  lemma NumberSound(s: string, minus: bool) returns (t: Tree)
    requires ReadNat(s).Got?
    ensures t.Number? && t.minus == minus && t.n == ReadNat(s).value && Good(t) && MayEnd(t, ReadNat(s).rest)
    ensures s == t.digits + ReadNat(s).rest
  {
    PrefixMaximal(s);
    var n := DigitPrefix(s);
    t := Number(minus, s[..if n > 0 && s[0] == '0' then 1 else n], ReadNat(s).value);
  }

  lemma NumberComplete(t: Tree, rest: string)
    requires t.Number? && Good(t) && MayEnd(t, rest)
    ensures ReadNat(t.digits + rest) == Got(t.n, rest)
  {
    var s := t.digits + rest;
    assert s[..|t.digits|] == t.digits && s[|t.digits|..] == rest;
    if t.digits[0] == '0' {
      assert t.digits == "0" && s[0] == '0';
    } else {
      PrefixStops(t.digits, rest);
    }
  }

  // ---------------------------------------------------------------------- strings

  lemma HexSound(s: string)
    requires ReadUnit(s).Got?
    ensures HexCode(s[..4], ReadUnit(s).value) && s == s[..4] + ReadUnit(s).rest
  {
    assert HexWorth(s[0], HexValue(s[0])) && HexWorth(s[1], HexValue(s[1])) && HexWorth(s[2], HexValue(s[2])) && HexWorth(s[3], HexValue(s[3]));
  }

  lemma HexComplete(hex: string, n: nat, rest: string)
    requires HexCode(hex, n)
    ensures ReadUnit(hex + rest) == Got(n, rest)
  {
    var s := hex + rest;
    assert s[..4] == hex && s[4..] == rest;
    assert s[0] == hex[0] && s[1] == hex[1] && s[2] == hex[2] && s[3] == hex[3];
    HexWorths(hex[0]);
    HexWorths(hex[1]);
    HexWorths(hex[2]);
    HexWorths(hex[3]);
    hide HexWorth, HexValue, IsHex;
  }

  lemma HexWorths(c: char)
    ensures forall v :: HexWorth(c, v) ==> IsHex(c) && HexValue(c) == v
  {
  }

  lemma LetterExact(letter: char, c: char)
    ensures Unescape(letter) == Some(c) <==> Letter(letter, c)
  {
  }

  lemma CharSound(s: string) returns (p: Piece)
    requires ReadChar(s).Got?
    ensures GoodPiece(p) && s == PieceText(p) + ReadChar(s).rest && ReadChar(s).value == p.c
  {
    hide ReadUnicode, HexCode;
    if s[0] != '\\' {
      p := Raw(s[0]);
    } else if s[1] == 'u' {
      p := UnicodeSound(s[2..]);
      assert s == "\\u" + s[2..];
    } else {
      p := Short(s[1], ReadChar(s).value);
      LetterExact(s[1], p.c);
    }
  }

  lemma UnicodeSound(s: string) returns (p: Piece)
    requires ReadUnicode(s).Got?
    ensures GoodPiece(p) && "\\u" + s == PieceText(p) + ReadUnicode(s).rest && ReadUnicode(s).value == p.c
  {
    hide HexCode, ReadUnit;
    HexSound(s);
    var hi, rest := ReadUnit(s).value, ReadUnit(s).rest;
    if hi < 0xd800 || hi >= 0xe000 {
      p := Coded(s[..4], hi as char);
    } else {
      HexSound(rest[2..]);
      var lo := ReadUnit(rest[2..]).value;
      p := Paired(s[..4], rest[2..][..4], ReadUnicode(s).value);
      assert rest == "\\u" + rest[2..];
      assert Surrogates(p.hi, p.lo, p.c, hi, lo);
    }
  }

  lemma CodeComplete(hex: string, c: char, rest: string)
    requires HexCode(hex, c as int)
    ensures ReadUnicode(hex + rest) == Got(c, rest)
  {
    HexComplete(hex, c as int, rest);
    hide HexCode, ReadUnit;
  }

  lemma PairComplete(hi: string, lo: string, c: char, h: nat, l: nat, rest: string)
    requires Surrogates(hi, lo, c, h, l)
    ensures ReadUnicode(hi + ("\\u" + (lo + rest))) == Got(c, rest)
  {
    var more := "\\u" + (lo + rest);
    HexComplete(hi, h, more);
    HexComplete(lo, l, rest);
    hide HexCode, ReadUnit;
    assert more[0] == '\\' && more[1] == 'u' && more[2..] == lo + rest;
  }

  lemma UnicodeComplete(p: Piece, rest: string)
    requires GoodPiece(p) && (p.Coded? || p.Paired?)
    ensures PieceText(p)[..2] == "\\u" && ReadUnicode((PieceText(p) + rest)[2..]) == Got(p.c, rest)
  {
    hide HexCode, ReadUnicode, Surrogates;
    if p.Coded? {
      CodeComplete(p.hex, p.c, rest);
      AfterU(p.hex, "", "", rest);
    } else {
      var h, l :| Surrogates(p.hi, p.lo, p.c, h, l);
      PairComplete(p.hi, p.lo, p.c, h, l, rest);
      AfterU(p.hi, "\\u", p.lo, rest);
    }
  }

  lemma AfterU(hi: string, u: string, lo: string, rest: string)
    ensures var s := "\\u" + hi + u + lo;
            s[..2] == "\\u" && (s + rest)[2..] == hi + (u + (lo + rest))
    ensures "\\u" + hi + "" + "" == "\\u" + hi && hi + ("" + ("" + rest)) == hi + rest
  {
  }

  lemma CharComplete(p: Piece, rest: string)
    requires GoodPiece(p)
    ensures PieceText(p) != "" && PieceText(p)[0] != '\"' && ReadChar(PieceText(p) + rest) == Got(p.c, rest)
  {
    hide ReadUnicode, HexCode;
    var s := PieceText(p) + rest;
    match p
    case Raw(c) =>
    case Short(letter, c) =>
      LetterExact(letter, c);
      assert s[0] == '\\' && s[1] == letter && s[2..] == rest;
    case _ =>
      UnicodeComplete(p, rest);
      assert s[0] == PieceText(p)[..2][0] && s[1] == PieceText(p)[..2][1];
  }

  lemma PiecesCons(p: Piece, tail: seq<Piece>)
    ensures var ps := [p] + tail;
            && (GoodPieces(ps) <==> GoodPiece(p) && GoodPieces(tail))
            && PiecesText(ps) == PieceText(p) + PiecesText(tail) && PiecesValue(ps) == [p.c] + PiecesValue(tail)
  {
    hide GoodPiece, PieceText;
    var ps := [p] + tail;
    assert ps[0] == p && ps[1..] == tail;
  }

  /** The closing quote, or a character and the rest of the string. */
  lemma StringStep(s: string)
    ensures ReadString(s) == if s != "" && s[0] == '\"' then Got("", s[1..])
                             else if ReadChar(s).Got? && ReadString(ReadChar(s).rest).Got?
                             then Got([ReadChar(s).value] + ReadString(ReadChar(s).rest).value, ReadString(ReadChar(s).rest).rest)
                             else Fail
  {
    hide ReadChar;
  }

  lemma {:induction false} StringSound(s: string) returns (ps: seq<Piece>)
    requires ReadString(s).Got?
    ensures GoodPieces(ps) && s == PiecesText(ps) + "\"" + ReadString(s).rest && ReadString(s).value == PiecesValue(ps)
    decreases |s|
  {
    StringStep(s);
    if s != "" && s[0] == '\"' {
      ps := [];
      assert s == "\"" + s[1..];
    } else {
      hide ReadString, ReadChar, GoodPiece, GoodPieces, PieceText, PiecesText, PiecesValue;
      var p := CharSound(s);
      var more := ReadChar(s).rest;
      var tail := StringSound(more);
      ps := [p] + tail;
      PiecesCons(p, tail);
      Chain(PieceText(p), PiecesText(tail) + "\"", ReadString(s).rest);
      Chain(PieceText(p), PiecesText(tail), "\"");
    }
  }

  lemma {:induction false} StringComplete(ps: seq<Piece>, rest: string)
    requires GoodPieces(ps)
    ensures ReadString(PiecesText(ps) + "\"" + rest) == Got(PiecesValue(ps), rest)
    decreases |ps|
  {
    var s := PiecesText(ps) + "\"" + rest;
    StringStep(s);
    if ps == [] {
      assert s == "\"" + rest && s[1..] == rest;
    } else {
      hide ReadString, ReadChar, GoodPiece, GoodPieces, PieceText, PiecesText, PiecesValue;
      var p, tail := ps[0], ps[1..];
      assert ps == [p] + tail;
      PiecesCons(p, tail);
      var more := PiecesText(tail) + "\"" + rest;
      CharComplete(p, more);
      StringComplete(tail, rest);
      Chain(PieceText(p), PiecesText(tail), "\"");
      Chain(PieceText(p), PiecesText(tail) + "\"", rest);
    }
  }

  lemma Chain(a: string, b: string, c: string)
    ensures a + b + c == a + (b + c)
  {
  }

  // ------------------------------------------------------------- one step at a time

  /** What the first character decides. */
  lemma Dispatch(s: string)
    requires s != ""
    ensures s[0] == '\"' ==> Read(s) == ReadStr(s[1..])
    ensures s[0] == '[' ==> Read(s) == ReadArr(SkipSpace(s[1..]))
    ensures s[0] == '{' ==> Read(s) == ReadObj(SkipSpace(s[1..]))
    ensures s[0] == '-' ==> Read(s) == ReadInt(-1, s[1..])
    ensures s[0] == 'n' ==> Read(s) == if "null" <= s then Got(Null, s[4..]) else Fail
    ensures s[0] == 't' ==> Read(s) == if "true" <= s then Got(Bool(true), s[4..]) else Fail
    ensures s[0] == 'f' ==> Read(s) == if "false" <= s then Got(Bool(false), s[5..]) else Fail
    ensures s[0] !in "\"[{-ntf" ==> Read(s) == ReadInt(1, s)
    ensures IsDigit(s[0]) ==> Read(s) == ReadInt(1, s)
  {
    hide ReadArr, ReadObj, ReadStr, ReadInt, SkipSpace;
  }

  lemma ArrStep(s: string)
    ensures ReadArr(s) == if s != "" && s[0] == ']' then Got(Arr([]), s[1..])
                          else if ReadItems(s).Got? then Got(Arr(ReadItems(s).value), ReadItems(s).rest) else Fail
  {
    hide ReadItems;
  }

  lemma ObjStep(s: string)
    ensures ReadObj(s) == if s != "" && s[0] == '}' then Got(Obj([]), s[1..])
                          else if ReadFields(s).Got? then Got(Obj(ToDict(ReadFields(s).value)), ReadFields(s).rest) else Fail
  {
    hide ReadFields, ToDict;
  }

  /** A value, blanks, and the end of the list or its next item. */
  lemma ItemsStep(s: string, j: Json, rest: string)
    requires Read(s) == Got(j, rest)
    ensures var u := SkipSpace(rest);
            ReadItems(s) == if u != "" && u[0] == ']' then Got([j], u[1..])
                            else if u != "" && u[0] == ',' && ReadItems(SkipSpace(u[1..])).Got?
                            then Got([j] + ReadItems(SkipSpace(u[1..])).value, ReadItems(SkipSpace(u[1..])).rest)
                            else Fail
  {
    hide Read, SkipSpace;
  }

  lemma ItemsNeed(s: string)
    requires ReadItems(s).Got?
    ensures Read(s).Got?
  {
    hide Read, SkipSpace;
  }

  /** A name, a colon and a value with blanks between them, and what comes after. */
  ghost predicate FieldThen(s: string, key: string, afterKey: string, j: Json, rest: string) {
    && s != "" && s[0] == '\"' && ReadString(s[1..]) == Got(key, afterKey)
    && var t := SkipSpace(afterKey);
    && t != "" && t[0] == ':' && Read(SkipSpace(t[1..])) == Got(j, rest)
  }

  lemma FieldsStep(s: string, key: string, afterKey: string, j: Json, rest: string)
    requires FieldThen(s, key, afterKey, j, rest)
    ensures var u := SkipSpace(rest);
            ReadFields(s) == if u != "" && u[0] == '}' then Got([Field(key, j)], u[1..])
                             else if u != "" && u[0] == ',' && ReadFields(SkipSpace(u[1..])).Got?
                             then Got([Field(key, j)] + ReadFields(SkipSpace(u[1..])).value, ReadFields(SkipSpace(u[1..])).rest)
                             else Fail
  {
    hide Read, ReadString, SkipSpace;
  }

  lemma FieldsNeed(s: string) returns (key: string, afterKey: string, j: Json, rest: string)
    requires ReadFields(s).Got?
    ensures FieldThen(s, key, afterKey, j, rest)
  {
    hide Read, ReadString, SkipSpace;
    key, afterKey := ReadString(s[1..]).value, ReadString(s[1..]).rest;
    var v := SkipSpace(SkipSpace(afterKey)[1..]);
    j, rest := Read(v).value, Read(v).rest;
  }

  lemma ItemsCons(item: Item, tail: seq<Item>)
    ensures var items := [item] + tail;
            && (GoodItems(items) <==> GoodItem(item) && GoodItems(tail))
            && ItemsText(items) == ItemText(item) + (if tail == [] then "" else "," + ItemsText(tail))
            && ItemsValue(items) == [Meaning(item.tree)] + ItemsValue(tail)
  {
    hide GoodItem, ItemText, Meaning;
    var items := [item] + tail;
    assert items[0] == item && items[1..] == tail;
  }

  lemma MembersCons(m: Member, tail: seq<Member>)
    ensures var ms := [m] + tail;
            && (GoodMembers(ms) <==> GoodMember(m) && GoodMembers(tail))
            && MembersText(ms) == MemberText(m) + (if tail == [] then "" else "," + MembersText(tail))
            && MembersValue(ms) == [Field(PiecesValue(m.key), Meaning(m.tree))] + MembersValue(tail)
  {
    hide GoodMember, MemberText, Meaning, PiecesValue;
    var ms := [m] + tail;
    assert ms[0] == m && ms[1..] == tail;
  }

  lemma ItemMeans(item: Item, more: string)
    ensures GoodItem(item) <==> IsBlank(item.before) && IsBlank(item.after) && Good(item.tree)
    ensures ItemText(item) + more == item.before + (TreeText(item.tree) + (item.after + more))
  {
    hide IsBlank, Good, TreeText;
  }

  /** The text of a field, cut where the reader stops. */
  function FieldText(m: Member, more: string): string {
    "\"" + (PiecesText(m.key) + "\"" + (m.gap + (":" + (m.space + (TreeText(m.tree) + (m.after + more))))))
  }

  lemma MemberMeans(m: Member, more: string)
    ensures GoodMember(m) <==> IsBlank(m.before) && GoodPieces(m.key) && IsBlank(m.gap) && IsBlank(m.space) && Good(m.tree) && IsBlank(m.after)
    ensures MemberText(m) + more == m.before + FieldText(m, more)
  {
    hide IsBlank, Good, TreeText, GoodPieces, PiecesText;
  }

  lemma TreeMeans(t: Tree)
    ensures t.List? ==> TreeText(t) == "[" + ItemsText(t.items) + "]" && Meaning(t) == Arr(ItemsValue(t.items))
    ensures t.List? ==> (Good(t) <==> t.items != [] && GoodItems(t.items))
    ensures t.Dict? ==> TreeText(t) == "{" + MembersText(t.members) + "}" && Meaning(t) == Obj(ToDict(MembersValue(t.members)))
    ensures t.Dict? ==> (Good(t) <==> t.members != [] && GoodMembers(t.members))
  {
    hide ItemsText, ItemsValue, GoodItems, MembersText, MembersValue, GoodMembers, ToDict;
  }

  // -------------------------------------------------------- what is read is a text

  /** If a value is read, the text begins with a JSON text of that value. */
  lemma {:induction false} ReadSound(s: string) returns (t: Tree)
    requires Read(s).Got?
    ensures Begins(s, t, Read(s).value, Read(s).rest)
    decreases |s|, 1
  {
    hide Read, ReadArr, ReadObj, ReadStr, ReadInt, SkipSpace, Begins;
    ReadFirst(s);
    Dispatch(s);
    match s[0]
    case '\"' => t := QuotedSound(s);
    case '[' => t := ListSound(s);
    case '{' => t := DictSound(s);
    case '-' => t := SignedSound(s);
    case 'n' => t := WordSound(s);
    case 't' => t := WordSound(s);
    case 'f' => t := WordSound(s);
    case _ => t := UnsignedSound(s);
  }

  lemma QuotedSound(s: string) returns (t: Tree)
    requires s != "" && s[0] == '\"' && ReadStr(s[1..]).Got?
    ensures Begins(s, t, ReadStr(s[1..]).value, ReadStr(s[1..]).rest)
  {
    hide ReadString, PiecesText, PiecesValue, GoodPieces;
    var ps := StringSound(s[1..]);
    t := Quoted(ps);
    assert s == "\"" + s[1..];
  }

  lemma WordSound(s: string) returns (t: Tree)
    requires "null" <= s || "true" <= s || "false" <= s
    ensures "null" <= s ==> Begins(s, t, Null, s[4..])
    ensures "true" <= s ==> Begins(s, t, Bool(true), s[4..])
    ensures "false" <= s ==> Begins(s, t, Bool(false), s[5..])
  {
    t := if s[0] == 'n' then NullWord else if s[0] == 't' then TrueWord else FalseWord;
  }

  lemma SignedSound(s: string) returns (t: Tree)
    requires s != "" && s[0] == '-' && ReadInt(-1, s[1..]).Got?
    ensures Begins(s, t, ReadInt(-1, s[1..]).value, ReadInt(-1, s[1..]).rest)
  {
    hide ReadNat, Good, MayEnd;
    t := NumberSound(s[1..], true);
    assert s == "-" + s[1..];
  }

  lemma UnsignedSound(s: string) returns (t: Tree)
    requires ReadInt(1, s).Got?
    ensures Begins(s, t, ReadInt(1, s).value, ReadInt(1, s).rest)
  {
    hide ReadNat, Good, MayEnd;
    t := NumberSound(s, false);
  }

  lemma ReadFirst(s: string)
    requires Read(s).Got?
    ensures s != ""
  {
  }

  lemma {:induction false} ListSound(s: string) returns (t: Tree)
    requires s != "" && s[0] == '[' && ReadArr(SkipSpace(s[1..])).Got?
    ensures var r := ReadArr(SkipSpace(s[1..])); Begins(s, t, r.value, r.rest)
    decreases |s|, 0
  {
    hide ReadArr, ReadItems, SkipSpace, IsBlank, ItemsText, ItemsValue, GoodItems, Begins;
    var b := BlankBefore(s[1..]);
    var u := SkipSpace(s[1..]);
    ArrStep(u);
    if u != "" && u[0] == ']' {
      t := EmptyList(b);
      Fronted(u, "", u[1..]);
      Fronted(s, b, u);
      EmptyBegins(s, b, u[1..]);
    } else {
      var items := ItemsSound(b, u);
      t := List(items);
      Fronted(s, ItemsText(items), "]" + ReadItems(u).rest);
      ListBegins(s, items, ReadItems(u).rest);
    }
  }

  lemma EmptyBegins(s: string, b: string, rest: string)
    requires IsBlank(b)
    ensures s == "[" + b + ("]" + rest) ==> Begins(s, EmptyList(b), Arr([]), rest)
    ensures s == "{" + b + ("}" + rest) ==> Begins(s, EmptyDict(b), Obj([]), rest)
  {
    hide IsBlank;
    Chain("[" + b, "]", rest);
    Chain("{" + b, "}", rest);
  }

  lemma ListBegins(s: string, items: seq<Item>, rest: string)
    requires items != [] && GoodItems(items) && s == "[" + ItemsText(items) + ("]" + rest)
    ensures Begins(s, List(items), Arr(ItemsValue(items)), rest)
  {
    hide ItemsText, ItemsValue, GoodItems;
    Chain("[" + ItemsText(items), "]", rest);
  }

  lemma DictBegins(s: string, ms: seq<Member>, rest: string)
    requires ms != [] && GoodMembers(ms) && s == "{" + MembersText(ms) + ("}" + rest)
    ensures Begins(s, Dict(ms), Obj(ToDict(MembersValue(ms))), rest)
  {
    hide MembersText, MembersValue, GoodMembers, ToDict;
    Chain("{" + MembersText(ms), "}", rest);
  }

  /** The items read, the first of them after these blanks. */
  lemma {:induction false} ItemsSound(b: string, s: string) returns (items: seq<Item>)
    requires IsBlank(b) && ReadItems(s).Got?
    ensures items != [] && GoodItems(items)
    ensures b + s == ItemsText(items) + ("]" + ReadItems(s).rest) && ReadItems(s).value == ItemsValue(items)
    decreases |s|, 2
  {
    hide Good, TreeText, Meaning, Read, ReadItems, IsBlank, MayEnd, SkipSpace, ItemsText, ItemText, ItemsValue, GoodItems, GoodItem;
    ItemsNeed(s);
    var tree := ReadSound(s);
    var rest := Read(s).rest;
    var after := BlankBefore(rest);
    var u := SkipSpace(rest);
    ItemsStep(s, Read(s).value, rest);
    var item := Item(b, tree, after);
    ItemMeans(item, u);
    var tail := [];
    NoItems();
    if u[0] == ']' {
      Fronted(u, "", u[1..]);
    } else {
      var b' := BlankBefore(u[1..]);
      tail := ItemsSound(b', SkipSpace(u[1..]));
      Fronted(u, ItemsText(tail), "]" + ReadItems(s).rest);
    }
    items := [item] + tail;
    ItemsCons(item, tail);
    ItemsSplit(items, item, tail, u, ReadItems(s).rest);
  }

  lemma ItemsSplit(items: seq<Item>, item: Item, tail: seq<Item>, u: string, rest: string)
    requires ItemsText(items) == ItemText(item) + (if tail == [] then "" else "," + ItemsText(tail))
    requires if tail == [] then u == "]" + rest else u == "," + ItemsText(tail) + ("]" + rest)
    ensures ItemText(item) + u == ItemsText(items) + ("]" + rest)
  {
    hide ItemsText, ItemText;
    if tail != [] {
      Chain(ItemText(item), "," + ItemsText(tail), "]" + rest);
    }
  }

  lemma NoItems()
    ensures GoodItems([]) && ItemsValue([]) == []
    ensures GoodMembers([]) && MembersValue([]) == []
  {
  }

  lemma {:induction false} DictSound(s: string) returns (t: Tree)
    requires s != "" && s[0] == '{' && ReadObj(SkipSpace(s[1..])).Got?
    ensures var r := ReadObj(SkipSpace(s[1..])); Begins(s, t, r.value, r.rest)
    decreases |s|, 0
  {
    hide ReadObj, ReadFields, SkipSpace, IsBlank, MembersText, MembersValue, GoodMembers, ToDict, Begins;
    var b := BlankBefore(s[1..]);
    var u := SkipSpace(s[1..]);
    ObjStep(u);
    if u != "" && u[0] == '}' {
      t := EmptyDict(b);
      Fronted(u, "", u[1..]);
      Fronted(s, b, u);
      EmptyBegins(s, b, u[1..]);
    } else {
      var ms := MembersSound(b, u);
      t := Dict(ms);
      Fronted(s, MembersText(ms), "}" + ReadFields(u).rest);
      DictBegins(s, ms, ReadFields(u).rest);
    }
  }

  lemma {:induction false} MembersSound(b: string, s: string) returns (ms: seq<Member>)
    requires IsBlank(b) && ReadFields(s).Got?
    ensures ms != [] && GoodMembers(ms)
    ensures b + s == MembersText(ms) + ("}" + ReadFields(s).rest) && ReadFields(s).value == MembersValue(ms)
    decreases |s|, 2
  {
    hide Good, TreeText, Meaning, Read, ReadFields, ReadString, IsBlank, MayEnd, SkipSpace, GoodPieces, PiecesText, PiecesValue;
    hide FieldThen, MembersText, MemberText, MembersValue, GoodMembers, GoodMember;
    var key, afterKey, j, rest := FieldsNeed(s);
    FieldsStep(s, key, afterKey, j, rest);
    var m := MemberSound(b, s, key, afterKey, j, rest);
    var u := SkipSpace(rest);
    var tail := [];
    NoItems();
    if u[0] == '}' {
      Fronted(u, "", u[1..]);
    } else {
      var b' := BlankBefore(u[1..]);
      tail := MembersSound(b', SkipSpace(u[1..]));
      Fronted(u, MembersText(tail), "}" + ReadFields(s).rest);
    }
    ms := [m] + tail;
    MembersCons(m, tail);
    MembersSplit(ms, m, tail, u, ReadFields(s).rest);
  }

  lemma MembersSplit(ms: seq<Member>, m: Member, tail: seq<Member>, u: string, rest: string)
    requires MembersText(ms) == MemberText(m) + (if tail == [] then "" else "," + MembersText(tail))
    requires if tail == [] then u == "}" + rest else u == "," + MembersText(tail) + ("}" + rest)
    ensures MemberText(m) + u == MembersText(ms) + ("}" + rest)
  {
    hide MembersText, MemberText;
    if tail != [] {
      Chain(MemberText(m), "," + MembersText(tail), "}" + rest);
    }
  }

  lemma {:induction false} MemberSound(b: string, s: string, key: string, afterKey: string, j: Json, rest: string) returns (m: Member)
    requires IsBlank(b) && FieldThen(s, key, afterKey, j, rest)
    ensures GoodMember(m) && PiecesValue(m.key) == key && Meaning(m.tree) == j && b + s == MemberText(m) + SkipSpace(rest)
    ensures |SkipSpace(rest)| < |s|
    decreases |s|, 1
  {
    hide Good, TreeText, Meaning, Read, ReadFields, ReadString, IsBlank, MayEnd, SkipSpace, GoodPieces, PiecesText, PiecesValue, MemberText, GoodMember;
    var t := SkipSpace(afterKey);
    var v := SkipSpace(t[1..]);
    var pieces := StringSound(s[1..]);
    var gap := BlankBefore(afterKey);
    var space := BlankBefore(t[1..]);
    var tree := ReadSound(v);
    var after := BlankBefore(rest);
    m := Member(b, pieces, gap, space, tree, after);
    MemberMeans(m, SkipSpace(rest));
    assert s == "\"" + s[1..] && t == ":" + t[1..];
  }

  // ------------------------------------------------------------ every text is read

  /** A JSON text starts with no blank and no closing bracket. */
  lemma TextStarts(t: Tree)
    requires Good(t)
    ensures var s := TreeText(t); s != "" && !Space(s[0]) && s[0] != ']' && s[0] != '}'
  {
    hide ItemsText, MembersText, PiecesText, GoodPieces, GoodItems, GoodMembers;
  }

  /** A blank, a comma or a closing bracket may follow any value. */
  lemma MoreEnds(t: Tree, after: string, more: string)
    requires IsBlank(after) && more != "" && (more[0] == ',' || more[0] == ']' || more[0] == '}')
    ensures MayEnd(t, after + more) && !Space(more[0])
  {
    assert (after + more)[0] == if after == "" then more[0] else after[0];
  }

  /** Every JSON text is read as the value it stands for. */
  lemma {:induction false} ReadComplete(t: Tree, rest: string)
    requires Good(t) && MayEnd(t, rest)
    ensures Read(TreeText(t) + rest) == Got(Meaning(t), rest)
    decreases t, 1
  {
    match t
    case Number(_, _, _) => NumberReads(t, rest);
    case Quoted(ps) => QuotedReads(ps, rest);
    case EmptyList(space) => EmptyListReads(space, rest);
    case List(items) => ListComplete(items, rest);
    case EmptyDict(space) => EmptyDictReads(space, rest);
    case Dict(ms) => DictComplete(ms, rest);
    case _ => WordReads(t, rest);
  }

  lemma WordReads(t: Tree, rest: string)
    requires t.NullWord? || t.TrueWord? || t.FalseWord?
    ensures Read(TreeText(t) + rest) == Got(Meaning(t), rest)
  {
    hide Read;
    Dispatch(TreeText(t) + rest);
  }

  lemma NumberReads(t: Tree, rest: string)
    requires t.Number? && Good(t) && MayEnd(t, rest)
    ensures Read(TreeText(t) + rest) == Got(Meaning(t), rest)
  {
    hide Read, ReadNat, DecimalValue;
    var s := TreeText(t) + rest;
    NumberComplete(t, rest);
    Dispatch(s);
    assert if t.minus then s[1..] == t.digits + rest else s == t.digits + rest;
  }

  lemma QuotedReads(ps: seq<Piece>, rest: string)
    requires GoodPieces(ps)
    ensures Read(TreeText(Quoted(ps)) + rest) == Got(Meaning(Quoted(ps)), rest)
  {
    hide Read, ReadString, PiecesText, PiecesValue;
    var s := TreeText(Quoted(ps)) + rest;
    StringComplete(ps, rest);
    Dispatch(s);
    assert s[1..] == PiecesText(ps) + "\"" + rest;
  }

  lemma EmptyListReads(space: string, rest: string)
    requires IsBlank(space)
    ensures Read(TreeText(EmptyList(space)) + rest) == Got(Arr([]), rest)
  {
    hide Read, ReadArr, SkipSpace, IsBlank;
    var s, u := TreeText(EmptyList(space)) + rest, "]" + rest;
    SkipsBlank(space, u);
    Dispatch(s);
    ArrStep(u);
    assert s[0] == '[' && s[1..] == space + u && u[1..] == rest;
  }

  lemma EmptyDictReads(space: string, rest: string)
    requires IsBlank(space)
    ensures Read(TreeText(EmptyDict(space)) + rest) == Got(Obj([]), rest)
  {
    hide Read, ReadObj, SkipSpace, IsBlank;
    var s, u := TreeText(EmptyDict(space)) + rest, "}" + rest;
    SkipsBlank(space, u);
    Dispatch(s);
    ObjStep(u);
    assert s[0] == '{' && s[1..] == space + u && u[1..] == rest;
  }

  lemma {:induction false} ListComplete(items: seq<Item>, rest: string)
    requires Good(List(items))
    ensures Read(TreeText(List(items)) + rest) == Got(Meaning(List(items)), rest)
    decreases items, 1
  {
    hide Read, ReadArr, ReadItems, SkipSpace, TreeText, Meaning, Good, ItemsText, ItemsValue, GoodItems;
    TreeMeans(List(items));
    ItemsComplete(items, rest);
    var s := TreeText(List(items)) + rest;
    var u := ItemsText(items) + ("]" + rest);
    Dispatch(s);
    ArrStep(SkipSpace(u));
    assert s[0] == '[' && s[1..] == u;
  }

  lemma {:induction false} ItemsComplete(items: seq<Item>, rest: string)
    requires items != [] && GoodItems(items)
    ensures var u := SkipSpace(ItemsText(items) + ("]" + rest));
            u != "" && u[0] != ']' && ReadItems(u) == Got(ItemsValue(items), rest)
    decreases items, 0
  {
    hide Read, ReadItems, SkipSpace, TreeText, Meaning, Good, ItemsText, ItemText, ItemsValue, GoodItem, IsBlank, MayEnd, GoodItems;
    var item, tail := items[0], items[1..];
    assert items == [item] + tail;
    ItemsCons(item, tail);
    NoItems();
    var next := ItemsText(tail) + ("]" + rest);
    var more := if tail == [] then "]" + rest else "," + ItemsText(tail) + ("]" + rest);
    var s := TreeText(item.tree) + (item.after + more);
    ItemReads(item, more);
    ReadComplete(item.tree, item.after + more);
    if tail != [] {
      ItemsComplete(tail, rest);
      Chain(",", ItemsText(tail), "]" + rest);
    }
    ItemsGo(s, Meaning(item.tree), item.after + more, more, next, ItemsValue(tail), rest);
    ItemsSplit(items, item, tail, more, rest);
  }

  lemma ItemReads(item: Item, more: string)
    requires GoodItem(item) && more != "" && (more[0] == ',' || more[0] == ']')
    ensures Good(item.tree) && MayEnd(item.tree, item.after + more) && SkipSpace(item.after + more) == more
    ensures var s := TreeText(item.tree) + (item.after + more);
            s != "" && s[0] != ']' && SkipSpace(ItemText(item) + more) == s
  {
    hide SkipSpace, TreeText, Good, IsBlank, MayEnd, ItemText, GoodItem;
    ItemMeans(item, more);
    TextStarts(item.tree);
    MoreEnds(item.tree, item.after, more);
    SkipsBlank(item.before, TreeText(item.tree) + (item.after + more));
    SkipsBlank(item.after, more);
  }

  /** An item, then either the end or the items after it. */
  lemma ItemsGo(s: string, j: Json, tail: string, more: string, next: string, js: seq<Json>, rest: string)
    requires Read(s) == Got(j, tail) && SkipSpace(tail) == more
    requires (more == "]" + rest && js == []) || (more == "," + next && ReadItems(SkipSpace(next)) == Got(js, rest))
    ensures ReadItems(s) == Got([j] + js, rest)
  {
    hide Read, ReadItems, SkipSpace;
    ItemsStep(s, j, tail);
    assert more == "]" + rest ==> more[1..] == rest;
    assert more == "," + next ==> more[1..] == next;
    assert [j] + [] == [j];
  }

  lemma {:induction false} DictComplete(ms: seq<Member>, rest: string)
    requires Good(Dict(ms))
    ensures Read(TreeText(Dict(ms)) + rest) == Got(Meaning(Dict(ms)), rest)
    decreases ms, 1
  {
    hide Read, ReadObj, ReadFields, SkipSpace, TreeText, Meaning, Good, MembersText, MembersValue, GoodMembers, ToDict;
    TreeMeans(Dict(ms));
    MembersComplete(ms, rest);
    var s := TreeText(Dict(ms)) + rest;
    var u := MembersText(ms) + ("}" + rest);
    Dispatch(s);
    ObjStep(SkipSpace(u));
    assert s[0] == '{' && s[1..] == u;
  }

  lemma {:induction false} MembersComplete(ms: seq<Member>, rest: string)
    requires ms != [] && GoodMembers(ms)
    ensures var u := SkipSpace(MembersText(ms) + ("}" + rest));
            u != "" && u[0] != '}' && ReadFields(u) == Got(MembersValue(ms), rest)
    decreases ms, 0
  {
    hide Read, ReadFields, ReadString, SkipSpace, TreeText, Meaning, Good, MembersText, MemberText, MembersValue, GoodMember, GoodMembers;
    hide IsBlank, MayEnd, FieldThen, FieldText, PiecesText, PiecesValue, GoodPieces;
    var m, tail := ms[0], ms[1..];
    assert ms == [m] + tail;
    MembersCons(m, tail);
    NoItems();
    var next := MembersText(tail) + ("}" + rest);
    var more := if tail == [] then "}" + rest else "," + MembersText(tail) + ("}" + rest);
    MemberEnds(m, more);
    ReadComplete(m.tree, m.after + more);
    MemberReads(m, more);
    if tail != [] {
      MembersComplete(tail, rest);
      Chain(",", MembersText(tail), "}" + rest);
    }
    FieldsGo(FieldText(m, more), PiecesValue(m.key), Meaning(m.tree), m.after + more, more, next, MembersValue(tail), rest);
    MembersSplit(ms, m, tail, more, rest);
  }

  lemma MemberEnds(m: Member, more: string)
    requires GoodMember(m) && more != "" && (more[0] == ',' || more[0] == '}')
    ensures Good(m.tree) && MayEnd(m.tree, m.after + more) && SkipSpace(m.after + more) == more
  {
    hide SkipSpace, MayEnd, Good, IsBlank, GoodPieces;
    MoreEnds(m.tree, m.after, more);
    SkipsBlank(m.after, more);
  }

  /** A field, then either the end or the fields after it. */
  lemma FieldsGo(s: string, key: string, j: Json, tail: string, more: string, next: string, fs: seq<Field>, rest: string)
    requires (exists afterKey :: FieldThen(s, key, afterKey, j, tail)) && SkipSpace(tail) == more
    requires (more == "}" + rest && fs == []) || (more == "," + next && ReadFields(SkipSpace(next)) == Got(fs, rest))
    ensures ReadFields(s) == Got([Field(key, j)] + fs, rest)
  {
    hide ReadFields, SkipSpace, FieldThen;
    var afterKey :| FieldThen(s, key, afterKey, j, tail);
    FieldsStep(s, key, afterKey, j, tail);
    assert more == "}" + rest ==> more[1..] == rest;
    assert more == "," + next ==> more[1..] == next;
    assert [Field(key, j)] + [] == [Field(key, j)];
  }

  lemma MemberReads(m: Member, more: string)
    requires GoodMember(m) && Read(TreeText(m.tree) + (m.after + more)) == Got(Meaning(m.tree), m.after + more)
    ensures var s := FieldText(m, more);
            && s != "" && s[0] == '\"' && SkipSpace(MemberText(m) + more) == s
            && exists afterKey :: FieldThen(s, PiecesValue(m.key), afterKey, Meaning(m.tree), m.after + more)
  {
    hide Read, ReadString, SkipSpace, TreeText, Meaning, Good, IsBlank, PiecesText, PiecesValue, GoodPieces, MemberText;
    var v := TreeText(m.tree) + (m.after + more);
    var t := ":" + (m.space + v);
    MemberMeans(m, more);
    TextStarts(m.tree);
    StringComplete(m.key, m.gap + t);
    SkipsBlank(m.gap, t);
    SkipsBlank(m.space, v);
    SkipsBlank(m.before, FieldText(m, more));
    Chain(PiecesText(m.key), "\"", m.gap + t);
    assert FieldText(m, more)[1..] == PiecesText(m.key) + ("\"" + (m.gap + t)) && t[1..] == m.space + v;
    assert FieldThen(FieldText(m, more), PiecesValue(m.key), m.gap + t, Meaning(m.tree), m.after + more);
  }

  // ------------------------------------------------------------------ repeated keys

  /** No field before this one has its key. */
  ghost predicate IsFirst(fs: seq<Field>, i: nat) {
    i < |fs| && forall k :: 0 <= k < i ==> fs[k].key != fs[i].key
  }

  /** No field after this one has its key. */
  ghost predicate IsLast(fs: seq<Field>, f: Field) {
    exists i :: 0 <= i < |fs| && fs[i] == f && forall k :: i < k < |fs| ==> fs[k].key != f.key
  }

  lemma {:induction false} PutMeans(fs: seq<Field>, f: Field) returns (at: nat)
    ensures at <= |fs| && forall k :: 0 <= k < at ==> fs[k].key != f.key
    ensures if at < |fs| then fs[at].key == f.key && Put(fs, f) == fs[at := f] else Put(fs, f) == fs + [f]
  {
    at := 0;
    if fs != [] && fs[0].key != f.key {
      var at' := PutMeans(fs[1..], f);
      at := at' + 1;
      assert fs == [fs[0]] + fs[1..];
    }
  }

  /** The dict has each key once, in the order of these places, where the keys first
      stood, with the values that stood last. */
  ghost predicate Gathers(fs: seq<Field>, dict: seq<Field>, at: seq<nat>) {
    && |at| == |dict| && (forall a, b :: 0 <= a < b < |at| ==> at[a] < at[b])
    && (forall a :: 0 <= a < |at| ==> IsFirst(fs, at[a]) && dict[a].key == fs[at[a]].key && IsLast(fs, dict[a]))
    && (forall i :: IsFirst(fs, i) ==> i in at)
  }

  lemma {:induction false} ToDictMeans(fs: seq<Field>) returns (at: seq<nat>)
    ensures Gathers(fs, ToDict(fs), at)
  {
    at := [];
    if fs != [] {
      var n := |fs| - 1;
      var front, f := fs[..n], fs[n];
      assert fs == front + [f];
      at := ToDictMeans(front);
      var p := PutMeans(ToDict(front), f);
      if p < |ToDict(front)| {
        RepeatedKey(front, f, ToDict(front), at, p);
      } else {
        FreshKey(front, f, ToDict(front), at);
        at := at + [n];
      }
    }
  }

  lemma RepeatedKey(front: seq<Field>, f: Field, dict: seq<Field>, at: seq<nat>, p: nat)
    requires Gathers(front, dict, at) && p < |dict| && dict[p].key == f.key
    ensures Gathers(front + [f], dict[p := f], at)
  {
    var fs := front + [f];
    forall a | 0 <= a < |at| ensures IsFirst(fs, at[a]) && dict[p := f][a].key == fs[at[a]].key && IsLast(fs, dict[p := f][a]) {
      assert IsFirst(front, at[a]) && IsFirst(front, at[p]);
      LastGrows(front, f, dict[a]);
    }
    forall i: nat | IsFirst(fs, i) ensures i in at {
      assert IsFirst(front, at[p]) && fs[at[p]] == front[at[p]];
      FirstBefore(front, f, i);
    }
  }

  lemma FreshKey(front: seq<Field>, f: Field, dict: seq<Field>, at: seq<nat>)
    requires Gathers(front, dict, at) && forall a :: 0 <= a < |dict| ==> dict[a].key != f.key
    ensures Gathers(front + [f], dict + [f], at + [|front|])
  {
    var fs := front + [f];
    assert IsFirst(fs, |front|) by {
      forall k | 0 <= k < |front| ensures front[k].key != f.key {
        var i := FirstWith(front, k);
        var a :| 0 <= a < |at| && at[a] == i;
      }
    }
    forall a | 0 <= a < |at| ensures IsFirst(fs, at[a]) && dict[a].key == fs[at[a]].key && IsLast(fs, dict[a]) {
      assert IsFirst(front, at[a]);
      LastGrows(front, f, dict[a]);
    }
    LastGrows(front, f, f);
    forall i: nat | IsFirst(fs, i) ensures i in at + [|front|] {
      FirstBefore(front, f, i);
    }
  }

  lemma FirstBefore(front: seq<Field>, f: Field, i: nat)
    requires IsFirst(front + [f], i)
    ensures i < |front| ==> IsFirst(front, i)
  {
    if i < |front| {
      assert forall k :: 0 <= k <= i ==> front[k] == (front + [f])[k];
    }
  }

  lemma LastGrows(front: seq<Field>, f: Field, g: Field)
    ensures IsLast(front + [f], f)
    ensures IsLast(front, g) && g.key != f.key ==> IsLast(front + [f], g)
  {
    assert (front + [f])[|front|] == f;
    if IsLast(front, g) && g.key != f.key {
      var i :| 0 <= i < |front| && front[i] == g && forall k :: i < k < |front| ==> front[k].key != g.key;
      assert (front + [f])[i] == g;
    }
  }

  lemma {:induction false} FirstWith(fs: seq<Field>, k: nat) returns (i: nat)
    requires k < |fs|
    ensures IsFirst(fs, i) && fs[i].key == fs[k].key
    decreases k
  {
    i := k;
    if m :| 0 <= m < k && fs[m].key == fs[k].key {
      i := FirstWith(fs, m);
    }
  }

  // -------------------------------------------------------------------- theorems

  /** `raw_decode` reads a value if and only if the text begins with a JSON text of it,
      and stops where that ends. */
  lemma ReadExact(s: string, j: Json, rest: string)
    ensures Read(s) == Got(j, rest) <==> exists t :: Begins(s, t, j, rest)
  {
    hide Read, TreeText, Meaning, Good, MayEnd;
    if Read(s) == Got(j, rest) {
      var t := ReadSound(s);
    }
    if t :| Begins(s, t, j, rest) {
      ReadComplete(t, rest);
    }
  }

  /** `json.loads` answers with a value if and only if the text is a JSON text of that
      value, with blanks around it. */
  lemma LoadsExact(s: string, j: Json)
    ensures Loads(s) == Some(j) <==> exists before, t, after :: IsTextOf(s, j, before, t, after)
  {
    hide Read, TreeText, Meaning, Good;
    if Loads(s) == Some(j) {
      var before := BlankBefore(s);
      var t := ReadSound(SkipSpace(s));
      var after := BlankBefore(Read(SkipSpace(s)).rest);
      assert IsTextOf(s, j, before, t, after);
    }
    if before, t, after :| IsTextOf(s, j, before, t, after) {
      LoadsText(s, j, before, t, after);
    }
  }

  lemma LoadsText(s: string, j: Json, before: string, t: Tree, after: string)
    requires IsTextOf(s, j, before, t, after)
    ensures Loads(s) == Some(j)
  {
    hide Read, TreeText, Meaning, Good;
    TextStarts(t);
    assert s == before + (TreeText(t) + after);
    SkipsBlank(before, TreeText(t) + after);
    assert MayEnd(t, after);
    ReadComplete(t, after);
    SkipsBlank(after, "");
    assert after + "" == after;
  }
}
