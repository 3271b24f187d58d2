/** What printed JSON looks like, character by character: what is escaped and how, what
    `ensure_ascii` leaves, and that compact text has no blanks of its own. */
module JsonFormat {
  import opened Json

  /** A hexadecimal digit, small letters only. */
  predicate SmallHex(c: char) {
    '0' <= c <= '9' || 'a' <= c <= 'f'
  }

  /** `\uXXXX` with small digits. */
  predicate UnitShaped(s: string) {
    |s| == 6 && s[0] == '\\' && s[1] == 'u' && SmallHex(s[2]) && SmallHex(s[3]) && SmallHex(s[4]) && SmallHex(s[5])
  }

  /** Quote, backslash and the five control characters with a letter of their own take the
      two-character form; other control characters, and with `ensure_ascii` everything
      beyond the tilde, take one or two units; every other character stands for itself. */
  lemma EscapeExact(ascii: bool, c: char)
    ensures c == '"' ==> Escape(ascii, c) == "\\\""
    ensures c == '\\' ==> Escape(ascii, c) == "\\\\"
    ensures c == '\n' ==> Escape(ascii, c) == "\\n"
    ensures c == '\r' ==> Escape(ascii, c) == "\\r"
    ensures c == '\t' ==> Escape(ascii, c) == "\\t"
    ensures c as int == 8 ==> Escape(ascii, c) == "\\b"
    ensures c as int == 12 ==> Escape(ascii, c) == "\\f"
    ensures c as int < 32 && c as int !in {8, 9, 10, 12, 13} ==> UnitShaped(Escape(ascii, c))
    ensures 32 <= c as int <= 126 && c != '"' && c != '\\' ==> Escape(ascii, c) == [c]
    ensures c as int > 126 && !ascii ==> Escape(ascii, c) == [c]
    ensures 126 < c as int < 0x10000 && ascii ==> UnitShaped(Escape(ascii, c))
    ensures c as int >= 0x10000 && ascii ==>
              |Escape(ascii, c)| == 12 && UnitShaped(Escape(ascii, c)[..6]) && UnitShaped(Escape(ascii, c)[6..])
  {
    NoShortForm(c);
    UnitsShaped(c);
    ShortForms();
    hide ShortEscape, Units;
  }

  lemma NoShortForm(c: char)
    ensures c as int !in {8, 9, 10, 12, 13, 34, 92} <==> ShortEscape(c) == None
  {
  }

  lemma ShortForms()
    ensures ShortEscape('"') == Some('"') && ShortEscape('\\') == Some('\\') && ShortEscape('\n') == Some('n')
    ensures ShortEscape('\r') == Some('r') && ShortEscape('\t') == Some('t')
    ensures forall c: char :: (c as int == 8 ==> ShortEscape(c) == Some('b')) && (c as int == 12 ==> ShortEscape(c) == Some('f'))
  {
  }

  lemma UnitShape(n: nat)
    requires n < 0x10000
    ensures UnitShaped(Unit(n))
  {
    DigitsSmall();
    hide HexDigit, SmallHex;
    var s := Unit(n);
    assert s[0] == '\\' && s[1] == 'u' && s[2] == Hex4(n)[0] && s[3] == Hex4(n)[1] && s[4] == Hex4(n)[2] && s[5] == Hex4(n)[3];
  }

  lemma DigitsSmall()
    ensures forall d :: 0 <= d < 16 ==> SmallHex(HexDigit(d))
  {
  }

  lemma UnitsShaped(c: char)
    ensures c as int < 0x10000 ==> UnitShaped(Units(c))
    ensures c as int >= 0x10000 ==> |Units(c)| == 12 && UnitShaped(Units(c)[..6]) && UnitShaped(Units(c)[6..])
  {
    hide UnitShaped, Unit;
    if c as int < 0x10000 {
      UnitShape(c as int);
    } else {
      var hi, lo := 0xd800 + (c as int - 0x10000) / 0x400, 0xdc00 + (c as int - 0x10000) % 0x400;
      UnitShape(hi);
      UnitShape(lo);
      Halves(Unit(hi), Unit(lo));
    }
  }

  lemma Halves(a: string, b: string)
    requires UnitShaped(a) && UnitShaped(b)
    ensures |a + b| == 12 && (a + b)[..6] == a && (a + b)[6..] == b
  {
  }

  // ------------------------------------------------------------ whole texts

  /** No control character, and with `ensure_ascii` nothing beyond the tilde. */
  predicate Clean(st: Style, c: char) {
    c as int >= 32 && (st.ascii ==> c as int <= 126)
  }

  ghost predicate AllClean(st: Style, s: string) {
    forall i :: 0 <= i < |s| ==> Clean(st, s[i])
  }

  lemma EscapeClean(st: Style, c: char)
    ensures AllClean(st, Escape(st.ascii, c))
  {
    EscapeExact(st.ascii, c);
    hide Escape;
    var e := Escape(st.ascii, c);
    if c as int >= 0x10000 && st.ascii {
      assert e == e[..6] + e[6..];
    }
  }

  lemma {:induction false} EscapeAllClean(st: Style, s: string)
    ensures AllClean(st, EscapeAll(st.ascii, s))
  {
    if s != "" {
      hide Escape, Clean;
      EscapeClean(st, s[0]);
      EscapeAllClean(st, s[1..]);
    }
  }

  lemma QuoteClean(st: Style, s: string)
    ensures AllClean(st, Quote(st.ascii, s))
  {
    EscapeAllClean(st, s);
    hide EscapeAll;
  }

  lemma {:induction false} DecimalClean(st: Style, n: nat)
    ensures AllClean(st, Decimal(n))
  {
    if n >= 10 {
      DecimalClean(st, n / 10);
    }
  }

  lemma JoinClean(st: Style, a: string, b: string)
    requires AllClean(st, a) && AllClean(st, b)
    ensures AllClean(st, a + b)
  {
    hide Clean;
  }

  lemma MarksClean(st: Style)
    ensures AllClean(st, "null") && AllClean(st, "true") && AllClean(st, "false") && AllClean(st, "-") && AllClean(st, "[") && AllClean(st, "]")
    ensures AllClean(st, "{") && AllClean(st, "}") && AllClean(st, ItemSeparator(st)) && AllClean(st, KeySeparator(st)) && AllClean(st, "")
  {
  }

  /** Printed JSON never holds a control character, and no character beyond ASCII when
      `ensure_ascii` is on. */
  lemma {:induction false} PrintClean(st: Style, j: Json)
    ensures AllClean(st, Print(st, j))
    decreases j, 1
  {
    MarksClean(st);
    hide AllClean, Quote, Decimal;
    match j
    case Null =>
    case Bool(_) =>
    case Int(n) =>
      if n < 0 {
        DecimalClean(st, -n);
        JoinClean(st, "-", Decimal(-n));
      } else {
        DecimalClean(st, n);
      }
    case Str(s) => QuoteClean(st, s);
    case Arr(items) =>
      ItemsClean(st, items);
      JoinClean(st, "[", PrintItems(st, items));
      JoinClean(st, "[" + PrintItems(st, items), "]");
    case Obj(fields) =>
      FieldsClean(st, fields);
      JoinClean(st, "{", PrintFields(st, fields));
      JoinClean(st, "{" + PrintFields(st, fields), "}");
  }

  lemma {:induction false} ItemsClean(st: Style, items: seq<Json>)
    ensures AllClean(st, PrintItems(st, items))
    decreases items, 0
  {
    MarksClean(st);
    hide AllClean, Print, ItemSeparator;
    if items != [] {
      PrintClean(st, items[0]);
      if |items| > 1 {
        ItemsClean(st, items[1..]);
        JoinClean(st, ItemSeparator(st), PrintItems(st, items[1..]));
        JoinClean(st, Print(st, items[0]), ItemSeparator(st) + PrintItems(st, items[1..]));
      } else {
        JoinClean(st, Print(st, items[0]), "");
      }
    }
  }

  lemma {:induction false} FieldsClean(st: Style, fields: seq<Field>)
    ensures AllClean(st, PrintFields(st, fields))
    decreases fields, 0
  {
    MarksClean(st);
    hide AllClean, Print, Quote, ItemSeparator, KeySeparator;
    if fields != [] {
      var f := fields[0];
      QuoteClean(st, f.key);
      PrintClean(st, f.value);
      JoinClean(st, Quote(st.ascii, f.key), KeySeparator(st));
      JoinClean(st, Quote(st.ascii, f.key) + KeySeparator(st), Print(st, f.value));
      if |fields| > 1 {
        FieldsClean(st, fields[1..]);
        JoinClean(st, ItemSeparator(st), PrintFields(st, fields[1..]));
        JoinClean(st, PrintField(st, f), ItemSeparator(st) + PrintFields(st, fields[1..]));
      } else {
        JoinClean(st, PrintField(st, f), "");
      }
    }
  }

  // ------------------------------------------------------------- compact texts

  /** No space in any string or key. */
  ghost predicate Blankless(j: Json)
    decreases j, 1
  {
    match j
    case Str(s) => ' ' !in s
    case Arr(items) => forall i :: 0 <= i < |items| ==> Blankless(items[i])
    case Obj(fields) => forall i :: 0 <= i < |fields| ==> ' ' !in fields[i].key && Blankless(fields[i].value)
    case _ => true
  }

  lemma EscapeBlankless(ascii: bool, c: char)
    requires c != ' '
    ensures ' ' !in Escape(ascii, c)
  {
    EscapeExact(ascii, c);
    hide Escape;
    var e := Escape(ascii, c);
    if c as int >= 0x10000 && ascii {
      assert e == e[..6] + e[6..];
    }
  }

  lemma {:induction false} QuoteBlankless(ascii: bool, s: string)
    requires ' ' !in s
    ensures ' ' !in EscapeAll(ascii, s) && ' ' !in Quote(ascii, s)
  {
    if s != "" {
      hide Escape;
      EscapeBlankless(ascii, s[0]);
      QuoteBlankless(ascii, s[1..]);
    }
  }

  lemma {:induction false} DecimalBlankless(n: nat)
    ensures ' ' !in Decimal(n)
  {
    if n >= 10 {
      DecimalBlankless(n / 10);
    }
  }

  /** Compact text has no blank outside the strings it prints. */
  lemma {:induction false} CompactBlankless(st: Style, j: Json)
    requires !st.spaced && Blankless(j)
    ensures ' ' !in Print(st, j)
    decreases j, 1
  {
    hide Quote, Decimal;
    match j
    case Null =>
    case Bool(_) =>
    case Int(n) =>
      DecimalBlankless(if n < 0 then -n else n);
    case Str(s) => QuoteBlankless(st.ascii, s);
    case Arr(items) => ItemsBlankless(st, items);
    case Obj(fields) => FieldsBlankless(st, fields);
  }

  lemma {:induction false} ItemsBlankless(st: Style, items: seq<Json>)
    requires !st.spaced && forall i :: 0 <= i < |items| ==> Blankless(items[i])
    ensures ' ' !in PrintItems(st, items)
    decreases items, 0
  {
    hide Print, Blankless;
    if items != [] {
      CompactBlankless(st, items[0]);
      ItemsBlankless(st, items[1..]);
    }
  }

  lemma {:induction false} FieldsBlankless(st: Style, fields: seq<Field>)
    requires !st.spaced && forall i :: 0 <= i < |fields| ==> ' ' !in fields[i].key && Blankless(fields[i].value)
    ensures ' ' !in PrintFields(st, fields)
    decreases fields, 0
  {
    hide Print, Quote, Blankless;
    if fields != [] {
      QuoteBlankless(st.ascii, fields[0].key);
      CompactBlankless(st, fields[0].value);
      FieldsBlankless(st, fields[1..]);
    }
  }
}
