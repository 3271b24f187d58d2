/** The Python string operations the program uses. */
module Text {

  /** The characters `str.strip()` removes. */
  predicate IsBlank(c: char) {
    var n := c as int;
    9 <= n <= 13 || 28 <= n <= 32 || n == 0x85 || n == 0xa0 || n == 0x1680 || 0x2000 <= n <= 0x200a ||
    n == 0x2028 || n == 0x2029 || n == 0x202f || n == 0x205f || n == 0x3000
  }

  function StripLeft(s: string): string {
    if s != "" && IsBlank(s[0]) then StripLeft(s[1..]) else s
  }

  function StripRight(s: string): string {
    if s != "" && IsBlank(s[|s| - 1]) then StripRight(s[..|s| - 1]) else s
  }

  function Strip(s: string): string {
    StripRight(StripLeft(s))
  }

  /** No blank at either end, and not empty. */
  predicate Trimmed(s: string) {
    s != "" && !IsBlank(s[0]) && !IsBlank(s[|s| - 1])
  }

  function LowerChar(c: char): char {
    if 'A' <= c <= 'Z' then (c as int + 32) as char else c
  }

  /** `str.lower()` on ASCII letters. No other character lowers to a letter of the
      words it is compared with. */
  function Lower(s: string): (r: string)
    ensures |r| == |s|
    ensures forall i :: 0 <= i < |s| ==> r[i] == LowerChar(s[i])
  {
    seq(|s|, i requires 0 <= i < |s| => LowerChar(s[i]))
  }

  predicate OccursAt(s: string, pattern: string, p: int) {
    0 <= p <= |s| - |pattern| && s[p..p + |pattern|] == pattern
  }

  /** `str.find`: the first occurrence, or -1. */
  function Find(s: string, pattern: string): (p: int)
    ensures p == -1 || OccursAt(s, pattern, p)
    ensures forall q :: OccursAt(s, pattern, q) ==> 0 <= p <= q
  {
    FindFrom(s, pattern, 0)
  }

  function FindFrom(s: string, pattern: string, start: nat): (p: int)
    requires start <= |s|
    ensures p == -1 || (start <= p && OccursAt(s, pattern, p))
    ensures forall q :: start <= q && OccursAt(s, pattern, q) ==> 0 <= p <= q
    decreases |s| - start
  {
    if OccursAt(s, pattern, start) then start
    else if start == |s| then -1
    else FindFrom(s, pattern, start + 1)
  }

  /** `str.rfind`: the last occurrence, or -1. */
  function FindLast(s: string, pattern: string): (p: int)
    ensures p == -1 || OccursAt(s, pattern, p)
    ensures forall q :: OccursAt(s, pattern, q) ==> q <= p
  {
    FindLastFrom(s, pattern, |s|)
  }

  function FindLastFrom(s: string, pattern: string, start: nat): (p: int)
    requires start <= |s|
    ensures p == -1 || (p <= start && OccursAt(s, pattern, p))
    ensures forall q :: q <= start && OccursAt(s, pattern, q) ==> q <= p
  {
    if OccursAt(s, pattern, start) then start
    else if start == 0 then -1
    else FindLastFrom(s, pattern, start - 1)
  }

  // -------------------------------------------------------------------- facts

  lemma {:induction false} StripLeftStops(s: string)
    ensures StripLeft(s) != "" ==> !IsBlank(StripLeft(s)[0])
    ensures StripLeft(s) != "" ==> s != "" && StripLeft(s)[|StripLeft(s)| - 1] == s[|s| - 1]
  {
    if s != "" && IsBlank(s[0]) {
      StripLeftStops(s[1..]);
    }
  }

  lemma {:induction false} StripRightStops(s: string)
    ensures StripRight(s) != "" ==> !IsBlank(StripRight(s)[|StripRight(s)| - 1])
    ensures StripRight(s) != "" ==> s != "" && StripRight(s)[0] == s[0]
  {
    if s != "" && IsBlank(s[|s| - 1]) {
      StripRightStops(s[..|s| - 1]);
    }
  }

  /** What `strip` returns is empty or trimmed. */
  lemma StripTrims(s: string)
    ensures Strip(s) == "" || Trimmed(Strip(s))
  {
    StripLeftStops(s);
    StripRightStops(StripLeft(s));
  }

  lemma TrimmedIsKept(s: string)
    requires Trimmed(s)
    ensures Strip(s) == s
  {
  }

  lemma StripIdempotent(s: string)
    ensures Strip(Strip(s)) == Strip(s)
  {
    StripTrims(s);
    if Strip(s) != "" {
      TrimmedIsKept(Strip(s));
    }
  }

  ghost predicate AllBlank(s: string) {
    forall i :: 0 <= i < |s| ==> IsBlank(s[i])
  }

  ghost predicate HasNonBlank(s: string) {
    exists i :: 0 <= i < |s| && !IsBlank(s[i])
  }

  lemma {:induction false} StripLeftCuts(s: string) returns (before: string)
    ensures AllBlank(before) && s == before + StripLeft(s)
  {
    if s != "" && IsBlank(s[0]) {
      var rest := StripLeftCuts(s[1..]);
      before := [s[0]] + rest;
      assert s == [s[0]] + s[1..];
    } else {
      before := "";
    }
  }

  lemma {:induction false} StripRightCuts(s: string) returns (after: string)
    ensures AllBlank(after) && s == StripRight(s) + after
  {
    if s != "" && IsBlank(s[|s| - 1]) {
      var rest := StripRightCuts(s[..|s| - 1]);
      after := rest + [s[|s| - 1]];
      assert s == s[..|s| - 1] + [s[|s| - 1]];
    } else {
      after := "";
    }
  }

  /** `strip` removes blanks at the two ends and nothing else; what is left is empty only
      if there was nothing but blanks. */
  lemma StripMeans(s: string) returns (before: string, after: string)
    ensures AllBlank(before) && AllBlank(after) && s == before + Strip(s) + after
    ensures Strip(s) == "" || Trimmed(Strip(s))
    ensures Strip(s) != "" <==> HasNonBlank(s)
  {
    StripTrims(s);
    before := StripLeftCuts(s);
    after := StripRightCuts(StripLeft(s));
    assert s == before + (Strip(s) + after) == before + Strip(s) + after;
    if Strip(s) != "" {
      assert s[|before|] == Strip(s)[0];
    } else {
      assert s == before + after;
    }
  }

  // ----------------------------------------------------------- regardless of case

  /** The word, with any of its letters possibly in upper case. */
  predicate IgnoringCase(s: string, word: string) {
    |s| == |word| &&
    forall i :: 0 <= i < |s| ==> s[i] == word[i] || ('a' <= word[i] <= 'z' && s[i] as int == word[i] as int - 32)
  }

  lemma LowerIgnoresCase(s: string, word: string)
    requires forall i :: 0 <= i < |word| ==> 'a' <= word[i] <= 'z'
    ensures Lower(s) == word <==> IgnoringCase(s, word)
  {
  }
}
