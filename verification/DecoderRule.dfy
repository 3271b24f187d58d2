/** The source-rewriting rule that hoists a JSON decoder into a module constant, and
    why one application is the last: the rewritten source no longer has the call. */
module DecoderRule {
  import opened Json
  import opened Text

  const CALL := "json.JSONDecoder().raw_decode(text[start:])"
  const ANCHOR := "_MAX_STEPS = 32\n"
  const INSERTED := "_RSI_JSON_DECODER = json.JSONDecoder()\n"
  const HOISTED := "_RSI_JSON_DECODER.raw_decode(text[start:])"

  /** `str.count`: occurrences that do not overlap, from the left. */
  function Count(s: string, pattern: string): nat
    requires pattern != ""
    decreases |s|
  {
    var p := Find(s, pattern);
    if p < 0 then 0 else 1 + Count(s[p + |pattern|..], pattern)
  }

  /** `s.replace(pattern, new, 1)`. */
  function ReplaceFirst(s: string, pattern: string, new_: string): string {
    var p := Find(s, pattern);
    if p < 0 then s else s[..p] + new_ + s[p + |pattern|..]
  }

  /** `_decoder_rule`. */
  function Rule(before: string): Option<string> {
    if Count(before, CALL) != 1 || Count(before, ANCHOR) != 1 then None
    else Some(ReplaceFirst(ReplaceFirst(before, ANCHOR, ANCHOR + INSERTED), CALL, HOISTED))
  }

  // ------------------------------------------------------------ about the texts

  /** The first character of a pattern is nowhere else in it, and it fits on a line. */
  ghost predicate Distinctive(call: string) {
    && call != ""
    && (forall k :: 0 < k < |call| ==> call[k] != call[0])
    && (forall k :: 0 <= k < |call| ==> call[k] != '\n')
  }

  /** A text that can stand in for the call without forming one with what is beside it. */
  ghost predicate Replaces(hoisted: string, call: string) {
    && |call| > 0 && |hoisted| >= 2
    && (forall k :: 0 <= k < |hoisted| ==> hoisted[k] != call[0])
    && (forall k :: 0 <= k < |call| && call[k] == hoisted[0] ==> k + 1 < |call| && call[k + 1] != hoisted[1])
  }

  ghost predicate EndsLine(s: string) {
    s != "" && s[|s| - 1] == '\n'
  }

  lemma CallShape()
    ensures Distinctive(CALL)
  {
  }

  lemma HoistedShape()
    ensures Replaces(HOISTED, CALL)
  {
  }

  lemma LineShapes()
    ensures EndsLine(ANCHOR) && EndsLine(INSERTED) && |INSERTED| < |CALL|
  {
  }

  // --------------------------------------------------- counting and occurrences

  lemma OccursShift(s: string, pattern: string, from: nat, q: int)
    requires from <= |s|
    ensures OccursAt(s[from..], pattern, q) ==> OccursAt(s, pattern, from + q)
    ensures q >= from && OccursAt(s, pattern, q) ==> OccursAt(s[from..], pattern, q - from)
  {
    if OccursAt(s[from..], pattern, q) {
      assert s[from..][q..q + |pattern|] == s[from + q..from + q + |pattern|];
    }
    if q >= from && OccursAt(s, pattern, q) {
      assert s[from..][q - from..q - from + |pattern|] == s[q..q + |pattern|];
    }
  }

  ghost predicate OnlyAt(s: string, pattern: string, p: int) {
    OccursAt(s, pattern, p) && forall q :: OccursAt(s, pattern, q) ==> q == p
  }

  lemma NoCount(s: string, pattern: string)
    requires pattern != ""
    requires forall p :: !OccursAt(s, pattern, p)
    ensures Count(s, pattern) == 0
  {
    assert !OccursAt(s, pattern, Find(s, pattern));
  }

  lemma OccurrenceAt(s: string, pattern: string, p: int, k: int)
    requires OccursAt(s, pattern, p) && 0 <= k < |pattern|
    ensures s[p + k] == pattern[k]
  {
    assert s[p..p + |pattern|][k] == s[p + k];
  }

  /** A count of one means one occurrence: a distinctive pattern does not overlap
      itself. */
  lemma OneOccurrence(s: string, call: string, p: int)
    requires Distinctive(call) && Count(s, call) == 1 && OccursAt(s, call, p)
    ensures p == Find(s, call)
  {
    var first := Find(s, call);
    var rest := first + |call|;
    if first < p < rest {
      OccurrenceAt(s, call, p, 0);
      OccurrenceAt(s, call, first, p - first);
    } else if rest <= p {
      OccursShift(s, call, rest, p);
    }
  }

  // ------------------------------------------------------------- the insertion

  /** An inserted line shorter than the call neither holds one nor completes one: an
      occurrence in the new text is an occurrence in the old text. */
  lemma LineAddsNoCall(left: string, line: string, right: string, call: string, p: int)
    requires Distinctive(call) && EndsLine(left) && EndsLine(line) && |line| < |call|
    requires OccursAt(left + line + right, call, p)
    ensures p + |call| <= |left| || p >= |left| + |line|
    ensures OccursAt(left + right, call, if p < |left| then p else p - |line|)
  {
    var s := left + line + right;
    if p < |left| < p + |call| {
      OccurrenceAt(s, call, p, |left| - 1 - p);
    } else if |left| <= p < |left| + |line| {
      OccurrenceAt(s, call, p, |left| + |line| - 1 - p);
    }
    if p < |left| {
      assert (left + right)[p..p + |call|] == s[p..p + |call|];
    } else {
      assert (left + right)[p - |line|..p - |line| + |call|] == s[p..p + |call|];
    }
  }

  /** No occurrence is lost either: none spans the end of a line. */
  lemma LineKeepsCall(left: string, line: string, right: string, call: string, p: int)
    requires Distinctive(call) && EndsLine(left)
    requires OccursAt(left + right, call, p)
    ensures OccursAt(left + line + right, call, if p < |left| then p else p + |line|)
  {
    var s := left + line + right;
    if p < |left| {
      if |left| < p + |call| {
        OccurrenceAt(left + right, call, p, |left| - 1 - p);
      }
      assert (left + right)[p..p + |call|] == s[p..p + |call|];
    } else {
      assert (left + right)[p..p + |call|] == s[p + |line|..p + |line| + |call|];
    }
  }

  // ------------------------------------------------------------ the replacement

  /** Putting the hoisted text in place of the only call leaves no call, not even one
      that spans an edge of the replacement. */
  lemma ReplacementLeavesNoCall(left: string, call: string, hoisted: string, right: string, p: int)
    requires Replaces(hoisted, call)
    requires forall q :: OccursAt(left + call + right, call, q) ==> q == |left|
    ensures !OccursAt(left + hoisted + right, call, p)
  {
    var before, after := left + call + right, left + hoisted + right;
    if OccursAt(after, call, p) {
      if p + |call| <= |left| {
        assert before[p..p + |call|] == after[p..p + |call|];
        assert OccursAt(before, call, p);
      } else if p >= |left| + |hoisted| {
        var q := p - |hoisted| + |call|;
        assert before[q..q + |call|] == after[p..p + |call|];
        assert OccursAt(before, call, q);
      } else if p < |left| {
        var k := |left| - p;
        OccurrenceAt(after, call, p, k);
        assert call[k] == hoisted[0];
        OccurrenceAt(after, call, p, k + 1);
      } else {
        OccurrenceAt(after, call, p, 0);
      }
    }
  }

  // ------------------------------------------------------------------- theorems

  /** Where a source is cut: after the anchor's line. */
  function Cut(before: string, anchor: string): (a: nat)
    requires Find(before, anchor) >= 0
    ensures |anchor| <= a <= |before|
  {
    Find(before, anchor) + |anchor|
  }

  /** After the insertion the call still occurs once, at its old place or moved by the
      inserted line. */
  lemma CallAfterInsertion(before: string, anchor: string, line: string, call: string)
    requires Distinctive(call) && EndsLine(anchor) && EndsLine(line) && |line| < |call|
    requires Find(before, anchor) >= 0 && Count(before, call) == 1
    ensures var a := Cut(before, anchor);
            var middle := before[..a] + line + before[a..];
            var c := Find(before, call);
            && 0 <= c <= c + |call| <= |before| && (c + |call| <= a || a <= c)
            && OnlyAt(middle, call, if c < a then c else c + |line|)
  {
    var a, c := Cut(before, anchor), Find(before, call);
    AnchorEndsLine(before, anchor);
    forall q | OccursAt(before, call, q) ensures q == c {
      OneOccurrence(before, call, q);
    }
    assert OnlyAt(before, call, c);
    hide *;
    assert before[..a] + before[a..] == before;
    CallMoves(before[..a], line, before[a..], call, c);
  }

  /** The only call stays the only call when a line is inserted between two lines. */
  lemma CallMoves(left: string, line: string, right: string, call: string, c: int)
    requires Distinctive(call) && EndsLine(left) && EndsLine(line) && |line| < |call|
    requires OnlyAt(left + right, call, c)
    ensures 0 <= c <= c + |call| <= |left + right| && (c + |call| <= |left| || |left| <= c)
    ensures OnlyAt(left + line + right, call, if c < |left| then c else c + |line|)
  {
    LineKeepsCall(left, line, right, call, c);
    LineAddsNoCall(left, line, right, call, if c < |left| then c else c + |line|);
    hide Distinctive, EndsLine;
    forall q | OccursAt(left + line + right, call, q) ensures q == if c < |left| then c else c + |line| {
      LineAddsNoCall(left, line, right, call, q);
    }
  }

  /** Both replacements of the rule, on any texts of these shapes, leave no call. */
  lemma TwoEditsLeaveNoCall(before: string, anchor: string, line: string, call: string, hoisted: string, p: int)
    requires Distinctive(call) && Replaces(hoisted, call)
    requires EndsLine(anchor) && EndsLine(line) && |line| < |call|
    requires Find(before, anchor) >= 0 && Count(before, call) == 1
    ensures !OccursAt(ReplaceFirst(ReplaceFirst(before, anchor, anchor + line), call, hoisted), call, p)
  {
    var a := Cut(before, anchor);
    var middle := before[..a] + line + before[a..];
    InsertedAfter(before, anchor, line);
    CallAfterInsertion(before, anchor, line, call);
    var c := Find(middle, call);
    CutAt(middle, call, c);
    ReplacementLeavesNoCall(middle[..c], call, hoisted, middle[c + |call|..], p);
  }

  /** What the two replacements do to the source: the line after the anchor, the hoisted
      text for the call, and every other character as it was. */
  lemma TwoEditsInPlace(before: string, anchor: string, line: string, call: string, hoisted: string)
    requires Distinctive(call) && EndsLine(anchor) && EndsLine(line) && |line| < |call|
    requires Find(before, anchor) >= 0 && Count(before, call) == 1
    ensures var a, c := Cut(before, anchor), Find(before, call);
            var after := ReplaceFirst(ReplaceFirst(before, anchor, anchor + line), call, hoisted);
            && (a <= c ==> after == before[..a] + line + before[a..c] + hoisted + before[c + |call|..])
            && (c < a ==> c + |call| <= a && after == before[..c] + hoisted + before[c + |call|..a] + line + before[a..])
  {
    hide *;
    var a, c := Cut(before, anchor), Find(before, call);
    InsertedAfter(before, anchor, line);
    CallAfterInsertion(before, anchor, line, call);
    if a <= c {
      EditAfter(before, line, call, hoisted, a, c);
    } else {
      EditBefore(before, line, call, hoisted, a, c);
    }
  }

  lemma EditAfter(s: string, line: string, call: string, hoisted: string, a: nat, c: nat)
    requires a <= c && c + |call| <= |s|
    requires OnlyAt(s[..a] + line + s[a..], call, c + |line|)
    ensures ReplaceFirst(s[..a] + line + s[a..], call, hoisted) == s[..a] + line + s[a..c] + hoisted + s[c + |call|..]
  {
    var middle := s[..a] + line + s[a..];
    ReplacedAt(middle, call, hoisted, c + |line|);
    PiecesAfter(s, line, a, c, |call|);
    hide *;
  }

  lemma EditBefore(s: string, line: string, call: string, hoisted: string, a: nat, c: nat)
    requires c + |call| <= a <= |s|
    requires OnlyAt(s[..a] + line + s[a..], call, c)
    ensures ReplaceFirst(s[..a] + line + s[a..], call, hoisted) == s[..c] + hoisted + s[c + |call|..a] + line + s[a..]
  {
    var middle := s[..a] + line + s[a..];
    ReplacedAt(middle, call, hoisted, c);
    PiecesBefore(s, line, a, c, |call|);
    Regroup(s[..c] + hoisted, s[c + |call|..a], line, s[a..]);
    hide *;
  }

  lemma ReplacedAt(s: string, pattern: string, new_: string, p: nat)
    requires OnlyAt(s, pattern, p)
    ensures p + |pattern| <= |s|
    ensures ReplaceFirst(s, pattern, new_) == s[..p] + new_ + s[p + |pattern|..]
  {
  }

  lemma PiecesAfter(s: string, line: string, a: nat, c: nat, n: nat)
    requires a <= c && c + n <= |s|
    ensures var middle := s[..a] + line + s[a..];
            && middle[..c + |line|] == s[..a] + line + s[a..c]
            && middle[c + |line| + n..] == s[c + n..]
  {
  }

  lemma PiecesBefore(s: string, line: string, a: nat, c: nat, n: nat)
    requires c + n <= a <= |s|
    ensures var middle := s[..a] + line + s[a..];
            && middle[..c] == s[..c]
            && middle[c + n..] == s[c + n..a] + line + s[a..]
  {
  }

  lemma Regroup(w: string, x: string, y: string, z: string)
    ensures w + (x + y + z) == w + x + y + z
  {
  }

  lemma CutAt(s: string, pattern: string, p: int)
    requires OccursAt(s, pattern, p)
    ensures s == s[..p] + pattern + s[p + |pattern|..]
  {
  }

  lemma AnchorEndsLine(before: string, anchor: string)
    requires EndsLine(anchor) && Find(before, anchor) >= 0
    ensures EndsLine(before[..Find(before, anchor) + |anchor|])
  {
    OccurrenceAt(before, anchor, Find(before, anchor), |anchor| - 1);
  }

  lemma InsertedAfter(before: string, anchor: string, line: string)
    requires Find(before, anchor) >= 0
    ensures var a := Cut(before, anchor);
            ReplaceFirst(before, anchor, anchor + line) == before[..a] + line + before[a..]
  {
    var f := Find(before, anchor);
    var a := f + |anchor|;
    assert before[..a] == before[..f] + anchor;
    assert before[..f] + (anchor + line) + before[a..] == before[..f] + anchor + line + before[a..];
  }

  /** The rule changes its two places and nothing else. */
  lemma RuleEditsInPlace(before: string)
    requires Rule(before).Some?
    ensures Find(before, ANCHOR) >= 0
    ensures var a, c := Cut(before, ANCHOR), Find(before, CALL);
            var after := Rule(before).value;
            && (a <= c ==> after == before[..a] + INSERTED + before[a..c] + HOISTED + before[c + |CALL|..])
            && (c < a ==> c + |CALL| <= a &&
                          after == before[..c] + HOISTED + before[c + |CALL|..a] + INSERTED + before[a..])
  {
    CallShape();
    LineShapes();
    hide CALL, ANCHOR, INSERTED, HOISTED;
    TwoEditsInPlace(before, ANCHOR, INSERTED, CALL, HOISTED);
  }

  /** The rule reaches its fixed point in one application: whatever the source, the
      rewritten text has no occurrence of the call, so the rule no longer fires. */
  lemma RuleAppliesOnce(before: string)
    requires Rule(before).Some?
    ensures forall p :: !OccursAt(Rule(before).value, CALL, p)
    ensures Rule(Rule(before).value) == None
  {
    CallShape();
    HoistedShape();
    LineShapes();
    hide CALL, ANCHOR, INSERTED, HOISTED;
    forall p ensures !OccursAt(Rule(before).value, CALL, p) {
      TwoEditsLeaveNoCall(before, ANCHOR, INSERTED, CALL, HOISTED, p);
    }
    NoCount(Rule(before).value, CALL);
  }

  // ------------------------------------------------------------- when it fires

  /** Occurrences do not overlap. */
  ghost predicate Apart(s: string, pattern: string) {
    forall p, q :: OccursAt(s, pattern, p) && OccursAt(s, pattern, q) && p < q ==> p + |pattern| <= q
  }

  /** Where occurrences do not overlap, counting one means there is exactly one. */
  lemma CountOnce(s: string, pattern: string)
    requires pattern != "" && Apart(s, pattern)
    ensures Count(s, pattern) == 1 <==> exists p :: OnlyAt(s, pattern, p)
  {
    var first := Find(s, pattern);
    if first >= 0 {
      var rest := first + |pattern|;
      if Count(s, pattern) == 1 {
        forall q | OccursAt(s, pattern, q) ensures q == first {
          OccursShift(s, pattern, rest, q);
        }
        assert OnlyAt(s, pattern, first);
      } else if Find(s[rest..], pattern) >= 0 {
        OccursShift(s, pattern, rest, Find(s[rest..], pattern));
        assert OccursAt(s, pattern, rest + Find(s[rest..], pattern));
      }
    }
  }

  lemma CallsApart(s: string, call: string)
    requires Distinctive(call)
    ensures Apart(s, call)
  {
    forall p, q | OccursAt(s, call, p) && OccursAt(s, call, q) && p < q ensures p + |call| <= q {
      if q < p + |call| {
        OccurrenceAt(s, call, p, q - p);
        OccurrenceAt(s, call, q, 0);
      }
    }
  }

  /** One line of text. */
  ghost predicate OneLine(s: string) {
    EndsLine(s) && forall k :: 0 <= k < |s| - 1 ==> s[k] != '\n'
  }

  lemma LinesApart(s: string, line: string)
    requires OneLine(line)
    ensures Apart(s, line)
  {
    forall p, q | OccursAt(s, line, p) && OccursAt(s, line, q) && p < q ensures p + |line| <= q {
      if q < p + |line| {
        OccurrenceAt(s, line, p, |line| - 1);
        OccurrenceAt(s, line, q, |line| - 1 - (q - p));
      }
    }
  }

  lemma AnchorIsOneLine()
    ensures OneLine(ANCHOR)
  {
  }

  /** The rule fires if and only if the call and the anchor line each occur exactly once in
      the source. */
  lemma RuleFiresExactly(before: string)
    ensures Rule(before).Some? <==> (exists p :: OnlyAt(before, CALL, p)) && exists p :: OnlyAt(before, ANCHOR, p)
  {
    CallShape();
    AnchorIsOneLine();
    hide CALL, ANCHOR;
    CallsApart(before, CALL);
    LinesApart(before, ANCHOR);
    CountOnce(before, CALL);
    CountOnce(before, ANCHOR);
  }
}
