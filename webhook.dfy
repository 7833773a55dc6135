/**
 * The quality rating the webhook handler reads out of a review text
 * (`extractRate` and `clampRate`), and the webhook-token gate in front of it.
 */
module Webhook {
  import opened Common
  import opened Text

  const IntMax: int := 0x7FFF_FFFF

  /** `clampRate`: the rating is kept within 0..100. */
  function ClampRate(rate: int): (r: int)
    ensures 0 <= r <= 100
    ensures rate <= 0 ==> r == 0
    ensures rate >= 100 ==> r == 100
    ensures 0 <= rate <= 100 ==> r == rate
  {
    if rate <= 0 then 0 else if 100 < rate then 100 else rate
  }

  // ---------------------------------------------------------------------------
  // Splitting into lines: `feedback.split("\\r?\\n")`

  function DropCr(piece: string): string
  {
    if piece != [] && piece[|piece| - 1] == '\r' then piece[..|piece| - 1] else piece
  }

  /** The pieces between line feeds; `cur` is the piece read so far. A `\r` just before a `\n` belongs to the separator. */
  function LinePieces(s: string, cur: string): (r: seq<string>)
    ensures r != []
    decreases |s|
  {
    if s == [] then [cur]
    else if s[0] == '\n' then [DropCr(cur)] + LinePieces(s[1..], "")
    else LinePieces(s[1..], cur + [s[0]])
  }

  /** Without a line feed, the rest of the text is the last piece. */
  lemma {:induction false} LinePiecesWithoutFeed(s: string, cur: string)
    requires '\n' !in s
    ensures LinePieces(s, cur) == [cur + s]
    decreases |s|
  {
    if s != [] {
      LinePiecesWithoutFeed(s[1..], cur + [s[0]]);
      assert cur + [s[0]] + s[1..] == cur + s;
    } else {
      assert cur + s == cur;
    }
  }

  /** A line feed ends the current piece; the piece loses one `\r` just before the feed. */
  lemma {:induction false} LinePiecesAtFeed(a: string, b: string, cur: string)
    requires '\n' !in a
    ensures LinePieces(a + "\n" + b, cur) == [DropCr(cur + a)] + LinePieces(b, "")
    decreases |a|
  {
    if a == [] {
      assert a + "\n" + b == "\n" + b;
      assert ("\n" + b)[1..] == b;
      assert cur + a == cur;
    } else {
      assert (a + "\n" + b)[0] == a[0];
      assert (a + "\n" + b)[1..] == a[1..] + "\n" + b;
      LinePiecesAtFeed(a[1..], b, cur + [a[0]]);
      assert cur + [a[0]] + a[1..] == cur + a;
    }
  }

  /** The lines of a text, as Java's `split` gives them (trailing empty lines dropped). */
  function Lines(text: string): seq<string>
  {
    if '\n' !in text then [text] else DropTrailingEmpty(LinePieces(text, ""))
  }

  // ---------------------------------------------------------------------------
  // The pattern `\b(\d{1,3})\b`

  /** The pattern matches `s[start..start + len]`: 1 to 3 digits with a word boundary on either side. */
  predicate BoundedNumberAt(s: string, start: int, len: int)
  {
    1 <= len <= 3 && 0 <= start && start + len <= |s|
    && IsDigit(s[start]) && (len >= 2 ==> IsDigit(s[start + 1])) && (len == 3 ==> IsDigit(s[start + 2]))
    && (start == 0 || !IsWordChar(s[start - 1]))
    && (start + len == |s| || !IsWordChar(s[start + len]))
  }

  datatype Match = Match(start: nat, len: nat)

  /** The length the matcher settles on at `start`: it tries 3, then 2, then 1 digits. */
  function MatchLengthAt(s: string, start: nat): (r: Option<nat>)
    ensures r.Some? ==> BoundedNumberAt(s, start, r.value)
    ensures r.None? ==> forall k :: !BoundedNumberAt(s, start, k)
  {
    if BoundedNumberAt(s, start, 3) then Some(3)
    else if BoundedNumberAt(s, start, 2) then Some(2)
    else if BoundedNumberAt(s, start, 1) then Some(1)
    else None
  }

  /** `Matcher.find()` from position `from`: the leftmost match starting there or later. */
  function Find(s: string, from: nat): (r: Option<Match>)
    requires from <= |s|
    ensures r.Some? ==> from <= r.value.start && BoundedNumberAt(s, r.value.start, r.value.len)
    ensures r.Some? ==> forall i, k :: from <= i < r.value.start ==> !BoundedNumberAt(s, i, k)
    ensures r.None? ==> forall i, k :: from <= i ==> !BoundedNumberAt(s, i, k)
    decreases |s| - from
  {
    if from == |s| then None
    else match MatchLengthAt(s, from)
      case Some(k) => Some(Match(from, k))
      case None => Find(s, from + 1)
  }

  function DigitAt(s: string, i: nat): nat
    requires i < |s| && IsDigit(s[i])
  {
    DigitValue(s[i])
  }

  /** `Integer.parseInt(m.group(1))`, written out for the one to three digits a match has. */
  function MatchValue(s: string, m: Match): nat
    requires BoundedNumberAt(s, m.start, m.len)
  {
    if m.len == 1 then DigitAt(s, m.start)
    else if m.len == 2 then 10 * DigitAt(s, m.start) + DigitAt(s, m.start + 1)
    else 100 * DigitAt(s, m.start) + 10 * DigitAt(s, m.start + 1) + DigitAt(s, m.start + 2)
  }

  /** The value of the last match at or after `from`, or `last` when there is none. */
  function LastFrom(s: string, from: nat, last: int): int
    requires from <= |s|
    decreases |s| - from
  {
    match Find(s, from)
    case None => last
    case Some(m) => LastFrom(s, m.start + m.len, MatchValue(s, m))
  }

  /** The last bounded number of a text, 0 when it has none. */
  function LastNumber(s: string): int { LastFrom(s, 0, 0) }

  /** The first bounded number of a line. */
  function FirstNumber(line: string): Option<nat>
  {
    match Find(line, 0)
    case None => None
    case Some(m) => Some(MatchValue(line, m))
  }

  // ---------------------------------------------------------------------------
  // The line scan

  /** A line triggers the rating logic when its lower-cased text contains "rate" anywhere. */
  predicate IsTrigger(line: string) { Contains(Lower(line), "rate") }

  /** `Integer.parseInt` of a digit string: no digits, or a value beyond `int`, is a NumberFormatException. */
  function ParseDigits(d: string): (r: Option<nat>)
    requires AllDigits(d)
    ensures r.Some? <==> d != [] && DigitsValue(d) <= IntMax
    ensures r.Some? ==> r.value == DigitsValue(d)
  {
    if d == [] || DigitsValue(d) > IntMax then None else Some(DigitsValue(d))
  }

  /** The decimal text of any number up to `Integer.MAX_VALUE` parses back to that number. */
  lemma ParseDigitsOfPrinted(n: nat)
    requires n <= IntMax
    ensures ParseDigits(NatToString(n)) == Some(n)
  {
    NatToStringValue(n);
  }

  /** The number made of all the digits of the line after line `i`, when there is such a line and it parses. */
  function NextLineNumber(lines: seq<string>, i: nat): Option<nat>
  {
    if i + 1 < |lines| then ParseDigits(KeepDigits(Trim(lines[i + 1]))) else None
  }

  /** What a trigger line yields: the next line's digits, else the first bounded number on the line itself. */
  function TriggerRate(lines: seq<string>, i: nat): (r: Option<int>)
    requires i < |lines|
    ensures r.Some? ==> 0 <= r.value <= 100
  {
    match NextLineNumber(lines, i)
    case Some(v) => Some(ClampRate(v))
    case None =>
      match FirstNumber(lines[i])
      case Some(v) => Some(ClampRate(v))
      case None => None
  }

  /** A line from which the scan returns. */
  predicate Yields(lines: seq<string>, i: nat)
    requires i < |lines|
  {
    IsTrigger(lines[i]) && TriggerRate(lines, i).Some?
  }

  /** The scan from line `i` on: the first line that yields decides. */
  function ScanLines(lines: seq<string>, i: nat): (r: Option<int>)
    requires i <= |lines|
    ensures r.Some? ==> 0 <= r.value <= 100
    decreases |lines| - i
  {
    if i == |lines| then None
    else if Yields(lines, i) then TriggerRate(lines, i)
    else ScanLines(lines, i + 1)
  }

  /** The rating `extractRate` returns for a review text. */
  function Rate(feedback: string): (r: int)
    ensures 0 <= r <= 100
  {
    match ScanLines(Lines(feedback), 0)
    case Some(v) => v
    case None => ClampRate(LastNumber(feedback))
  }

  /** The `while (m.find())` loop of `extractRate`: the value of the last match, 0 when there is none. */
  method LastBoundedNumber(text: string) returns (last: int)
    ensures last == LastNumber(text)
  {
    var pos: nat := 0;
    last := 0;
    var m := Find(text, pos);
    while m.Some?
      invariant pos <= |text|
      invariant m == Find(text, pos)
      invariant LastFrom(text, pos, last) == LastNumber(text)
      decreases |text| - pos
    {
      last := MatchValue(text, m.value);
      pos := m.value.start + m.value.len;
      m := Find(text, pos);
    }
  }

  /** `extractRate`: the indexed scan over the lines with early returns, then the matcher loop over the whole text. */
  method ExtractRate(feedback: string) returns (rate: int)
    ensures rate == Rate(feedback)
    ensures 0 <= rate <= 100
  {
    var lines := Lines(feedback);
    for i := 0 to |lines|
      invariant ScanLines(lines, i) == ScanLines(lines, 0)
    {
      var line := Lower(lines[i]);
      if Contains(line, "rate") {
        if i + 1 < |lines| {
          var next := Trim(lines[i + 1]);
          var parsed := ParseDigits(KeepDigits(next));
          if parsed.Some? {
            assert NextLineNumber(lines, i) == parsed;
            assert Yields(lines, i);
            return ClampRate(parsed.value);
          }
        }
        assert NextLineNumber(lines, i).None?;
        var m := Find(lines[i], 0);
        if m.Some? {
          assert FirstNumber(lines[i]) == Some(MatchValue(lines[i], m.value));
          assert Yields(lines, i);
          return ClampRate(MatchValue(lines[i], m.value));
        }
        assert !Yields(lines, i);
      }
    }
    assert Rate(feedback) == ClampRate(LastNumber(feedback));
    var last := LastBoundedNumber(feedback);
    rate := ClampRate(last);
  }

  // ---------------------------------------------------------------------------
  // What the pattern can and cannot match

  /** At a given position the pattern can match only one length, so the greedy choice is the only one. */
  lemma MatchLengthUnique(s: string, i: int, k1: int, k2: int)
    requires BoundedNumberAt(s, i, k1) && BoundedNumberAt(s, i, k2)
    ensures k1 == k2
  {
  }

  /** No match starts strictly inside another one: matches are disjoint. */
  lemma MatchesDisjoint(s: string, i: int, k: int, j: int, k': int)
    requires BoundedNumberAt(s, i, k) && BoundedNumberAt(s, j, k') && i < j
    ensures i + k <= j
  {
  }

  /** The value of a match is the decimal value of its digits, so at most 999. */
  lemma MatchValueIsParsed(s: string, m: Match)
    requires BoundedNumberAt(s, m.start, m.len)
    ensures AllDigits(s[m.start..m.start + m.len])
    ensures MatchValue(s, m) == DigitsValue(s[m.start..m.start + m.len])
    ensures MatchValue(s, m) <= 999
  {
    var i := m.start;
    var d := s[i..i + m.len];
    assert DigitsValue(s[i..i + 1]) == DigitAt(s, i) by {
      assert s[i..i + 1][..0] == [];
    }
    if m.len >= 2 {
      assert DigitsValue(s[i..i + 2]) == 10 * DigitAt(s, i) + DigitAt(s, i + 1) by {
        assert s[i..i + 2][..1] == s[i..i + 1];
      }
    }
    if m.len == 3 {
      assert d[..2] == s[i..i + 2];
    }
  }

  /** A run of four or more digits is never matched, not even in part. */
  lemma NoMatchTouchesLongRun(s: string, a: int, b: int, i: int, k: int)
    requires 0 <= a && a + 4 <= b <= |s| && AllDigits(s[a..b])
    requires BoundedNumberAt(s, i, k)
    ensures i + k <= a || b <= i
  {
  }

  /** A match ends the first step of the matcher loop: the loop goes on after it with its value. */
  lemma LastFromStep(s: string, from: nat, last: int, m: Match)
    requires from <= |s| && Find(s, from) == Some(m)
    ensures LastFrom(s, from, last) == LastFrom(s, m.start + m.len, MatchValue(s, m))
  {
  }

  /** Without a further match the loop keeps the value it has. */
  lemma LastFromWithoutMatch(s: string, from: nat, last: int)
    requires from <= |s| && Find(s, from).None?
    ensures LastFrom(s, from, last) == last
  {
  }

  /** When the next match is the last one, the loop ends on its value. */
  lemma LastFromFinal(s: string, from: nat, last: int, m: Match)
    requires from <= |s| && Find(s, from) == Some(m)
    requires Find(s, m.start + m.len).None?
    ensures LastFrom(s, from, last) == MatchValue(s, m)
  {
    LastFromStep(s, from, last, m);
    LastFromWithoutMatch(s, m.start + m.len, MatchValue(s, m));
  }

  /** A match at `i` or later guarantees that `find` from `from` succeeds, at `i` at the latest. */
  lemma FindReaches(s: string, from: nat, i: int, k: int)
    requires from <= i && BoundedNumberAt(s, i, k)
    ensures from <= |s| && Find(s, from).Some? && Find(s, from).value.start <= i
  {
  }

  /** The matcher loop ends on the match at `i` when there is no match after it. */
  lemma {:induction false} LastFromIsLast(s: string, from: nat, last: int, i: nat, k: nat)
    requires from <= i && BoundedNumberAt(s, i, k)
    requires Find(s, i + k).None?
    ensures LastFrom(s, from, last) == MatchValue(s, Match(i, k))
    decreases |s| - from
  {
    FindReaches(s, from, i, k);
    var m := Find(s, from).value;
    if m.start == i {
      MatchLengthUnique(s, i, m.len, k);
      LastFromFinal(s, from, last, m);
    } else {
      MatchesDisjoint(s, m.start, m.len, i, k);
      LastFromStep(s, from, last, m);
      LastFromIsLast(s, m.start + m.len, MatchValue(s, m), i, k);
    }
  }

  /** The whole-text fallback reads the last bounded number, or 0 when the text has none. */
  lemma LastNumberSpec(s: string)
    ensures (forall i, k :: !BoundedNumberAt(s, i, k)) ==> LastNumber(s) == 0
    ensures forall i, k :: BoundedNumberAt(s, i, k) && (forall j, k' :: i < j ==> !BoundedNumberAt(s, j, k'))
              ==> AllDigits(s[i..i + k]) && LastNumber(s) == DigitsValue(s[i..i + k])
  {
    forall i, k | BoundedNumberAt(s, i, k) && (forall j, k' :: i < j ==> !BoundedNumberAt(s, j, k'))
      ensures AllDigits(s[i..i + k]) && LastNumber(s) == DigitsValue(s[i..i + k])
    {
      LastFromIsLast(s, 0, 0, i, k);
      MatchValueIsParsed(s, Match(i, k));
    }
  }

  // ---------------------------------------------------------------------------
  // What the scan returns

  lemma {:induction false} ScanSkipsBarrenLines(lines: seq<string>, from: nat, i: nat)
    requires from <= i <= |lines|
    requires forall j :: from <= j < i ==> !Yields(lines, j)
    ensures ScanLines(lines, from) == ScanLines(lines, i)
    decreases i - from
  {
    if from < i {
      ScanSkipsBarrenLines(lines, from + 1, i);
    }
  }

  /**
   * The first line that yields decides the rating, however many trigger lines before it
   * yielded nothing and whatever follows it.
   */
  lemma FirstYieldingLineDecides(feedback: string, i: nat)
    requires i < |Lines(feedback)| && Yields(Lines(feedback), i)
    requires forall j :: 0 <= j < i ==> !Yields(Lines(feedback), j)
    ensures Rate(feedback) == TriggerRate(Lines(feedback), i).value
  {
    ScanSkipsBarrenLines(Lines(feedback), 0, i);
  }

  /** When no line yields, the rating is the clamped last bounded number of the whole text. */
  lemma NoYieldingLineFallsBack(feedback: string)
    requires forall j :: 0 <= j < |Lines(feedback)| ==> !Yields(Lines(feedback), j)
    ensures Rate(feedback) == ClampRate(LastNumber(feedback))
  {
    ScanSkipsBarrenLines(Lines(feedback), 0, |Lines(feedback)|);
  }
}
