/** The three rating examples of the repository's tests, and what the rating logic makes of them. */
module WebhookTests {
  import opened Common
  import opened Text
  import opened Webhook

  // ---------------------------------------------------------------------------
  // Facts about small inputs, stated over parameters so that the literals stay small

  lemma LinesOfTwo(a: string, b: string)
    requires '\n' !in a && '\n' !in b
    requires a != [] && a[|a| - 1] != '\r' && b != [] && b[|b| - 1] != '\r'
    ensures Lines(a + "\n" + b + "\n") == [a, b]
  {
    var text := a + "\n" + b + "\n";
    assert text == a + "\n" + (b + "\n" + "");
    LinePiecesAtFeed(a, b + "\n" + "", "");
    LinePiecesAtFeed(b, "", "");
    LinePiecesWithoutFeed("", "");
    assert "" + a == a && "" + b == b;
    assert LinePieces(text, "") == [DropCr(a)] + LinePieces(b + "\n" + "", "");
    assert LinePieces(b + "\n" + "", "") == [DropCr(b)] + LinePieces("", "");
    assert LinePieces("", "") == [""];
    assert DropCr(a) == a && DropCr(b) == b;
    assert LinePieces(text, "") == [a, b, ""];
    assert text[|a|] == '\n';
    assert '\n' in text;
    assert DropTrailingEmpty([a, b, ""]) == [a, b];
  }
  lemma LinesOfThree(a: string, b: string, c: string)
    requires '\n' !in a && '\n' !in b && '\n' !in c
    requires a != [] && a[|a| - 1] != '\r' && b != [] && b[|b| - 1] != '\r' && c != [] && c[|c| - 1] != '\r'
    ensures Lines(a + "\n" + b + "\n" + c + "\n") == [a, b, c]
  {
    var text := a + "\n" + b + "\n" + c + "\n";
    assert text == a + "\n" + (b + "\n" + (c + "\n" + ""));
    LinePiecesAtFeed(a, b + "\n" + (c + "\n" + ""), "");
    LinePiecesAtFeed(b, c + "\n" + "", "");
    LinePiecesAtFeed(c, "", "");
    LinePiecesWithoutFeed("", "");
    assert "" + a == a && "" + b == b && "" + c == c;
    assert LinePieces(text, "") == [DropCr(a)] + LinePieces(b + "\n" + (c + "\n" + ""), "");
    assert LinePieces(b + "\n" + (c + "\n" + ""), "") == [DropCr(b)] + LinePieces(c + "\n" + "", "");
    assert LinePieces(c + "\n" + "", "") == [DropCr(c)] + LinePieces("", "");
    assert LinePieces("", "") == [""];
    assert DropCr(a) == a && DropCr(b) == b && DropCr(c) == c;
    assert LinePieces(text, "") == [a, b, c, ""];
    assert text[|a|] == '\n';
    assert '\n' in text;
    assert DropTrailingEmpty([a, b, c, ""]) == [a, b, c];
  }

  /** A line is a trigger as soon as its lower-cased text shows "rate" at some index. */
  lemma TriggerAt(line: string, j: nat)
    requires j + 4 <= |line|
    requires LowerChar(line[j]) == 'r' && LowerChar(line[j + 1]) == 'a'
    requires LowerChar(line[j + 2]) == 't' && LowerChar(line[j + 3]) == 'e'
    ensures IsTrigger(line)
  {
    var l := Lower(line);
    assert l[j] == 'r' && l[j + 1] == 'a' && l[j + 2] == 't' && l[j + 3] == 'e';
    assert l[j..j + 4] == "rate";
    assert OccursAt(l, "rate", j);
  }

  /** A line shorter than "rate" is never a trigger. */
  lemma ShortLineNoTrigger(line: string)
    requires |line| < 4
    ensures !IsTrigger(line)
  {
  }

  /** A line without digits has no bounded number. */
  lemma NoDigitNoNumber(line: string)
    requires NoDigits(line)
    ensures FirstNumber(line).None?
  {
  }

  /** A next line made only of digits is read whole. */
  lemma NextLineOfDigits(lines: seq<string>, i: nat)
    requires i + 1 < |lines| && lines[i + 1] != [] && AllDigits(lines[i + 1])
    requires DigitsValue(lines[i + 1]) <= IntMax
    ensures NextLineNumber(lines, i) == Some(DigitsValue(lines[i + 1]))
  {
    assert IsTrimmed(lines[i + 1]);
    KeepDigitsOfDigits(lines[i + 1]);
  }

  lemma TwoDigitsValue(d: string)
    requires |d| == 2 && AllDigits(d)
    ensures DigitsValue(d) == 10 * DigitValue(d[0]) + DigitValue(d[1])
  {
    assert d[..1][..0] == [];
    assert DigitsValue(d[..1]) == DigitValue(d[0]);
  }

  lemma ThreeDigitsValue(d: string)
    requires |d| == 3 && AllDigits(d)
    ensures DigitsValue(d) == 100 * DigitValue(d[0]) + 10 * DigitValue(d[1]) + DigitValue(d[2])
  {
    assert d[..2][..1] == d[..1];
    assert d[..1][..0] == [];
    assert DigitsValue(d[..1]) == DigitValue(d[0]);
    assert DigitsValue(d[..2]) == 10 * DigitValue(d[0]) + DigitValue(d[1]);
  }

  /**
   * A text of two lines, the first showing "rate" at index `j` and the second made of
   * one to three digits, is rated by the second line.
   */
  lemma NextLineDecides(text: string, a: string, j: nat, b: string)
    requires Lines(text) == [a, b]
    requires j + 4 <= |a|
    requires LowerChar(a[j]) == 'r' && LowerChar(a[j + 1]) == 'a'
    requires LowerChar(a[j + 2]) == 't' && LowerChar(a[j + 3]) == 'e'
    requires 1 <= |b| <= 3 && AllDigits(b)
    ensures Rate(text) == ClampRate(DigitsValue(b))
  {
    TriggerAt(a, j);
    ShortDigitsFit(b);
    NextLineOfDigits([a, b], 0);
    NextLineYields([a, b], 0, DigitsValue(b));
  }

  lemma ShortDigitsFit(b: string)
    requires |b| <= 3 && AllDigits(b)
    ensures DigitsValue(b) < 1000
  {
    DigitsValueBound(b);
    assert Pow10(|b|) <= 1000;
  }

  /** A trigger line followed by a line that parses is where the scan stops. */
  lemma NextLineYields(lines: seq<string>, i: nat, v: nat)
    requires i + 1 < |lines| && IsTrigger(lines[i]) && NextLineNumber(lines, i) == Some(v)
    ensures Yields(lines, i) && TriggerRate(lines, i) == Some(ClampRate(v))
    ensures i == 0 ==> ScanLines(lines, 0) == Some(ClampRate(v))
  {
  }

  /** The first bounded number of a line whose earlier characters are not digits. */
  lemma FirstNumberAfterNonDigits(line: string, p: nat, k: nat)
    requires p <= |line| && NoDigits(line[..p]) && BoundedNumberAt(line, p, k)
    ensures FirstNumber(line) == Some(MatchValue(line, Match(p, k)))
  {
    FindReaches(line, 0, p, k);
    var m := Find(line, 0).value;
    assert forall j :: 0 <= j < p ==> line[..p][j] == line[j];
    MatchLengthUnique(line, p, m.len, k);
  }

  /** The heading line of the tests shows "rate", in upper or lower case, at index 7. */
  lemma HeadingSpellsRate(a: string)
    requires a == "...### Rate"
    ensures |a| == 11
    ensures LowerChar(a[7]) == 'r' && LowerChar(a[8]) == 'a' && LowerChar(a[9]) == 't' && LowerChar(a[10]) == 'e'
  {
  }

  // ---------------------------------------------------------------------------
  // testExtractRate1: the number on the line after the heading

  lemma Value75()
    ensures DigitsValue("75") == 75
  {
    TwoDigitsValue("75");
  }

  lemma RateOnNextLine(text: string)
    requires text == "...### Rate\n75\n"
    ensures Rate(text) == 75
  {
    var a, b := "...### Rate", "75";
    assert text == a + "\n" + b + "\n";
    LinesOfTwo(a, b);
    Value75();
    HeadingSpellsRate(a);
    NextLineDecides(text, a, 7, b);
  }

  // ---------------------------------------------------------------------------
  // testExtractRate2: a number above 100 is clamped

  lemma Value105()
    ensures DigitsValue("105") == 105
  {
    ThreeDigitsValue("105");
  }

  lemma RateClampedAbove(text: string)
    requires text == "...### Rate\n105\n"
    ensures Rate(text) == 100
  {
    var a, b := "...### Rate", "105";
    assert text == a + "\n" + b + "\n";
    LinesOfTwo(a, b);
    Value105();
    HeadingSpellsRate(a);
    NextLineDecides(text, a, 7, b);
  }

  // ---------------------------------------------------------------------------
  // testExtractRate3: the heading yields nothing, so the last number of the text decides

  /** A line whose next line has no digits and which has no bounded number itself yields nothing. */
  lemma NoNumberNoYield(lines: seq<string>, i: nat)
    requires i + 1 < |lines| && FirstNumber(lines[i]).None?
    requires NoDigits(lines[i + 1])
    ensures !Yields(lines, i)
  {
    KeepDigitsWithoutDigits(Trim(lines[i + 1]));
  }

  /** Three lines none of which yields: a digit-free first and second line, and short second and third lines. */
  lemma ScanOfThreeFindsNothing(lines: seq<string>)
    requires |lines| == 3 && NoDigits(lines[0]) && NoDigits(lines[1]) && |lines[1]| < 4 && |lines[2]| < 4
    ensures ScanLines(lines, 0).None?
  {
    NoDigitNoNumber(lines[0]);
    NoNumberNoYield(lines, 0);
    ShortLineNoTrigger(lines[1]);
    ShortLineNoTrigger(lines[2]);
    assert !Yields(lines, 1) && !Yields(lines, 2);
    forall j | 0 <= j < 3 ensures !Yields(lines, j) {
    }
    ScanSkipsBarrenLines(lines, 0, 3);
  }

  /** A number of three digits followed only by a final non-digit is the text's last number. */
  lemma LastIsFinalNumber(text: string, p: nat)
    requires p + 4 == |text| && BoundedNumberAt(text, p, 3) && !IsDigit(text[p + 3])
    ensures LastNumber(text) == MatchValue(text, Match(p, 3))
  {
    assert Find(text, p + 4).None?;
    assert Find(text, p + 3).None?;
    LastFromIsLast(text, 0, 0, p, 3);
  }

  lemma ThirdLines()
    ensures Lines("...### Rate\nabc\n100\n") == ["...### Rate", "abc", "100"]
  {
    LinesOfThree("...### Rate", "abc", "100");
    assert "...### Rate" + "\n" + "abc" + "\n" + "100" + "\n" == "...### Rate\nabc\n100\n";
  }

  lemma ThirdLastNumber(text: string)
    requires text == "...### Rate\nabc\n100\n"
    ensures LastNumber(text) == 100
  {
    assert text[15] == '\n' && text[16] == '1' && text[17] == '0' && text[18] == '0' && text[19] == '\n';
    LastIsFinalNumber(text, 16);
  }

  lemma ThirdScan()
    ensures ScanLines(["...### Rate", "abc", "100"], 0).None?
  {
    ScanOfThreeFindsNothing(["...### Rate", "abc", "100"]);
  }

  lemma RateFallsBackToLastNumber()
    ensures Rate("...### Rate\nabc\n100\n") == 100
  {
    ThirdLines();
    ThirdScan();
    ThirdLastNumber("...### Rate\nabc\n100\n");
  }

  // ---------------------------------------------------------------------------
  // Two consequences of the rules that the examples do not show

  /** "rate" is looked for anywhere, so a word such as "accurate" makes a trigger line. */
  lemma AccurateIsTrigger()
    ensures IsTrigger("This is accurate")
  {
    TriggerAt("This is accurate", 12);
  }

  /** Without a next line, the first bounded number on the trigger line itself is the rating. */
  lemma RateOnSameLine()
    ensures Rate("Rate: 85") == 85
  {
    SameLine("Rate: 85");
  }

  lemma SameLine(text: string)
    requires |text| == 8 && NoDigits(text[..6]) && '\n' !in text
    requires LowerChar(text[0]) == 'r' && LowerChar(text[1]) == 'a' && LowerChar(text[2]) == 't' && LowerChar(text[3]) == 'e'
    requires text[5] == ' ' && text[6] == '8' && text[7] == '5'
    ensures Rate(text) == 85
  {
    TriggerAt(text, 0);
    assert BoundedNumberAt(text, 6, 2);
    FirstNumberAfterNonDigits(text, 6, 2);
    assert Yields([text], 0);
  }

  // ---------------------------------------------------------------------------
  // A score written as a fraction on the line after the heading

  lemma {:induction false} KeepDigitsAppend(a: string, b: string)
    ensures KeepDigits(a + b) == KeepDigits(a) + KeepDigits(b)
  {
    if a == [] {
      assert a + b == b;
    } else {
      var h := if IsDigit(a[0]) then [a[0]] else [];
      assert (a + b)[0] == a[0];
      assert (a + b)[1..] == a[1..] + b;
      assert KeepDigits(a + b) == h + KeepDigits(a[1..] + b);
      KeepDigitsAppend(a[1..], b);
      assert KeepDigits(a) == h + KeepDigits(a[1..]);
      assert h + (KeepDigits(a[1..]) + KeepDigits(b)) == h + KeepDigits(a[1..]) + KeepDigits(b);
    }
  }

  /**
   * The next line loses all its non-digits and what remains is read as one number, so the
   * digits of a fraction run together.
   */
  lemma NextLineDigitsRunTogether(text: string, a: string, j: nat, b: string)
    requires Lines(text) == [a, b]
    requires j + 4 <= |a|
    requires LowerChar(a[j]) == 'r' && LowerChar(a[j + 1]) == 'a'
    requires LowerChar(a[j + 2]) == 't' && LowerChar(a[j + 3]) == 'e'
    requires IsTrimmed(b) && KeepDigits(b) != [] && DigitsValue(KeepDigits(b)) <= IntMax
    ensures Rate(text) == ClampRate(DigitsValue(KeepDigits(b)))
  {
    TriggerAt(a, j);
    var d := KeepDigits(b);
    assert Trim(b) == b;
    assert ParseDigits(d) == Some(DigitsValue(d));
    assert NextLineNumber([a, b], 0) == Some(DigitsValue(d));
    assert Yields([a, b], 0);
  }

  lemma FractionDigits(p: string, x: string, q: string, y: string)
    requires NoDigits(p) && NoDigits(q) && AllDigits(x) && AllDigits(y)
    ensures KeepDigits(p + x + q + y) == x + y
  {
    KeepDigitsWithoutDigits(p);
    KeepDigitsWithoutDigits(q);
    KeepDigitsOfDigits(x);
    KeepDigitsOfDigits(y);
    KeepDigitsAppend(p, x);
    assert KeepDigits(p + x) == x;
    KeepDigitsAppend(p + x, q);
    assert KeepDigits(p + x + q) == x;
    KeepDigitsAppend(p + x + q, y);
  }

  lemma FractionValue(b: string)
    requires b == "Score: 7/10"
    ensures KeepDigits(b) == "710"
    ensures IsTrimmed(b)
  {
    var p, x, q, y := "Score: ", "7", "/", "10";
    assert b == p + x + q + y;
    FractionDigits(p, x, q, y);
    assert x + y == "710";
  }

  lemma FractionRate(text: string, a: string, b: string)
    requires Lines(text) == [a, b] && a == "### Rate"
    requires IsTrimmed(b) && KeepDigits(b) == "710"
    ensures Rate(text) == 100
  {
    ThreeDigitsValue("710");
    NextLineDigitsRunTogether(text, a, 4, b);
  }

  /** "Score: 7/10" under the heading reads as 710, which the clamp turns into 100. */
  lemma FractionScoreClamped(text: string)
    requires text == "### Rate\nScore: 7/10\n"
    ensures Rate(text) == 100
  {
    var a, b := "### Rate", "Score: 7/10";
    assert text == a + "\n" + b + "\n";
    LinesOfTwo(a, b);
    FractionValue(b);
    FractionRate(text, a, b);
  }
}
