/**
 * The system prompt of a code review: a fixed preamble, one numbered heading per
 * requested aspect, a final numbered "Rate" heading with the scoring directive, and the
 * instructions for the inline-comment block.
 */
module ReviewPrompt {
  import opened Text

  const Preamble: string :=
    "You are an expert senior code reviewer specializing in Java and modern front-end development.\n"
    + "Provide feedback in two parts: general feedback and inline comments.\n"
    + "\n"
    + "### General Feedback\n"
    + "Respond with the specified aspect sections below, in the order listed, using Markdown headings and concise bullet points.\n"
    + "Do NOT include any additional titles or extraneous text.\n"
    + "Focus exclusively on actionable feedback for each aspect.\n"

  const RateDirective: string :=
    "On the next line, output ONLY a single integer between 1 and 100, with no other characters, "
    + "representing the overall quality of the pull request.\n\n"

  const InlineInstructions: string :=
    "### Inline Comments\n"
    + "For each file, provide specific, concise comments tied to exact line numbers where improvements are needed.\n"
    + "Use the following JSON format for inline comments:\n"
    + "```json\n"
    + "[\n"
    + "  {\n"
    + "    \"path\": \"file/path\",\n"
    + "    \"lineNumber\": 42,\n"
    + "    \"comment\": \"Short, actionable comment (1 sentence) - (AI Name).\"\n"
    + "  },\n"
    + "  ...\n"
    + "]\n"
    + "```\n"
    + "Ensure line numbers are accurate based on the provided file content.\n"
    + "If no inline comments are needed for a file, return an empty array.\n"

  /** The heading of the aspect numbered `n`. */
  function Heading(n: nat, aspect: string): string
  {
    "#### " + NatToString(n) + ". " + aspect + "\n"
  }

  /** The heading that asks for the score, numbered after the aspects. */
  function RateHeading(n: nat): string
  {
    "#### " + NatToString(n) + ". Rate\n" + RateDirective
  }

  /** The headings of `aspects`, numbered from `start` in the given order. */
  function Headings(aspects: seq<string>, start: nat): string
  {
    if aspects == [] then "" else Heading(start, aspects[0]) + Headings(aspects[1..], start + 1)
  }

  /** A prompt: the given preamble, the numbered aspect headings, the Rate heading, the given closing instructions. */
  function Prompt(preamble: string, aspects: seq<string>, instructions: string): string
  {
    preamble + Headings(aspects, 1) + RateHeading(|aspects| + 1) + instructions
  }

  /** What `buildSystemPrompt` returns. */
  function SystemPrompt(aspects: seq<string>): string
  {
    Prompt(Preamble, aspects, InlineInstructions)
  }

  /** Where the heading of `aspects[i]` begins in a prompt with this preamble. */
  function HeadingOffset(preamble: string, aspects: seq<string>, i: nat): nat
    requires i <= |aspects|
  {
    |preamble| + |Headings(aspects[..i], 1)|
  }

  // ---------------------------------------------------------------------------
  // The `StringBuilder` loop

  /** The loop of `buildSystemPrompt`: appends the heading of each aspect, numbered from 1, to `sb`. */
  method AppendHeadings(sb: string, aspects: seq<string>) returns (r: string)
    ensures r == sb + Headings(aspects, 1)
  {
    r := sb;
    for i := 0 to |aspects|
      invariant r == sb + Headings(aspects[..i], 1)
    {
      HeadingsAppend(aspects[..i], [aspects[i]], 1);
      assert aspects[..i + 1] == aspects[..i] + [aspects[i]];
      AppendAssoc(sb, Headings(aspects[..i], 1), Heading(i + 1, aspects[i]));
      r := r + Heading(i + 1, aspects[i]);
    }
    assert aspects[..|aspects|] == aspects;
  }

  /** `buildSystemPrompt`: the preamble, the headings one by one, the Rate heading, the instructions. */
  method BuildSystemPrompt(aspects: seq<string>) returns (prompt: string)
    ensures prompt == SystemPrompt(aspects)
  {
    var sb := AppendHeadings(Preamble, aspects);
    sb := sb + RateHeading(|aspects| + 1);
    sb := sb + InlineInstructions;
    prompt := sb;
  }

  lemma AppendAssoc(a: string, b: string, c: string)
    ensures a + b + c == a + (b + c)
  {
  }

  // ---------------------------------------------------------------------------
  // Properties

  /** Headings of a concatenation are the headings of each part, the second numbered on. */
  lemma {:induction false} HeadingsAppend(xs: seq<string>, ys: seq<string>, start: nat)
    ensures Headings(xs + ys, start) == Headings(xs, start) + Headings(ys, start + |xs|)
  {
    if xs == [] {
      assert xs + ys == ys;
    } else {
      assert (xs + ys)[1..] == xs[1..] + ys;
      HeadingsAppend(xs[1..], ys, start + 1);
    }
  }

  lemma Middle(a: string, b: string, c: string)
    ensures OccursAt(a + b + c, b, |a|)
  {
    assert (a + b + c)[|a|..|a| + |b|] == b;
  }

  /** The headings of `aspects` split around the one of `aspects[i]`. */
  lemma HeadingsAround(aspects: seq<string>, i: nat)
    requires i < |aspects|
    ensures Headings(aspects, 1)
      == Headings(aspects[..i], 1) + Heading(i + 1, aspects[i]) + Headings(aspects[i + 1..], i + 2)
    ensures Headings(aspects[..i + 1], 1) == Headings(aspects[..i], 1) + Heading(i + 1, aspects[i])
  {
    var before := aspects[..i];
    var after := aspects[i + 1..];
    assert aspects == before + [aspects[i]] + after;
    assert aspects[..i + 1] == before + [aspects[i]];
    HeadingsAppend(before + [aspects[i]], after, 1);
    HeadingsAppend(before, [aspects[i]], 1);
    assert Headings([aspects[i]], i + 1) == Heading(i + 1, aspects[i]);
  }

  lemma Regroup(p: string, a: string, h: string, b: string, r: string)
    ensures p + (a + h + b) + r == (p + a) + h + (b + r)
  {
  }

  /** Between any text before and after them, the heading of `aspects[i]` follows those of the aspects before it. */
  lemma PlacedBetween(pre: string, aspects: seq<string>, i: nat, post: string)
    requires i < |aspects|
    ensures OccursAt(pre + Headings(aspects, 1) + post, Heading(i + 1, aspects[i]), |pre| + |Headings(aspects[..i], 1)|)
    ensures |Headings(aspects[..i], 1)| + |Heading(i + 1, aspects[i])| == |Headings(aspects[..i + 1], 1)|
  {
    var h := Heading(i + 1, aspects[i]);
    var a := Headings(aspects[..i], 1);
    var b := Headings(aspects[i + 1..], i + 2);
    HeadingsAround(aspects, i);
    Regroup(pre, a, h, b, post);
    Middle(pre + a, h, b + post);
  }

  /** Four pieces laid end to end: each one sits where the ones before it end. */
  lemma FourPieces(a: string, b: string, c: string, d: string)
    ensures StartsWith(a + b + c + d, a)
    ensures OccursAt(a + b + c + d, b, |a|)
    ensures OccursAt(a + b + c + d, c, |a| + |b|)
    ensures EndsWith(a + b + c + d, d)
  {
    var p := a + b + c + d;
    assert p[..|a|] == a;
    assert p[|a|..|a| + |b|] == b;
    assert p[|a| + |b|..|a| + |b| + |c|] == c;
    assert p[|p| - |d|..] == d;
  }

  /**
   * The prompt starts with its preamble, holds the Rate heading numbered |aspects| + 1
   * right after the aspect headings, and ends with the closing instructions; for
   * `SystemPrompt` these are the fixed preamble and the inline-comment instructions.
   */
  lemma PromptFrame(preamble: string, aspects: seq<string>, instructions: string)
    ensures StartsWith(Prompt(preamble, aspects, instructions), preamble)
    ensures OccursAt(Prompt(preamble, aspects, instructions), RateHeading(|aspects| + 1), HeadingOffset(preamble, aspects, |aspects|))
    ensures EndsWith(Prompt(preamble, aspects, instructions), instructions)
  {
    assert aspects[..|aspects|] == aspects;
    FourPieces(preamble, Headings(aspects, 1), RateHeading(|aspects| + 1), instructions);
  }

  /**
   * The heading "#### i. <aspect>" of `aspects[i]` stands at its offset, numbered from 1
   * in the order given, and the next heading begins where it ends.
   */
  lemma HeadingPlaced(preamble: string, aspects: seq<string>, i: nat, instructions: string)
    requires i < |aspects|
    ensures OccursAt(Prompt(preamble, aspects, instructions), Heading(i + 1, aspects[i]), HeadingOffset(preamble, aspects, i))
    ensures HeadingOffset(preamble, aspects, i) + |Heading(i + 1, aspects[i])| == HeadingOffset(preamble, aspects, i + 1)
  {
    AppendAssoc(preamble + Headings(aspects, 1), RateHeading(|aspects| + 1), instructions);
    PlacedBetween(preamble, aspects, i, RateHeading(|aspects| + 1) + instructions);
  }

  /** Headings come in the order of the aspects: an earlier aspect's heading ends before a later one's begins. */
  lemma {:induction false} HeadingsInOrder(preamble: string, aspects: seq<string>, i: nat, j: nat)
    requires i < j <= |aspects|
    ensures HeadingOffset(preamble, aspects, i) + |Heading(i + 1, aspects[i])| <= HeadingOffset(preamble, aspects, j)
    decreases j - i
  {
    PlacedBetween(preamble, aspects, i, "");
    if i + 1 < j {
      HeadingsInOrder(preamble, aspects, i + 1, j);
    }
  }
}
