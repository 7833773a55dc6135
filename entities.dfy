/**
 * The persisted records the services read and update (users, AI model choices,
 * webhook tokens, teams) and the comma-separated encoding of a user's review aspects.
 */
module Entities {
  import opened Common
  import opened Text

  const RoleUser: string := "ROLE_USER"
  const RoleTeamAdmin: string := "ROLE_TEAM_ADMIN"

  /** One row of the AI model catalogue: a provider name and one of its models. */
  datatype AiModel = AiModel(ai: string, model: string)

  /**
   * A user row. Roles are kept by name; `reviewAspects` is the stored comma-separated
   * text, `None` where a row was created without it.
   */
  datatype User = User(
    username: string,
    bitbucketUuid: Option<string>,
    email: Option<string>,
    name: Option<string>,
    enabled: bool,
    roles: set<string>,
    aiModel: Option<AiModel>,
    reviewAspects: Option<string>)

  /** A webhook token; `owner` is the username of the user it belongs to, `expiresAt` a timestamp in seconds. */
  datatype WebhookToken = WebhookToken(token: string, owner: string, active: bool, expiresAt: Option<int>)

  /** A team; members are identified by username. */
  datatype Team = Team(id: nat, name: string, password: string, createdBy: string, members: set<string>)

  // ---------------------------------------------------------------------------
  // Review aspects stored as one comma-separated column

  /** What the getter can hand out: non-empty, trimmed, without a comma. */
  predicate IsAspect(a: string) { a != [] && IsTrimmed(a) && ',' !in a }

  function TrimEach(xs: seq<string>): (r: seq<string>)
    ensures |r| == |xs|
    ensures forall i :: 0 <= i < |xs| ==> r[i] == Trim(xs[i])
  {
    if xs == [] then [] else [Trim(xs[0])] + TrimEach(xs[1..])
  }

  function DropEmpty(xs: seq<string>): (r: seq<string>)
    ensures forall i :: 0 <= i < |r| ==> r[i] != [] && r[i] in xs
  {
    if xs == [] then []
    else if xs[0] == [] then DropEmpty(xs[1..])
    else [xs[0]] + DropEmpty(xs[1..])
  }

  /** `getReviewAspectsList`: split on ',', trim every piece, drop the empty ones. */
  function ReviewAspectsList(stored: string): (r: seq<string>)
    ensures forall i :: 0 <= i < |r| ==> IsAspect(r[i])
  {
    var pieces := JavaSplit(stored, ",");
    PiecesAvoidComma(stored);
    forall i | 0 <= i < |pieces| ensures ',' !in Trim(pieces[i]) {
      TrimKeepsOut(pieces[i], ',');
    }
    DropEmpty(TrimEach(pieces))
  }

  /** `setReviewAspectsList`: the aspects joined with ','. */
  function StoredAspects(aspects: seq<string>): string
  {
    Join(aspects, ",")
  }

  // ---------------------------------------------------------------------------
  // Lemmas about the encoding

  lemma TrimKeepsOut(s: string, c: char)
    requires c !in s
    ensures c !in Trim(s)
  {
    var t := TrimStart(s);
    assert t == s[|s| - |t|..];
    assert TrimEnd(t) == t[..|TrimEnd(t)|];
  }

  lemma OccursComma(s: string, j: int)
    ensures OccursAt(s, ",", j) <==> 0 <= j < |s| && s[j] == ','
  {
    if 0 <= j < |s| {
      assert s[j..j + 1] == [s[j]];
    }
  }

  lemma NoCommaNoOccurrence(s: string)
    requires ',' !in s
    ensures IndexOf(s, ",").None?
  {
    if IndexOf(s, ",").Some? {
      OccursComma(s, IndexOf(s, ",").value);
    }
  }

  /** The first comma of `x + "," + rest` is the one after `x` when `x` has none. */
  lemma FirstCommaAfter(x: string, rest: string)
    requires ',' !in x
    ensures IndexOf(x + "," + rest, ",") == Some(|x|)
  {
    var s := x + "," + rest;
    OccursComma(s, |x|);
    var k := IndexOf(s, ",").value;
    OccursComma(s, k);
  }

  lemma {:induction false} SplitAllAvoidsComma(s: string)
    ensures forall i :: 0 <= i < |SplitAll(s, ",")| ==> ',' !in SplitAll(s, ",")[i]
    decreases |s|
  {
    match IndexOf(s, ",")
    case None =>
      forall j | 0 <= j < |s| ensures s[j] != ',' { OccursComma(s, j); }
    case Some(k) =>
      forall j | 0 <= j < k ensures s[j] != ',' { OccursComma(s, j); }
      assert forall j :: 0 <= j < k ==> s[..k][j] == s[j];
      SplitAllAvoidsComma(s[k + 1..]);
  }

  /** No piece of the split contains the separator. */
  lemma PiecesAvoidComma(s: string)
    ensures forall i :: 0 <= i < |JavaSplit(s, ",")| ==> ',' !in JavaSplit(s, ",")[i]
  {
    SplitAllAvoidsComma(s);
    if Contains(s, ",") {
      var all := SplitAll(s, ",");
      var kept := DropTrailingEmpty(all);
      assert forall i :: 0 <= i < |kept| ==> kept[i] == all[i];
    } else {
      forall j | 0 <= j < |s| ensures s[j] != ',' { OccursComma(s, j); }
    }
  }

  lemma {:induction false} SplitJoin(xs: seq<string>)
    requires xs != [] && forall i :: 0 <= i < |xs| ==> ',' !in xs[i]
    ensures SplitAll(Join(xs, ","), ",") == xs
  {
    if |xs| == 1 {
      NoCommaNoOccurrence(xs[0]);
    } else {
      FirstCommaAfter(xs[0], Join(xs[1..], ","));
      var s := xs[0] + "," + Join(xs[1..], ",");
      assert s[..|xs[0]|] == xs[0];
      assert s[|xs[0]| + 1..] == Join(xs[1..], ",");
      SplitJoin(xs[1..]);
    }
  }

  lemma {:induction false} DropEmptyKeeps(xs: seq<string>)
    requires forall i :: 0 <= i < |xs| ==> xs[i] != []
    ensures DropEmpty(xs) == xs
  {
    if xs != [] {
      DropEmptyKeeps(xs[1..]);
    }
  }

  lemma {:induction false} TrimEachKeeps(xs: seq<string>)
    requires forall i :: 0 <= i < |xs| ==> IsTrimmed(xs[i])
    ensures TrimEach(xs) == xs
  {
  }

  /**
   * Storing a list of aspects and reading it back gives the same list, provided every
   * aspect is non-empty, trimmed and comma-free; the empty list reads back as empty.
   */
  lemma {:induction false} AspectsRoundTrip(xs: seq<string>)
    requires forall i :: 0 <= i < |xs| ==> IsAspect(xs[i])
    ensures ReviewAspectsList(StoredAspects(xs)) == xs
  {
    if xs == [] {
      assert !Contains("", ",");
      assert JavaSplit("", ",") == [""];
    } else {
      var s := StoredAspects(xs);
      SplitJoin(xs);
      if |xs| == 1 {
        NoCommaNoOccurrence(xs[0]);
      } else {
        FirstCommaAfter(xs[0], Join(xs[1..], ","));
        assert JavaSplit(s, ",") == DropTrailingEmpty(xs);
      }
      assert JavaSplit(s, ",") == xs;
      TrimEachKeeps(xs);
      DropEmptyKeeps(xs);
    }
  }

  /** Reading, storing and reading again gives what the first read gave. */
  lemma AspectsNormalisationIdempotent(stored: string)
    ensures ReviewAspectsList(StoredAspects(ReviewAspectsList(stored))) == ReviewAspectsList(stored)
  {
    AspectsRoundTrip(ReviewAspectsList(stored));
  }

  /** Pieces that are blank or only separators read back as no aspect at all. */
  lemma BlankPiecesVanish(x: string)
    requires ',' !in x && Trim(x) == []
    ensures ReviewAspectsList(StoredAspects([x])) == []
  {
    NoCommaNoOccurrence(x);
    assert StoredAspects([x]) == x;
    assert JavaSplit(x, ",") == [x];
    assert TrimEach([x]) == [[]];
    assert DropEmpty([[]]) == DropEmpty([]);
    assert ReviewAspectsList(x) == DropEmpty(TrimEach([x]));
  }
}
