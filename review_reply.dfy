/**
 * Reading a provider's reply: unwrapping the JSON envelope, splitting the review text
 * at "### Inline Comments", and reading the fenced JSON array of inline comments.
 */
module ReviewReply {
  import opened Common
  import opened Text
  import opened JsonTree

  datatype InlineComment = InlineComment(path: string, lineNumber: int, comment: string)

  /** `ReviewResult`: the general feedback and the inline comments, `None` where they were never set. */
  datatype ReviewResult = ReviewResult(generalFeedback: string, inlineComments: Option<seq<InlineComment>>)

  /** JSON decoding, a partial function: the document, or the decoder's error message. */
  type Decoder = string -> Result<Json, string>

  /** The exceptions a parse can raise. */
  datatype Fault =
    | NullArgument          // reading a null reply
    | Malformed(message: string)  // the decoder's own error
    | WrongShape            // a document of another JSON type than the one asked for
    | NullDereference       // a Java null reached through `get`
    | NotAnObject           // an array element cast to an object
    | NoSections            // index 0 of an empty split

  /** The message of each exception. */
  function FaultMessage(f: Fault): string
  {
    match f
    case NullArgument => "argument \"content\" is null"
    case Malformed(m) => m
    case WrongShape => "Cannot deserialize value of the requested node type"
    case NullDereference => "Cannot invoke a method on a null node"
    case NotAnObject => "JSON node cannot be cast to ObjectNode"
    case NoSections => "Index 0 out of bounds for length 0"
  }

  const Marker: string := "### Inline Comments"
  const JsonFence: string := "```json"
  const Fence: string := "```"
  const ParseErrorPrefix: string := "Error parsing AI response: "

  // ---------------------------------------------------------------------------
  // The envelope

  /** A node that is an array with at least one element. */
  predicate NonEmptyArray(n: Node)
  {
    n.Some? && n.value.JArr? && n.value.items != []
  }

  /** `candidates` of a Gemini reply, `choices` of any other. */
  function Choices(doc: Json): Node { Path(Some(doc), "choices") }

  function Candidates(doc: Json): Node { Path(Some(doc), "candidates") }

  /** `content.parts` of a Gemini candidate. */
  function Parts(candidate: Json): Node { Path(Path(Some(candidate), "content"), "parts") }

  /** `text` of a Gemini part. */
  function PartText(part: Json): Node { Path(Some(part), "text") }

  /** `message.content` of an OpenAI-style choice. */
  function MessageContent(choice: Json): Node { Path(Path(Some(choice), "message"), "content") }

  /** Where the provider puts the reply text: `candidates[0].content.parts[0].text` or `choices[0].message.content`. */
  function ReplyText(doc: Json, gemini: bool): (r: Result<string, Fault>)
    ensures r.Failure? ==> r.error == NullDereference
    ensures !gemini ==> (r.Success? <==> NonEmptyArray(Choices(doc)))
    ensures !gemini && r.Success? ==> r.value == AsText(MessageContent(Choices(doc).value.items[0]))
    ensures gemini ==> (r.Success? <==> NonEmptyArray(Candidates(doc)) && NonEmptyArray(Parts(Candidates(doc).value.items[0])))
    ensures gemini && r.Success? ==>
      r.value == AsText(PartText(Parts(Candidates(doc).value.items[0]).value.items[0]))
  {
    if gemini then
      match First(Candidates(doc))
      case None => Failure(NullDereference)
      case Some(candidate) =>
        match First(Parts(candidate))
        case None => Failure(NullDereference)
        case Some(part) => Success(AsText(PartText(part)))
    else
      match First(Choices(doc))
      case None => Failure(NullDereference)
      case Some(choice) => Success(AsText(MessageContent(choice)))
  }

  /** `readValue(response, ObjectNode.class)` followed by the envelope. */
  function Envelope(response: Option<string>, gemini: bool, decode: Decoder): Result<string, Fault>
  {
    match response
    case None => Failure(NullArgument)
    case Some(text) =>
      match decode(text)
      case Failure(m) => Failure(Malformed(m))
      case Success(doc) =>
        if doc.JObj? then ReplyText(doc, gemini)
        else if doc.JNull? then Failure(NullDereference)
        else Failure(WrongShape)
  }

  // ---------------------------------------------------------------------------
  // The inline comments

  /** An array element that reads as a comment: an object with the three fields. */
  predicate IsCommentObject(item: Json)
  {
    item.JObj? && "path" in item.fields && "lineNumber" in item.fields && "comment" in item.fields
  }

  function ReadComment(item: Json): (r: Result<InlineComment, Fault>)
    ensures r.Success? <==> IsCommentObject(item)
    ensures r.Failure? ==> r.error == NotAnObject || r.error == NullDereference
    ensures r.Success? ==>
      r.value == InlineComment(AsText(Some(item.fields["path"])), AsInt(Some(item.fields["lineNumber"])),
                               AsText(Some(item.fields["comment"])))
  {
    if !item.JObj? then Failure(NotAnObject)
    else if "path" !in item.fields || "lineNumber" !in item.fields || "comment" !in item.fields then Failure(NullDereference)
    else Success(InlineComment(AsText(Some(item.fields["path"])), AsInt(Some(item.fields["lineNumber"])),
                               AsText(Some(item.fields["comment"]))))
  }

  /** The comments of the array, or the fault of its first element that does not read as one. */
  function ReadComments(items: seq<Json>): (r: Result<seq<InlineComment>, Fault>)
    ensures r.Success? <==> forall i :: 0 <= i < |items| ==> IsCommentObject(items[i])
    ensures r.Success? ==> (|r.value| == |items|
      && forall i :: 0 <= i < |items| ==> r.value[i] == ReadComment(items[i]).value)
    ensures r.Failure? ==> r.error == NotAnObject || r.error == NullDereference
    ensures r.Failure? ==> exists k :: 0 <= k < |items| && FirstBadItem(items, k) && r.error == ReadComment(items[k]).error
  {
    if items == [] then Success([])
    else
      match ReadComment(items[0])
      case Failure(f) => Failure(f)
      case Success(c) =>
        match ReadComments(items[1..])
        case Failure(f) => Failure(f)
        case Success(cs) =>
          assert forall i :: 1 <= i < |items| ==> items[i] == items[1..][i - 1];
          Success([c] + cs)
  }

  /** `items[k]` is the first element that does not read as a comment. */
  predicate FirstBadItem(items: seq<Json>, k: nat)
    requires k < |items|
  {
    !IsCommentObject(items[k]) && forall j :: 0 <= j < k ==> IsCommentObject(items[j])
  }

  predicate IsFenced(section: string)
  {
    StartsWith(section, JsonFence) && EndsWith(section, Fence)
  }

  /** The fenced block with every "```json" and then every "```" removed, trimmed. */
  function Unfence(section: string): string
  {
    Trim(Replace(Replace(section, JsonFence, ""), Fence, ""))
  }

  /** `readValue(block, ArrayNode.class)` and the comment loop. */
  function InlineComments(block: string, decode: Decoder): (r: Result<seq<InlineComment>, Fault>)
    ensures r.Failure? ==> r.error != NoSections
    ensures r.Success? <==> decode(block).Success? && decode(block).value.JArr?
                            && forall i :: 0 <= i < |decode(block).value.items| ==> IsCommentObject(decode(block).value.items[i])
    ensures decode(block).Success? && decode(block).value.JArr? ==> r == ReadComments(decode(block).value.items)
    ensures decode(block).Failure? ==> r == Failure(Malformed(decode(block).error))
    ensures decode(block).Success? && decode(block).value.JNull? ==> r == Failure(NullDereference)
    ensures decode(block).Success? && !decode(block).value.JArr? && !decode(block).value.JNull? ==> r == Failure(WrongShape)
  {
    match decode(block)
    case Failure(m) => Failure(Malformed(m))
    case Success(doc) =>
      if doc.JArr? then ReadComments(doc.items)
      else if doc.JNull? then Failure(NullDereference)
      else Failure(WrongShape)
  }

  datatype Parsed = Parsed(feedback: string, comments: seq<InlineComment>)

  /**
   * The review text split at the marker: the trimmed first piece is the feedback; the
   * comments are read only from a second piece that, trimmed, is a ```json fence.
   */
  function Interpret(content: string, decode: Decoder): (r: Result<Parsed, Fault>)
    ensures r.Failure? && r.error == NoSections <==> JavaSplit(content, Marker) == []
    ensures r.Success? && (|JavaSplit(content, Marker)| == 1 || !IsFenced(Trim(JavaSplit(content, Marker)[1])))
            ==> r.value.comments == []
    ensures r.Success? ==> r.value.feedback == Trim(JavaSplit(content, Marker)[0])
    ensures JavaSplit(content, Marker) != [] ==>
      (r.Success? <==> InlinePart(JavaSplit(content, Marker), decode).Success?)
      && (r.Success? ==> r.value.comments == InlinePart(JavaSplit(content, Marker), decode).value)
      && (r.Failure? ==> r.error == InlinePart(JavaSplit(content, Marker), decode).error)
  {
    var sections := JavaSplit(content, Marker);
    if sections == [] then Failure(NoSections)
    else
      match InlinePart(sections, decode)
      case Failure(f) => Failure(f)
      case Success(cs) => Success(Parsed(Trim(sections[0]), cs))
  }

  /** The comments of the second piece: read only when, trimmed, it is a ```json fence. */
  function InlinePart(sections: seq<string>, decode: Decoder): (r: Result<seq<InlineComment>, Fault>)
    ensures r.Failure? ==> r.error != NoSections
    ensures (|sections| <= 1 || !IsFenced(Trim(sections[1]))) ==> r == Success([])
    ensures |sections| > 1 && IsFenced(Trim(sections[1])) ==> r == InlineComments(Unfence(Trim(sections[1])), decode)
  {
    if |sections| > 1 && IsFenced(Trim(sections[1])) then InlineComments(Unfence(Trim(sections[1])), decode)
    else Success([])
  }

  /** `parseResponse`: on any fault the feedback is the error text and the comments stay unset. */
  function ParsedResponse(response: Option<string>, gemini: bool, decode: Decoder): (r: ReviewResult)
    ensures r.inlineComments.None? ==> StartsWith(r.generalFeedback, ParseErrorPrefix)
    ensures response.None? ==> r == ReviewResult(ParseErrorPrefix + FaultMessage(NullArgument), None)
    ensures Envelope(response, gemini, decode).Failure? ==>
      r == ReviewResult(ParseErrorPrefix + FaultMessage(Envelope(response, gemini, decode).error), None)
    ensures Envelope(response, gemini, decode).Success? ==>
      (r.inlineComments.None? <==> Interpret(Envelope(response, gemini, decode).value, decode).Failure?)
    ensures Envelope(response, gemini, decode).Success? && Interpret(Envelope(response, gemini, decode).value, decode).Success? ==>
      var parsed := Interpret(Envelope(response, gemini, decode).value, decode).value;
      r == ReviewResult(parsed.feedback, Some(parsed.comments))
  {
    var outcome :=
      match Envelope(response, gemini, decode)
      case Failure(f) => Failure(f)
      case Success(content) => Interpret(content, decode);
    match outcome
    case Success(p) => ReviewResult(p.feedback, Some(p.comments))
    case Failure(f) => ReviewResult(ParseErrorPrefix + FaultMessage(f), None)
  }

  /**
   * `parseResponse`: the envelope, the split, the feedback, then the fenced block and the
   * comment loop; the first fault becomes the feedback and leaves the comments unset.
   */
  method ParseResponse(response: Option<string>, gemini: bool, decode: Decoder) returns (result: ReviewResult)
    ensures result == ParsedResponse(response, gemini, decode)
  {
    var envelope := Envelope(response, gemini, decode);
    if envelope.Failure? {
      return ReviewResult(ParseErrorPrefix + FaultMessage(envelope.error), None);
    }
    var sections := JavaSplit(envelope.value, Marker);
    if sections == [] {
      return ReviewResult(ParseErrorPrefix + FaultMessage(NoSections), None);
    }
    var feedback := Trim(sections[0]);
    var inline := ReadInlinePart(sections, decode);
    if inline.Failure? {
      return ReviewResult(ParseErrorPrefix + FaultMessage(inline.error), None);
    }
    result := ReviewResult(feedback, Some(inline.value));
  }

  /** The fence check, the decoding of the block and the comment loop. */
  method ReadInlinePart(sections: seq<string>, decode: Decoder) returns (r: Result<seq<InlineComment>, Fault>)
    ensures r == InlinePart(sections, decode)
  {
    if |sections| > 1 {
      var inline := Trim(sections[1]);
      if IsFenced(inline) {
        var decoded := decode(Unfence(inline));
        if decoded.Failure? {
          return Failure(Malformed(decoded.error));
        }
        if decoded.value.JNull? {
          return Failure(NullDereference);
        }
        if !decoded.value.JArr? {
          return Failure(WrongShape);
        }
        r := CollectComments(decoded.value.items);
        return;
      }
    }
    r := Success([]);
  }

  /** The comment loop of `parseResponse`: stops at the first element that does not read as a comment. */
  method CollectComments(items: seq<Json>) returns (r: Result<seq<InlineComment>, Fault>)
    ensures r == ReadComments(items)
  {
    var comments: seq<InlineComment> := [];
    for i := 0 to |items|
      invariant |comments| == i
      invariant forall k :: 0 <= k < i ==> IsCommentObject(items[k]) && comments[k] == ReadComment(items[k]).value
    {
      var item := items[i];
      if !item.JObj? {
        ReadCommentsFirstBad(items, i);
        return Failure(NotAnObject);
      }
      if "path" !in item.fields || "lineNumber" !in item.fields || "comment" !in item.fields {
        ReadCommentsFirstBad(items, i);
        return Failure(NullDereference);
      }
      var path := AsText(Some(item.fields["path"]));
      var lineNumber := AsInt(Some(item.fields["lineNumber"]));
      var comment := AsText(Some(item.fields["comment"]));
      comments := comments + [InlineComment(path, lineNumber, comment)];
    }
    ReadCommentsAllGood(items, comments);
    r := Success(comments);
  }

  lemma ReadCommentsAllGood(items: seq<Json>, comments: seq<InlineComment>)
    requires |comments| == |items|
    requires forall k :: 0 <= k < |items| ==> IsCommentObject(items[k]) && comments[k] == ReadComment(items[k]).value
    ensures ReadComments(items) == Success(comments)
  {
    assert forall k :: 0 <= k < |items| ==> IsCommentObject(items[k]);
    assert ReadComments(items).Success?;
    var r := ReadComments(items).value;
    assert |r| == |comments|;
    assert forall k :: 0 <= k < |r| ==> r[k] == comments[k];
    assert r == comments;
  }

  lemma ReadCommentsFirstBad(items: seq<Json>, i: nat)
    requires i < |items| && FirstBadItem(items, i)
    ensures ReadComments(items) == Failure(ReadComment(items[i]).error)
  {
    var k :| 0 <= k < |items| && FirstBadItem(items, k) && ReadComments(items).error == ReadComment(items[k]).error;
    FirstBadUnique(items, i, k);
  }

  lemma FirstBadUnique(items: seq<Json>, i: nat, k: nat)
    requires i < |items| && FirstBadItem(items, i)
    requires k < |items| && FirstBadItem(items, k)
    ensures i == k
  {
  }

  // ---------------------------------------------------------------------------
  // `extractContent`, the envelope reader of chat

  /**
   * `extractContent`: a null reply is "Empty response"; an undecodable document, a
   * `candidates`/`choices` field that is missing, not an array or empty, and a null
   * reached on the way are all "Failed to parse response"; a missing text node is
   * "No content returned".
   */
  function ExtractContent(response: Option<string>, aiName: string, decode: Decoder): (r: Result<string, string>)
    ensures response.None? <==> r == Failure("Empty response from " + aiName)
    ensures r.Failure? ==> r.error == "Empty response from " + aiName || r.error == "Failed to parse response from " + aiName
    ensures response.Some? && decode(response.value).Failure? ==> r == Failure("Failed to parse response from " + aiName)
    ensures response.Some? && decode(response.value).Success? ==>
      var doc := decode(response.value).value;
      var list := if EqualsIgnoreCase("gemini", aiName) then Candidates(doc) else Choices(doc);
      !NonEmptyArray(list) ==> r == Failure("Failed to parse response from " + aiName)
    ensures response.Some? && decode(response.value).Success? && !EqualsIgnoreCase("gemini", aiName)
            && NonEmptyArray(Choices(decode(response.value).value)) ==>
      var node := MessageContent(Choices(decode(response.value).value).value.items[0]);
      r == Success(if node.None? then "No content returned" else AsText(node))
    ensures response.Some? && decode(response.value).Success? && EqualsIgnoreCase("gemini", aiName)
            && NonEmptyArray(Candidates(decode(response.value).value)) ==>
      var parts := Parts(Candidates(decode(response.value).value).value.items[0]);
      && (!NonEmptyArray(parts) ==> r == Failure("Failed to parse response from " + aiName))
      && (NonEmptyArray(parts) ==>
            var node := PartText(parts.value.items[0]);
            r == Success(if node.None? then "No content returned" else AsText(node)))
  {
    var failed := "Failed to parse response from " + aiName;
    assert failed[0] != ("Empty response from " + aiName)[0];
    match response
    case None => Failure("Empty response from " + aiName)
    case Some(text) =>
      match decode(text)
      case Failure(_) => Failure(failed)
      case Success(doc) =>
        var gemini := EqualsIgnoreCase("gemini", aiName);
        var list := if gemini then Candidates(doc) else Choices(doc);
        if list.None? || !list.value.JArr? || list.value.items == [] then Failure(failed)
        else if gemini then
          match First(Parts(list.value.items[0]))
          case None => Failure(failed)
          case Some(part) =>
            var node := PartText(part);
            if node.None? then Success("No content returned") else Success(AsText(node))
        else
          var node := MessageContent(list.value.items[0]);
          if node.None? then Success("No content returned") else Success(AsText(node))
  }

  // ---------------------------------------------------------------------------
  // Properties

  /** Where the narrative ends: at the first marker, or at the end of the text. */
  function NarrativeEnd(content: string): (k: nat)
    ensures k <= |content|
  {
    match IndexOf(content, Marker)
    case Some(k) => k
    case None => |content|
  }

  /** The first piece of the split is the text before the first marker. */
  lemma FirstSectionIsNarrative(content: string)
    requires JavaSplit(content, Marker) != []
    ensures JavaSplit(content, Marker)[0] == content[..NarrativeEnd(content)]
  {
    if Contains(content, Marker) {
      var all := SplitAll(content, Marker);
      assert all[0] == content[..NarrativeEnd(content)];
      var kept := DropTrailingEmpty(all);
      assert kept[0] == all[0];
    } else {
      assert content[..|content|] == content;
    }
  }

  /** The general feedback is the trimmed text before the first marker. */
  lemma FeedbackPrecedesMarker(content: string, decode: Decoder)
    requires Interpret(content, decode).Success?
    ensures Interpret(content, decode).value.feedback == Trim(content[..NarrativeEnd(content)])
  {
    var sections := JavaSplit(content, Marker);
    assert sections != [];
    FirstSectionIsNarrative(content);
    assert Interpret(content, decode).value.feedback == Trim(sections[0]);
  }

  /** Without a marker the whole text, trimmed, is the feedback and there are no comments. */
  lemma NoMarkerNoComments(content: string, decode: Decoder)
    requires !Contains(content, Marker)
    ensures Interpret(content, decode) == Success(Parsed(Trim(content), []))
  {
  }

  /** A reply text that is just the marker splits into nothing, and index 0 of the split fails. */
  lemma MarkerAloneFails(response: Option<string>, gemini: bool, decode: Decoder)
    requires Envelope(response, gemini, decode) == Success(Marker)
    ensures Interpret(Marker, decode) == Failure(NoSections)
    ensures ParsedResponse(response, gemini, decode)
            == ReviewResult(ParseErrorPrefix + "Index 0 out of bounds for length 0", None)
  {
    assert Marker[..|Marker|] == Marker;
    assert IndexOf(Marker, Marker) == Some(0);
    assert Marker[|Marker|..] == "";
    assert IndexOf("", Marker) == None;
    assert SplitAll(Marker, Marker) == ["", ""];
    assert DropTrailingEmpty(["", ""]) == DropTrailingEmpty([""]) == [];
  }

  /**
   * A fenced comment block that does not decode replaces the feedback with the error and
   * leaves the comments unset: the narrative before the marker is lost.
   */
  lemma MalformedBlockLosesNarrative(response: Option<string>, gemini: bool, decode: Decoder)
    requires Envelope(response, gemini, decode).Success?
    requires var sections := JavaSplit(Envelope(response, gemini, decode).value, Marker);
      |sections| > 1 && IsFenced(Trim(sections[1])) && decode(Unfence(Trim(sections[1]))).Failure?
    ensures var sections := JavaSplit(Envelope(response, gemini, decode).value, Marker);
      ParsedResponse(response, gemini, decode)
      == ReviewResult(ParseErrorPrefix + decode(Unfence(Trim(sections[1]))).error, None)
  {
  }

  /**
   * A fenced block that decodes to an array of comment objects keeps the narrative before
   * the marker as the feedback and gives one comment per element, in order; an array
   * with any other element leaves the comments unset.
   */
  lemma FencedBlockGivesComments(response: Option<string>, gemini: bool, decode: Decoder)
    requires Envelope(response, gemini, decode).Success?
    requires var sections := JavaSplit(Envelope(response, gemini, decode).value, Marker);
      |sections| > 1 && IsFenced(Trim(sections[1]))
      && decode(Unfence(Trim(sections[1]))).Success? && decode(Unfence(Trim(sections[1]))).value.JArr?
    ensures var content := Envelope(response, gemini, decode).value;
      var sections := JavaSplit(content, Marker);
      var items := decode(Unfence(Trim(sections[1]))).value.items;
      var r := ParsedResponse(response, gemini, decode);
      && (r.inlineComments.Some? <==> forall i :: 0 <= i < |items| ==> IsCommentObject(items[i]))
      && (r.inlineComments.Some? ==>
            && r.generalFeedback == Trim(content[..NarrativeEnd(content)])
            && |r.inlineComments.value| == |items|
            && forall i :: 0 <= i < |items| ==> r.inlineComments.value[i] == ReadComment(items[i]).value)
  {
    var content := Envelope(response, gemini, decode).value;
    var sections := JavaSplit(content, Marker);
    var block := Unfence(Trim(sections[1]));
    assert InlinePart(sections, decode) == ReadComments(decode(block).value.items);
    if Interpret(content, decode).Success? {
      FeedbackPrecedesMarker(content, decode);
    }
  }

  /**
   * The two envelope readers agree on a decoded object: both fail or neither does, and
   * when both succeed they give the same text, except that a missing text node is ""
   * for the review and "No content returned" for the chat.
   */
  lemma EnvelopeReadersAgree(text: string, aiName: string, decode: Decoder)
    requires decode(text).Success? && decode(text).value.JObj?
    ensures var review := ReplyText(decode(text).value, EqualsIgnoreCase("gemini", aiName));
            var chat := ExtractContent(Some(text), aiName, decode);
            (review.Success? <==> chat.Success?)
            && (chat.Success? ==> chat.value == review.value || (review.value == "" && chat.value == "No content returned"))
  {
  }
}
