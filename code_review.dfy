/**
 * The two entry points of the code-review service: reviewing the files of a pull
 * request and chatting. The provider's answer is an input: the methods return the
 * request they would send (none when they stop before the call) and read the answer.
 */
module CodeReview {
  import opened Common
  import opened Text
  import opened ReviewWire
  import opened ReviewReply

  /** What the HTTP exchange gave back: a body (null when empty), or the transport's exception. */
  datatype Exchange = Replied(body: Option<string>) | TransportError(message: string)

  /**
   * `reviewFiles`: missing files, then missing aspects, are answered without a call; an
   * unusable AI name is reported as a review error; otherwise the request goes out and
   * the answer is parsed. Every error before parsing comes with an empty comment list.
   */
  method ReviewFiles(props: AiProperties, aiName: Option<string>, model: Option<string>,
                     files: Option<seq<FileData>>, aspects: Option<seq<string>>,
                     reply: Exchange, decode: Decoder)
    returns (result: ReviewResult, sent: Option<HttpRequest>)
    ensures files.None? || files.value == [] ==>
      result == ReviewResult("Error: No files provided for review", Some([])) && sent.None?
    ensures files.Some? && files.value != [] && (aspects.None? || aspects.value == []) ==>
      result == ReviewResult("Error: No aspects provided for review", Some([])) && sent.None?
    ensures files.Some? && files.value != [] && aspects.Some? && aspects.value != [] && SelectProvider(aiName).Failure? ==>
      result == ReviewResult("Error during " + Display(aiName) + " review: " + SelectProvider(aiName).error, Some([]))
      && sent.None?
    ensures sent.Some? <==> files.Some? && files.value != [] && aspects.Some? && aspects.value != [] && SelectProvider(aiName).Success?
    ensures sent.Some? ==>
      sent.value == ReviewRequest(IsGemini(aiName), ConfigOf(props, SelectProvider(aiName).value), model, files.value, aspects.value)
      && (reply.TransportError? ==>
            result == ReviewResult("Error during " + aiName.value + " review: " + reply.message, Some([])))
      && (reply.Replied? ==> result == ParsedResponse(reply.body, IsGemini(aiName), decode))
  {
    if files.None? || files.value == [] {
      return ReviewResult("Error: No files provided for review", Some([])), None;
    }
    if aspects.None? || aspects.value == [] {
      return ReviewResult("Error: No aspects provided for review", Some([])), None;
    }
    var provider := SelectProvider(aiName);
    if provider.Failure? {
      return ReviewResult("Error during " + Display(aiName) + " review: " + provider.error, Some([])), None;
    }
    var gemini := IsGemini(aiName);
    var request := BuildReviewRequest(gemini, ConfigOf(props, provider.value), model, files.value, aspects.value);
    sent := Some(request);
    match reply
    case TransportError(message) =>
      result := ReviewResult("Error during " + aiName.value + " review: " + message, Some([]));
    case Replied(body) =>
      result := ParseResponse(body, gemini, decode);
  }

  /** The username in the chat prompt comes from the security context; here it is a parameter. */
  method Chat(props: AiProperties, aiName: Option<string>, model: Option<string>, username: string,
              history: Option<seq<MessageDto>>, reply: Exchange, decode: Decoder)
    returns (r: Result<string, string>, sent: Option<HttpRequest>)
    ensures history.None? || history.value == [] ==> r == Success("Error: No chat history provided") && sent.None?
    ensures history.Some? && history.value != [] && SelectProvider(aiName).Failure? ==>
      r == Success("Error during " + Display(aiName) + " chat: " + SelectProvider(aiName).error) && sent.None?
    ensures sent.Some? <==> history.Some? && history.value != [] && SelectProvider(aiName).Success?
    ensures sent.Some? ==>
      sent.value == ChatRequest(IsGemini(aiName), ConfigOf(props, SelectProvider(aiName).value), model,
                                ChatPrompt(aiName.value, username), history.value)
    ensures sent.Some? && reply.TransportError? ==> r == Failure(reply.message)
    ensures sent.Some? && reply.Replied? ==>
      match ExtractContent(reply.body, aiName.value, decode)
      case Success(text) => r == Success(text)
      case Failure(message) => r == Success("Error during " + aiName.value + " chat: " + message)
    ensures r.Failure? ==> reply.TransportError? && sent.Some?
  {
    if history.None? || history.value == [] {
      return Success("Error: No chat history provided"), None;
    }
    var provider := SelectProvider(aiName);
    if provider.Failure? {
      return Success("Error during " + Display(aiName) + " chat: " + provider.error), None;
    }
    var name := aiName.value;
    var request := SendChat(IsGemini(aiName), ConfigOf(props, provider.value), model, name, username, history.value);
    sent := Some(request);
    r := ReadChatReply(reply, name, decode);
  }

  /** The request `chat` sends: the prompt naming the assistant and the user, then the history. */
  method SendChat(gemini: bool, cfg: ProviderConfig, model: Option<string>, name: string, username: string,
                  history: seq<MessageDto>) returns (request: HttpRequest)
    ensures request == ChatRequest(gemini, cfg, model, ChatPrompt(name, username), history)
  {
    var prompt := ChatPrompt(name, username);
    request := BuildChatRequest(gemini, cfg, model, prompt, history);
  }

  /** The end of `chat`: a transport exception escapes, an unreadable reply becomes an error text. */
  method ReadChatReply(reply: Exchange, name: string, decode: Decoder) returns (r: Result<string, string>)
    ensures reply.TransportError? ==> r == Failure(reply.message)
    ensures reply.Replied? ==>
      match ExtractContent(reply.body, name, decode)
      case Success(text) => r == Success(text)
      case Failure(message) => r == Success("Error during " + name + " chat: " + message)
  {
    match reply
    case TransportError(message) =>
      r := Failure(message);
    case Replied(body) =>
      match ExtractContent(body, name, decode)
      case Success(text) =>
        r := Success(text);
      case Failure(message) =>
        r := Success("Error during " + name + " chat: " + message);
  }
}
