/**
 * Provider selection and the request bodies of the two wire dialects: the OpenAI-style
 * `messages` list with a bearer key, and Gemini's `contents`/`parts` list with the key
 * in the URL.
 */
module ReviewWire {
  import opened Common
  import opened Text
  import opened ReviewPrompt

  datatype Provider = ChatGpt | Grok | Copilot | Gemini

  /** One provider's settings. */
  datatype ProviderConfig = ProviderConfig(apiUrl: string, apiKey: string)

  /** The configured providers. */
  datatype AiProperties = AiProperties(chatgpt: ProviderConfig, grok: ProviderConfig, copilot: ProviderConfig, gemini: ProviderConfig)

  function ConfigOf(props: AiProperties, p: Provider): ProviderConfig
  {
    match p
    case ChatGpt => props.chatgpt
    case Grok => props.grok
    case Copilot => props.copilot
    case Gemini => props.gemini
  }

  /** `isGemini`: "gemini" ignoring case; a null name is not Gemini. */
  predicate IsGemini(aiName: Option<string>)
  {
    aiName.Some? && EqualsIgnoreCase("gemini", aiName.value)
  }

  /**
   * `selectProvider`: a null name fails, a name whose lower case is one of the four known
   * names selects that provider, any other name fails naming it.
   */
  function SelectProvider(aiName: Option<string>): (r: Result<Provider, string>)
    ensures aiName.None? ==> r == Failure("AI name must not be null")
    ensures aiName.Some? ==> (r.Success? <==> Lower(aiName.value) in ["chatgpt", "grok", "copilot", "gemini"])
    ensures aiName.Some? && r.Failure? ==> r.error == "Unknown AI: " + aiName.value
    ensures r == Success(Gemini) <==> IsGemini(aiName)
  {
    match aiName
    case None => Failure("AI name must not be null")
    case Some(name) =>
      var key := Lower(name);
      assert Lower("gemini") == "gemini";
      if key == "chatgpt" then Success(ChatGpt)
      else if key == "grok" then Success(Grok)
      else if key == "copilot" then Success(Copilot)
      else if key == "gemini" then Success(Gemini)
      else Failure("Unknown AI: " + name)
  }

  // ---------------------------------------------------------------------------
  // Inputs and wire shapes

  /** A file of the pull request; either field may be null. */
  datatype FileData = FileData(path: Option<string>, content: Option<string>)

  /** A chat history entry; either field may be null. */
  datatype MessageDto = MessageDto(role: Option<string>, content: Option<string>)

  /** An OpenAI-style message `{"role": .., "content": ..}`. */
  datatype Message = Message(role: string, content: string)

  /** A Gemini content entry `{"role": .., "parts": [{"text": ..}, ..]}`. */
  datatype Content = Content(role: string, parts: seq<string>)

  /** The `generationConfig` temperatures, kept opaque: 0.7 for reviews, 0.9 for chat. */
  datatype Temperature = ReviewTemperature | ChatTemperature

  datatype Body =
    | GeminiBody(contents: seq<Content>, temperature: Temperature, maxOutputTokens: nat)
    | DefaultBody(model: Option<string>, messages: seq<Message>, maxTokens: nat)

  /** A POST to `url`, with a bearer key when one is set. */
  datatype HttpRequest = HttpRequest(url: string, bearer: Option<string>, body: Body)

  const ReviewTokens: nat := 4096
  const ChatTokens: nat := 2048

  function AsContent(m: Message): Content
  {
    Content(m.role, [m.content])
  }

  function AsContents(ms: seq<Message>): (r: seq<Content>)
    ensures |r| == |ms|
    ensures forall i :: 0 <= i < |ms| ==> r[i] == AsContent(ms[i])
  {
    seq(|ms|, i requires 0 <= i < |ms| => AsContent(ms[i]))
  }

  lemma AsContentsAppend(xs: seq<Message>, ys: seq<Message>)
    ensures AsContents(xs + ys) == AsContents(xs) + AsContents(ys)
  {
  }

  /**
   * The request in either dialect for a system text and the turns that follow it. Gemini
   * gets the key in the URL and the system text as a first "user" entry; every other
   * provider gets a bearer key, the model and the system text as a "system" message.
   */
  function RequestFor(gemini: bool, cfg: ProviderConfig, model: Option<string>, system: string,
                      turns: seq<Message>, temperature: Temperature, limit: nat): HttpRequest
  {
    if gemini then
      HttpRequest(cfg.apiUrl + "?key=" + cfg.apiKey, None,
                  GeminiBody(AsContents([Message("user", system)] + turns), temperature, limit))
    else
      HttpRequest(cfg.apiUrl, Some(cfg.apiKey), DefaultBody(model, [Message("system", system)] + turns, limit))
  }

  /** Both dialects carry the same texts in the same order; only the first entry's role differs. */
  lemma DialectsAgree(cfg: ProviderConfig, model: Option<string>, system: string,
                      turns: seq<Message>, temperature: Temperature, limit: nat)
    ensures var g := RequestFor(true, cfg, model, system, turns, temperature, limit).body;
            var d := RequestFor(false, cfg, model, system, turns, temperature, limit).body;
            |g.contents| == |d.messages| == |turns| + 1
            && g.contents[0] == Content("user", [system]) && d.messages[0] == Message("system", system)
            && forall i :: 1 <= i < |d.messages| ==> g.contents[i] == AsContent(d.messages[i])
  {
  }

  // ---------------------------------------------------------------------------
  // Review turns: one user entry per complete file

  predicate IsComplete(f: FileData) { f.path.Some? && f.content.Some? }

  /** The text sent for one file: its path, then its content in a java code fence. */
  function FileEntry(path: string, content: string): string
  {
    "File: " + path + "\n```java\n" + content + "\n```"
  }

  /** One "user" message per file with a path and a content, in input order; the rest are skipped. */
  function ReviewTurns(files: seq<FileData>): (r: seq<Message>)
    ensures |r| <= |files|
  {
    if files == [] then [] else FileTurn(files[0]) + ReviewTurns(files[1..])
  }

  function FileTurn(f: FileData): (r: seq<Message>)
    ensures |r| <= 1
  {
    if IsComplete(f) then [Message("user", FileEntry(f.path.value, f.content.value))] else []
  }

  lemma {:induction false} ReviewTurnsAppend(xs: seq<FileData>, ys: seq<FileData>)
    ensures ReviewTurns(xs + ys) == ReviewTurns(xs) + ReviewTurns(ys)
  {
    if xs == [] {
      assert xs + ys == ys;
    } else {
      assert (xs + ys)[1..] == xs[1..] + ys;
      ReviewTurnsAppend(xs[1..], ys);
      assert ReviewTurns(xs + ys) == FileTurn(xs[0]) + ReviewTurns(xs[1..] + ys);
    }
  }

  /** Exactly one turn per complete file: there are none exactly when no file is complete. */
  lemma {:induction false} ReviewTurnsEmpty(files: seq<FileData>)
    ensures ReviewTurns(files) == [] <==> forall i :: 0 <= i < |files| ==> !IsComplete(files[i])
  {
    if files != [] {
      ReviewTurnsEmpty(files[1..]);
      assert forall i :: 1 <= i < |files| ==> files[i] == files[1..][i - 1];
    }
  }

  /** With every file complete, each file is sent as one entry, in input order. */
  lemma {:induction false} ReviewTurnsOfCompleteFiles(files: seq<FileData>)
    requires forall i :: 0 <= i < |files| ==> files[i].path.Some? && files[i].content.Some?
    ensures |ReviewTurns(files)| == |files|
    ensures forall i :: 0 <= i < |files| ==>
      ReviewTurns(files)[i] == Message("user", FileEntry(files[i].path.value, files[i].content.value))
  {
    if files != [] {
      ReviewTurnsOfCompleteFiles(files[1..]);
    }
  }

  /** The request of a review, whose system text is the review prompt. */
  function ReviewRequest(gemini: bool, cfg: ProviderConfig, model: Option<string>,
                         files: seq<FileData>, aspects: seq<string>): HttpRequest
  {
    RequestFor(gemini, cfg, model, SystemPrompt(aspects), ReviewTurns(files), ReviewTemperature, ReviewTokens)
  }

  // ---------------------------------------------------------------------------
  // Chat turns: history entries with a role and a content

  predicate IsWellFormed(m: MessageDto) { m.role.Some? && m.content.Some? }

  /** The history entries that have both a role and a content, in order, as messages. */
  function ChatTurns(history: seq<MessageDto>): (r: seq<Message>)
    ensures |r| <= |history|
  {
    if history == [] then [] else HistoryTurn(history[0]) + ChatTurns(history[1..])
  }

  function HistoryTurn(m: MessageDto): (r: seq<Message>)
    ensures |r| <= 1
  {
    if IsWellFormed(m) then [Message(m.role.value, m.content.value)] else []
  }

  lemma {:induction false} ChatTurnsAppend(xs: seq<MessageDto>, ys: seq<MessageDto>)
    ensures ChatTurns(xs + ys) == ChatTurns(xs) + ChatTurns(ys)
  {
    if xs == [] {
      assert xs + ys == ys;
    } else {
      assert (xs + ys)[1..] == xs[1..] + ys;
      ChatTurnsAppend(xs[1..], ys);
      assert ChatTurns(xs + ys) == HistoryTurn(xs[0]) + ChatTurns(xs[1..] + ys);
    }
  }

  /** History with every entry well formed is sent unchanged, entry for entry. */
  lemma {:induction false} ChatTurnsKeepWellFormed(history: seq<MessageDto>)
    requires forall i :: 0 <= i < |history| ==> history[i].role.Some? && history[i].content.Some?
    ensures |ChatTurns(history)| == |history|
    ensures forall i :: 0 <= i < |history| ==>
      ChatTurns(history)[i] == Message(history[i].role.value, history[i].content.value)
  {
    if history != [] {
      ChatTurnsKeepWellFormed(history[1..]);
    }
  }

  /** The chat prompt naming the assistant and the user. */
  function ChatPrompt(aiName: string, username: string): string
  {
    "You are a friendly and knowledgeable AI assistant named " + aiName + ", assisting user '" + username + "'. "
    + "Provide helpful, concise, and engaging responses. "
    + "Use a conversational tone and adapt to the user's context based on the chat history."
  }

  /** The request of a chat. */
  function ChatRequest(gemini: bool, cfg: ProviderConfig, model: Option<string>, prompt: string,
                       history: seq<MessageDto>): HttpRequest
  {
    RequestFor(gemini, cfg, model, prompt, ChatTurns(history), ChatTemperature, ChatTokens)
  }

  // ---------------------------------------------------------------------------
  // The builders, appending entry by entry

  /** The review turns of one more file are those so far followed by that file's turn. */
  lemma ReviewTurnsSnoc(files: seq<FileData>, i: nat)
    requires i < |files|
    ensures ReviewTurns(files[..i + 1]) == ReviewTurns(files[..i]) + FileTurn(files[i])
  {
    ReviewTurnsAppend(files[..i], [files[i]]);
    assert files[..i + 1] == files[..i] + [files[i]];
    assert ReviewTurns([files[i]]) == FileTurn(files[i]) + ReviewTurns([]);
  }

  lemma ContentsSnoc(files: seq<FileData>, i: nat)
    requires i < |files|
    ensures AsContents(ReviewTurns(files[..i + 1])) == AsContents(ReviewTurns(files[..i])) + AsContents(FileTurn(files[i]))
  {
    ReviewTurnsSnoc(files, i);
    AsContentsAppend(ReviewTurns(files[..i]), FileTurn(files[i]));
  }

  /** The loop of `buildGeminiContents`: one content entry per complete file, after `start`. */
  method AppendFileContents(start: seq<Content>, files: seq<FileData>) returns (contents: seq<Content>)
    ensures contents == start + AsContents(ReviewTurns(files))
  {
    contents := start;
    for i := 0 to |files|
      invariant contents == start + AsContents(ReviewTurns(files[..i]))
    {
      ContentsSnoc(files, i);
      var file := files[i];
      if file.content.None? || file.path.None? {
        assert AsContents(FileTurn(file)) == [];
        continue;
      }
      assert AsContents(FileTurn(file)) == [Content("user", [FileEntry(file.path.value, file.content.value)])];
      contents := contents + [Content("user", [FileEntry(file.path.value, file.content.value)])];
    }
    assert files[..|files|] == files;
  }

  lemma PromptEntryFirst(prompt: string, turns: seq<Message>)
    ensures AsContents([Message("user", prompt)] + turns) == [Content("user", [prompt])] + AsContents(turns)
  {
    AsContentsAppend([Message("user", prompt)], turns);
  }

  /** `buildGeminiContents`: the prompt entry, then one entry per complete file. */
  method BuildGeminiContents(files: seq<FileData>, aspects: seq<string>) returns (contents: seq<Content>)
    ensures contents == AsContents([Message("user", SystemPrompt(aspects))] + ReviewTurns(files))
  {
    var prompt := BuildSystemPrompt(aspects);
    contents := AppendFileContents([Content("user", [prompt])], files);
    PromptEntryFirst(prompt, ReviewTurns(files));
  }

  /** The loop of `reviewFiles` for the default dialect: one user message per complete file, after `start`. */
  method AppendFileMessages(start: seq<Message>, files: seq<FileData>) returns (messages: seq<Message>)
    ensures messages == start + ReviewTurns(files)
  {
    messages := start;
    for i := 0 to |files|
      invariant messages == start + ReviewTurns(files[..i])
    {
      ReviewTurnsSnoc(files, i);
      var file := files[i];
      if file.content.None? || file.path.None? {
        continue;
      }
      messages := messages + [Message("user", FileEntry(file.path.value, file.content.value))];
    }
    assert files[..|files|] == files;
  }

  /** The body assembly of `reviewFiles` for either dialect. */
  method BuildReviewRequest(gemini: bool, cfg: ProviderConfig, model: Option<string>,
                            files: seq<FileData>, aspects: seq<string>) returns (request: HttpRequest)
    ensures request == ReviewRequest(gemini, cfg, model, files, aspects)
  {
    if gemini {
      var contents := BuildGeminiContents(files, aspects);
      return HttpRequest(cfg.apiUrl + "?key=" + cfg.apiKey, None, GeminiBody(contents, ReviewTemperature, ReviewTokens));
    }
    var prompt := BuildSystemPrompt(aspects);
    var messages := AppendFileMessages([Message("system", prompt)], files);
    request := HttpRequest(cfg.apiUrl, Some(cfg.apiKey), DefaultBody(model, messages, ReviewTokens));
  }

  lemma ChatContentsSnoc(history: seq<MessageDto>, i: nat)
    requires i < |history|
    ensures AsContents(ChatTurns(history[..i + 1])) == AsContents(ChatTurns(history[..i])) + AsContents(HistoryTurn(history[i]))
  {
    ChatTurnsAppend(history[..i], [history[i]]);
    assert history[..i + 1] == history[..i] + [history[i]];
    assert ChatTurns([history[i]]) == HistoryTurn(history[i]) + ChatTurns([]);
    AsContentsAppend(ChatTurns(history[..i]), HistoryTurn(history[i]));
  }

  /** `addHistoryMessagesForGemini`: appends one content entry per well-formed history entry. */
  method AddHistoryForGemini(contents: seq<Content>, history: seq<MessageDto>) returns (r: seq<Content>)
    ensures r == contents + AsContents(ChatTurns(history))
  {
    r := contents;
    for i := 0 to |history|
      invariant r == contents + AsContents(ChatTurns(history[..i]))
    {
      ChatContentsSnoc(history, i);
      var message := history[i];
      if message.content.None? || message.role.None? {
        assert AsContents(HistoryTurn(message)) == [];
        continue;
      }
      assert AsContents(HistoryTurn(message)) == [Content(message.role.value, [message.content.value])];
      r := r + [Content(message.role.value, [message.content.value])];
    }
    assert history[..|history|] == history;
  }

  /** `addHistoryMessages`: appends one message per well-formed history entry. */
  method AddHistory(messages: seq<Message>, history: seq<MessageDto>) returns (r: seq<Message>)
    ensures r == messages + ChatTurns(history)
  {
    r := messages;
    for i := 0 to |history|
      invariant r == messages + ChatTurns(history[..i])
    {
      ChatTurnsAppend(history[..i], [history[i]]);
      assert history[..i + 1] == history[..i] + [history[i]];
      var message := history[i];
      if message.content.None? || message.role.None? {
        continue;
      }
      r := r + [Message(message.role.value, message.content.value)];
    }
    assert history[..|history|] == history;
  }

  /** The body assembly of `chat` (`buildGeminiRequestBody` / `buildDefaultRequestBody`). */
  method BuildChatRequest(gemini: bool, cfg: ProviderConfig, model: Option<string>, prompt: string,
                          history: seq<MessageDto>) returns (request: HttpRequest)
    ensures request == ChatRequest(gemini, cfg, model, prompt, history)
  {
    if gemini {
      var contents := AddHistoryForGemini([Content("user", [prompt])], history);
      assert AsContents([Message("user", prompt)] + ChatTurns(history)) == [Content("user", [prompt])] + AsContents(ChatTurns(history));
      return HttpRequest(cfg.apiUrl + "?key=" + cfg.apiKey, None, GeminiBody(contents, ChatTemperature, ChatTokens));
    }
    var messages := AddHistory([Message("system", prompt)], history);
    request := HttpRequest(cfg.apiUrl, Some(cfg.apiKey), DefaultBody(model, messages, ChatTokens));
  }
}
