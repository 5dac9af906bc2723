/** The chat endpoint `POST /api/chat`: picks the question, runs the pipeline, composes the reply. */
module ChatRoute {
  import opened Wrappers
  import opened Env
  import opened Text
  import opened Rag
  import SupabaseServer

  const AskPrompt := "Ask a question to get started."
  const UnavailableReply := "AI is unavailable. Please request human support."
  const NoSourcesFooter := "No sources found."

  datatype ChatMessage = ChatMessage(content: Option<string>)

  /** The parsed request body: `messages` and `businessId` may each be absent. */
  datatype ChatBody = ChatBody(messages: Option<seq<ChatMessage>>, businessId: Option<string>)

  /** The JSON response: HTTP status, `reply`, and the optional `sources` and `error` fields. */
  datatype ChatResponse = ChatResponse(status: nat, reply: string, sources: Option<seq<RagSource>>, error: Option<string>)

  /** The response, the question `runRag` was called with (if it was), and the provider calls made. */
  datatype ChatExchange = ChatExchange(response: ChatResponse, ragQuestion: Option<string>, calls: seq<ProviderCall>)

  /** `messages[messages.length - 1]?.content ?? ""`, with `body.messages ?? []`. */
  function LastMessage(body: ChatBody): (q: string)
    ensures body.messages.None? || body.messages.value == [] ==> q == ""
    ensures body.messages.Some? && |body.messages.value| > 0 ==>
      q == body.messages.value[|body.messages.value| - 1].content.GetOr("")
  {
    var messages := body.messages.GetOr([]);
    if |messages| == 0 then "" else messages[|messages| - 1].content.GetOr("")
  }

  /** One footer line per source: `- {title} ({url ?? ""})`. */
  function SourceLine(s: RagSource): (line: string)
    ensures |line| >= 2 && line[..2] == "- "
  {
    "- " + s.title + " (" + s.url.GetOr("") + ")"
  }

  function SourceLines(sources: seq<RagSource>): (lines: seq<string>)
    ensures |lines| == |sources|
    ensures forall i :: 0 <= i < |sources| ==> lines[i] == SourceLine(sources[i])
  {
    seq(|sources|, i requires 0 <= i < |sources| => SourceLine(sources[i]))
  }

  /** `sourcesText || "No sources found."`: the footer falls back exactly when there are no sources. */
  function Footer(sources: seq<RagSource>): (f: string)
    ensures f == NoSourcesFooter <==> sources == []
    ensures sources != [] ==> f == Join(SourceLines(sources), "\n")
  {
    var text := Join(SourceLines(sources), "\n");
    FooterText(sources);
    assert sources != [] ==> text[0] == "- "[0] != NoSourcesFooter[0];
    if text == "" then NoSourcesFooter else text
  }

  /** The joined lines are empty only without sources, and otherwise start with a line's "- ". */
  lemma FooterText(sources: seq<RagSource>)
    ensures Join(SourceLines(sources), "\n") == "" <==> sources == []
    ensures sources != [] ==> Join(SourceLines(sources), "\n")[..2] == "- "
  {
    var lines := SourceLines(sources);
    JoinEmptyIff(lines, "\n");
    if sources != [] {
      JoinHead(lines, "\n");
      assert Join(lines, "\n")[..2] == lines[0][..2];
    }
  }

  /** The reply text: the answer, a "Sources:" heading, then the footer. */
  function Reply(result: RagResult): (r: string)
    ensures |r| >= |result.answer| + 11
    ensures r[..|result.answer|] == result.answer
    ensures r[|result.answer|..|result.answer| + 11] == "\n\nSources:\n"
    ensures r[|result.answer| + 11..] == NoSourcesFooter <==> result.sources == []
  {
    result.answer + "\n\nSources:\n" + Footer(result.sources)
  }

  /** `POST /api/chat` with `env` as the environment and `p` as the services' answers. */
  function Post(env: Env, body: ChatBody, p: Providers): (x: ChatExchange)
    // An empty or missing question is rejected before the pipeline runs.
    ensures LastMessage(body) == "" ==>
      x == ChatExchange(ChatResponse(400, AskPrompt, None, None), None, [])
    // Otherwise the pipeline gets the last message verbatim (it is not trimmed).
    ensures LastMessage(body) != "" ==> x.ragQuestion == Some(LastMessage(body))
    ensures LastMessage(body) != "" ==> x.calls == RunRag(env, LastMessage(body), body.businessId, p).calls
    // A thrown error becomes the unavailability reply carrying the error message.
    ensures LastMessage(body) != "" && RunRag(env, LastMessage(body), body.businessId, p).outcome.Err? ==>
      x.response == ChatResponse(500, UnavailableReply, None,
                                 Some(RunRag(env, LastMessage(body), body.businessId, p).outcome.message))
    // A result becomes the answer, the sources footer, and the unchanged sources.
    ensures LastMessage(body) != "" && RunRag(env, LastMessage(body), body.businessId, p).outcome.Ok? ==>
      var result := RunRag(env, LastMessage(body), body.businessId, p).outcome.value;
      x.response == ChatResponse(200, Reply(result), Some(result.sources), None)
  {
    var question := LastMessage(body);
    if question == "" then
      ChatExchange(ChatResponse(400, AskPrompt, None, None), None, [])
    else
      var run := RunRag(env, question, body.businessId, p);
      var response :=
        match run.outcome
        case Err(m) => ChatResponse(500, UnavailableReply, None, Some(m))
        case Ok(result) => ChatResponse(200, Reply(result), Some(result.sources), None);
      ChatExchange(response, Some(question), run.calls)
  }

  /** A whitespace-only question is not rejected: it reaches the pipeline as it is. */
  lemma WhitespaceQuestionReachesRag(env: Env, p: Providers)
    ensures Post(env, ChatBody(Some([ChatMessage(Some(" "))]), None), p).ragQuestion == Some(" ")
  {
  }

  /** Without a provider key the endpoint answers 500 with the key error and contacts no provider. */
  lemma MissingKeyIsUnavailable(env: Env, body: ChatBody, p: Providers)
    requires SupabaseServer.CreateServerClient(env).Ok? && !IsSet(env, ProviderKeyVar)
    requires LastMessage(body) != ""
    ensures Post(env, body, p) ==
      ChatExchange(ChatResponse(500, UnavailableReply, None, Some(MissingKeyMessage)), Some(LastMessage(body)), [])
  {
  }

  /** A retrieval error yields the fixed answer, the empty-footer text and no sources, with status 200. */
  lemma RetrievalErrorReply(env: Env, body: ChatBody, p: Providers)
    requires SupabaseServer.CreateServerClient(env).Ok? && IsSet(env, ProviderKeyVar)
    requires LastMessage(body) != "" && p.embedding.Ok? && p.retrieval.error.Some?
    ensures Post(env, body, p).response ==
      ChatResponse(200, NoSourcesAnswer + "\n\nSources:\n" + NoSourcesFooter, Some([]), None)
    ensures |Post(env, body, p).calls| == 2
  {
    var run := RunRag(env, LastMessage(body), body.businessId, p);
    assert |run.calls| > 0;
    assert run.outcome == Ok(NoSourcesResult);
  }
}
