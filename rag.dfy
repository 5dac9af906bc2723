/**
 * The retrieval-augmented answer pipeline `runRag`. The embedding model, the `match_kb_chunks`
 * retrieval procedure (which does the similarity ranking) and the chat-completion model are
 * foreign services: what they answer for this request is the input `Providers`, and what is
 * sent to them is recorded, in order, in the trace `calls`.
 */
module Rag {
  import opened Wrappers
  import opened Env
  import opened Text
  import SupabaseServer

  const ProviderKeyVar := "AI_PROVIDER_KEY"
  const MissingKeyMessage := "AI provider key is missing"
  const EmbeddingModel := "text-embedding-3-small"
  const CompletionModel := "gpt-4o-mini"
  const RetrievalProcedure := "match_kb_chunks"
  const MatchCount: nat := 6
  const SystemPrompt :=
    "You are an AI support assistant. Answer only with the provided"
    + " sources. Cite sources by title and URL. Refuse unsupported questions."
  const NoSourcesAnswer := "I couldn't find relevant sources. Please rephrase your question or contact an agent."
  const NoAnswer := "No answer generated."

  /** An embedding vector; the pipeline never looks inside one. */
  type Vector = seq<real>

  /** A row returned by the retrieval procedure, already ranked by it. */
  datatype ChunkRow = ChunkRow(id: string, title: string, url: Option<string>, content: string, similarity: real)

  datatype RagSource = RagSource(id: string, title: string, url: Option<string>, excerpt: string, similarity: real)

  datatype RagResult = RagResult(answer: string, sources: seq<RagSource>)

  /** The `{ data, error }` pair of a Supabase call; a present `error` is truthy. */
  datatype RpcResponse = RpcResponse(data: Option<seq<ChunkRow>>, error: Option<string>)

  /**
   * What the foreign services answer: the `embedding` field of each item of the embedding
   * response (or the error the call throws), the retrieval response, and the message content of
   * each completion choice (or the error the call throws).
   */
  datatype Providers = Providers(
    embedding: Result<seq<Option<Vector>>>,
    retrieval: RpcResponse,
    completion: Result<seq<Option<string>>>)

  datatype ProviderCall =
    | EmbeddingRequest(model: string, input: string)
    | RetrievalRequest(procedure: string, queryEmbedding: Vector, matchCount: nat, filterBusinessId: Option<string>)
    | CompletionRequest(model: string, system: string, user: string)

  /** The outcome of one `runRag` call (its result or the error it throws) and the calls it made. */
  datatype RagRun = RagRun(outcome: Result<RagResult>, calls: seq<ProviderCall>)

  /** `getOpenAIClient()`: the API key, or the error thrown when it is unset or empty. */
  function OpenAIClient(env: Env): (r: Result<string>)
    ensures r.Ok? <==> IsSet(env, ProviderKeyVar)
    ensures r.Ok? ==> r.value == env[ProviderKeyVar]
    ensures r.Err? ==> r.message == MissingKeyMessage
  {
    var key := Lookup(env, ProviderKeyVar);
    if !Truthy(key) then Err(MissingKeyMessage) else Ok(key.value)
  }

  /** `embedding.data[0]?.embedding ?? []`. */
  function QueryVector(items: seq<Option<Vector>>): (q: Vector)
    ensures |items| > 0 && items[0].Some? ==> q == items[0].value
    ensures |items| == 0 || items[0].None? ==> q == []
  {
    if |items| > 0 then items[0].GetOr([]) else []
  }

  /** One paragraph of the evidence block for the source numbered `index`. */
  function SourceBlock(index: nat, row: ChunkRow): string {
    "Source " + DecimalString(index) + ": " + row.title + "\n" + row.content + "\nURL: " + row.url.GetOr("")
  }

  function SourceBlocks(rows: seq<ChunkRow>): (b: seq<string>)
    ensures |b| == |rows|
    ensures forall i :: 0 <= i < |rows| ==> b[i] == SourceBlock(i + 1, rows[i])
  {
    seq(|rows|, i requires 0 <= i < |rows| => SourceBlock(i + 1, rows[i]))
  }

  /** The evidence block: the source paragraphs in retrieval order, separated by blank lines. */
  function Context(rows: seq<ChunkRow>): (c: string)
    ensures c == "" <==> rows == []
    ensures rows != [] ==> |c| >= 7 && c[..7] == "Source "
    ensures rows != [] ==>
      |c| >= |SourceBlock(1, rows[0])| && c[..|SourceBlock(1, rows[0])|] == SourceBlock(1, rows[0])
  {
    var blocks := SourceBlocks(rows);
    assert forall i :: 0 <= i < |blocks| ==> blocks[i][..7] == "Source ";
    JoinEmptyIff(blocks, "\n\n");
    if rows == [] then ""
    else
      JoinHead(blocks, "\n\n");
      Join(blocks, "\n\n")
  }

  /**
   * Appending a row appends one paragraph numbered one past the rows before it, so the paragraphs
   * are numbered 1, 2, 3, ... in the order the retrieval procedure returned the rows.
   */
  lemma ContextSnoc(rows: seq<ChunkRow>, row: ChunkRow)
    ensures Context(rows + [row]) ==
      if rows == [] then SourceBlock(1, row)
      else Context(rows) + "\n\n" + SourceBlock(|rows| + 1, row)
  {
    assert SourceBlocks(rows + [row]) == SourceBlocks(rows) + [SourceBlock(|rows| + 1, row)];
    if rows != [] {
      JoinSnoc(SourceBlocks(rows), SourceBlock(|rows| + 1, row), "\n\n");
    }
  }

  /** The paragraph numbers are the decimal texts of distinct positions, so no two paragraphs share one. */
  lemma SourceNumbersDistinct(i: nat, j: nat, a: ChunkRow)
    requires i != j
    ensures SourceBlock(i, a)[..7] == "Source "
    ensures DecimalString(i) != DecimalString(j)
  {
    if DecimalString(i) == DecimalString(j) {
      DecimalInjective(i, j);
    }
  }

  /** The user message sent to the completion model. */
  function UserPrompt(question: string, context: string): (p: string)
    ensures |p| >= 10 + |question| + |context|
    ensures p[..10] == "Question: " && p[10..10 + |question|] == question
    ensures p[|p| - |context|..] == context
  {
    "Question: " + question + "\n\nSources:\n" + context
  }

  /** `completion.choices[0]?.message?.content ?? "No answer generated."`. */
  function Answer(choices: seq<Option<string>>): (a: string)
    ensures |choices| > 0 && choices[0].Some? ==> a == choices[0].value
    ensures |choices| == 0 || choices[0].None? ==> a == NoAnswer
  {
    if |choices| > 0 then choices[0].GetOr(NoAnswer) else NoAnswer
  }

  function ToSource(row: ChunkRow): RagSource {
    RagSource(row.id, row.title, row.url, row.content, row.similarity)
  }

  /** The rows as citations: same length and order, `excerpt` taken from `content`. */
  function Sources(rows: seq<ChunkRow>): (s: seq<RagSource>)
    ensures |s| == |rows|
    ensures forall i :: 0 <= i < |rows| ==>
      && s[i].id == rows[i].id && s[i].title == rows[i].title && s[i].url == rows[i].url
      && s[i].excerpt == rows[i].content && s[i].similarity == rows[i].similarity
  {
    seq(|rows|, i requires 0 <= i < |rows| => ToSource(rows[i]))
  }

  /** The result returned when retrieval reports an error or no data. */
  const NoSourcesResult := RagResult(NoSourcesAnswer, [])

  /** Retrieval failed (`error || !data`): an empty but present row list does not count. */
  predicate RetrievalFailed(r: RpcResponse) {
    r.error.Some? || r.data.None?
  }

  /** The Supabase client can be created and the provider key is set. */
  predicate Configured(env: Env) {
    SupabaseServer.CreateServerClient(env).Ok? && IsSet(env, ProviderKeyVar)
  }

  /** `runRag(question, businessId)` with the foreign services' answers given by `p`. */
  function RunRag(env: Env, question: string, businessId: Option<string>, p: Providers): (run: RagRun)
    // The Supabase client and the provider key are checked before anything is sent.
    ensures !SupabaseServer.CreateServerClient(env).Ok? ==>
      run == RagRun(Err(SupabaseServer.MissingVariablesMessage), [])
    ensures SupabaseServer.CreateServerClient(env).Ok? && !IsSet(env, ProviderKeyVar) ==>
      run == RagRun(Err(MissingKeyMessage), [])
    // Every request made follows a fixed order and shape.
    ensures |run.calls| <= 3
    ensures |run.calls| > 0 ==> run.calls[0] == EmbeddingRequest(EmbeddingModel, question)
    ensures |run.calls| > 1 ==> (p.embedding.Ok? &&
      run.calls[1] == RetrievalRequest(RetrievalProcedure, QueryVector(p.embedding.value), MatchCount, businessId))
    ensures |run.calls| > 2 ==> (!RetrievalFailed(p.retrieval) &&
      run.calls[2] == CompletionRequest(CompletionModel, SystemPrompt, UserPrompt(question, Context(p.retrieval.data.value))))
    // A thrown embedding or completion error propagates unchanged.
    ensures run.outcome.Err? && |run.calls| > 0 ==>
      (p.embedding.Err? && run.outcome.message == p.embedding.message) ||
      (p.completion.Err? && run.outcome.message == p.completion.message)
    // Retrieval failure ends the run with the fixed answer and no completion request.
    ensures |run.calls| > 1 && RetrievalFailed(p.retrieval) ==>
      run == RagRun(Ok(NoSourcesResult), run.calls[..2])
    // A successful run answers with the first choice and cites every retrieved row.
    ensures run.outcome.Ok? && |run.calls| == 3 ==> (p.completion.Ok? &&
      run.outcome.value == RagResult(Answer(p.completion.value), Sources(p.retrieval.data.value)))
    // Once configured, each provider answer decides the whole run.
    ensures Configured(env) && p.embedding.Err? ==>
      run == RagRun(Err(p.embedding.message), [EmbeddingRequest(EmbeddingModel, question)])
    ensures Configured(env) && p.embedding.Ok? && RetrievalFailed(p.retrieval) ==>
      run.outcome == Ok(NoSourcesResult) && |run.calls| == 2
    ensures Configured(env) && p.embedding.Ok? && !RetrievalFailed(p.retrieval) ==>
      |run.calls| == 3 &&
      run.outcome == (if p.completion.Err? then Err(p.completion.message)
        else Ok(RagResult(Answer(p.completion.value), Sources(p.retrieval.data.value))))
  {
    if SupabaseServer.CreateServerClient(env).Err? then
      RagRun(Err(SupabaseServer.MissingVariablesMessage), [])
    else
      match OpenAIClient(env)
      case Err(m) => RagRun(Err(m), [])
      case Ok(_) =>
        var embed := EmbeddingRequest(EmbeddingModel, question);
        match p.embedding
        case Err(m) => RagRun(Err(m), [embed])
        case Ok(items) =>
          var retrieve := RetrievalRequest(RetrievalProcedure, QueryVector(items), MatchCount, businessId);
          if RetrievalFailed(p.retrieval) then
            RagRun(Ok(NoSourcesResult), [embed, retrieve])
          else
            var rows := p.retrieval.data.value;
            var complete := CompletionRequest(CompletionModel, SystemPrompt, UserPrompt(question, Context(rows)));
            match p.completion
            case Err(m) => RagRun(Err(m), [embed, retrieve, complete])
            case Ok(choices) => RagRun(Ok(RagResult(Answer(choices), Sources(rows))), [embed, retrieve, complete])
  }

  /** Once the client and key checks pass, the embedding request is always made. */
  lemma ConfiguredRunEmbeds(env: Env, question: string, businessId: Option<string>, p: Providers)
    requires SupabaseServer.CreateServerClient(env).Ok? && IsSet(env, ProviderKeyVar)
    ensures |RunRag(env, question, businessId, p).calls| > 0
  {
  }

  /**
   * An empty but present row list is not a retrieval failure: the completion is still requested,
   * with an empty evidence block, and the result cites nothing.
   */
  lemma EmptyRowsStillGenerate(env: Env, question: string, businessId: Option<string>, p: Providers)
    requires SupabaseServer.CreateServerClient(env).Ok? && IsSet(env, ProviderKeyVar)
    requires p.embedding.Ok? && p.retrieval == RpcResponse(Some([]), None) && p.completion.Ok?
    ensures var run := RunRag(env, question, businessId, p);
      && |run.calls| == 3
      && run.calls[2].user == "Question: " + question + "\n\nSources:\n"
      && run.outcome == Ok(RagResult(Answer(p.completion.value), []))
  {
  }
}
