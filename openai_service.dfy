/** The simulated answer composer (src/services/openaiService.ts): a fixed
    opening, one numbered summary per retrieved chunk and a fixed closing
    question, or a fixed apology when nothing was retrieved. */
module OpenAIService {
  import opened Wrappers
  import opened Types
  import opened Text
  import opened Numbers

  /** What every failure inside the composer is turned into. */
  const GenerateError: ApiError := ApiError("Failed to generate a response.", Some(500), None)

  const SummarySeparator: string := "\n\n"

  const ResponseSuffix: string :=
    "\n\nIs there anything specific about this topic you'd like to know more about?"

  function ResponsePrefix(query: string): string {
    "Based on your query \"" + query + "\", I found the following information:\n\n"
  }

  /** The text for an empty chunk list. */
  function NoInformation(query: string): string {
    "I couldn't find any relevant information for your query \"" + query
      + "\" in the vector database. "
      + "Could you please rephrase your question or ask about something else?"
  }

  /** `Math.round(similarity * 100)`: the score as the nearest whole percent. */
  function MatchPercent(similarity: real): (p: int)
    ensures similarity * 100.0 - 0.5 < p as real <= similarity * 100.0 + 0.5
    ensures 0.0 <= similarity <= 1.0 ==> 0 <= p <= 100
  {
    Round(similarity * 100.0)
  }

  /** A score that is a whole percent is shown as exactly that percent
      (a similarity of 0.92 reads "92% match"). */
  lemma MatchPercentOfWholePercent(k: int)
    ensures MatchPercent(k as real / 100.0) == k
  {
    assert k as real / 100.0 * 100.0 == k as real;
    RoundOfInteger(k);
  }

  /** The words before a chunk's content in its summary: its number and
      its score in percent. */
  function SummaryHead(number: nat, chunk: Source): string {
    "Information source " + NatToString(number) + " (" + IntToString(MatchPercent(chunk.similarity)) + "% match): "
  }

  /** The summary line of the chunk numbered `number`. */
  function ChunkSummary(number: nat, chunk: Source): string {
    SummaryHead(number, chunk) + chunk.content
  }

  /** `chunks.map((chunk, index) => ...)`: the summaries, numbered from 1. */
  function ChunkSummaries(chunks: seq<Source>): (r: seq<string>)
    ensures |r| == |chunks|
  {
    seq(|chunks|, k requires 0 <= k < |chunks| => ChunkSummary(k + 1, chunks[k]))
  }

  /** The text the composer returns once the simulated delay has passed.
      `conversationContext` is accepted and not used. */
  function ComposeResponse(query: string, chunks: seq<Source>, conversationContext: seq<ChatMessage>): string {
    if |chunks| > 0 then
      ResponsePrefix(query) + Join(ChunkSummaries(chunks), SummarySeparator) + ResponseSuffix
    else
      NoInformation(query)
  }

  /** `generateResponseWithOpenAI(query, chunks, conversationContext)`;
      `latency` is how the simulated delay settled. */
  function GenerateResponseWithOpenAI(query: string, chunks: seq<Source>, conversationContext: seq<ChatMessage>,
                                      latency: Settled): (r: Result<string, ApiError>)
    ensures r.Failure? <==> latency.Rejected?
    ensures r.Failure? ==> r.error == GenerateError
    ensures r.Success? && chunks == [] ==> r.value == NoInformation(query)
    ensures r.Success? && chunks != [] ==>
      StartsWith(r.value, ResponsePrefix(query)) && EndsWith(r.value, ResponseSuffix)
  {
    if latency.Rejected? then Failure(GenerateError)
    else Success(ComposeResponse(query, chunks, conversationContext))
  }

  /** With chunks, the text is the opening, the summaries joined by blank
      lines, and the closing question, in that order. */
  lemma ComposeWithChunks(query: string, chunks: seq<Source>, conversationContext: seq<ChatMessage>)
    requires chunks != []
    ensures var body := ComposeResponse(query, chunks, conversationContext);
      && StartsWith(body, ResponsePrefix(query))
      && EndsWith(body, ResponseSuffix)
      && body[|ResponsePrefix(query)|..|body| - |ResponseSuffix|] == Join(ChunkSummaries(chunks), SummarySeparator)
  {
    var body := ComposeResponse(query, chunks, conversationContext);
    var middle := Join(ChunkSummaries(chunks), SummarySeparator);
    assert body == ResponsePrefix(query) + middle + ResponseSuffix;
    assert body[|ResponsePrefix(query)|..|body| - |ResponseSuffix|] == middle;
  }

  /** A further chunk adds a blank line and its own summary, numbered one
      past the others, after the summaries already there. */
  lemma {:induction false} SummariesGrowAtEnd(chunks: seq<Source>, chunk: Source)
    requires chunks != []
    ensures Join(ChunkSummaries(chunks + [chunk]), SummarySeparator)
         == Join(ChunkSummaries(chunks), SummarySeparator) + SummarySeparator + ChunkSummary(|chunks| + 1, chunk)
  {
    assert ChunkSummaries(chunks + [chunk]) == ChunkSummaries(chunks) + [ChunkSummary(|chunks| + 1, chunk)];
    JoinSnoc(ChunkSummaries(chunks), ChunkSummary(|chunks| + 1, chunk), SummarySeparator);
  }

  /** With chunks, the joined summaries appear in the answer. */
  lemma ComposeIncludesSummaries(query: string, chunks: seq<Source>, conversationContext: seq<ChatMessage>)
    requires chunks != []
    ensures Includes(ComposeResponse(query, chunks, conversationContext), Join(ChunkSummaries(chunks), SummarySeparator))
  {
    IncludesInfix(ResponsePrefix(query), Join(ChunkSummaries(chunks), SummarySeparator), ResponseSuffix);
  }

  /** A chunk's summary ends with its content. */
  lemma SummaryIncludesContent(number: nat, chunk: Source)
    ensures EndsWith(ChunkSummary(number, chunk), chunk.content)
    ensures Includes(ChunkSummary(number, chunk), chunk.content)
  {
    var head := SummaryHead(number, chunk);
    assert ChunkSummary(number, chunk)[|head|..] == chunk.content;
    assert ChunkSummary(number, chunk) == head + chunk.content + "";
    IncludesInfix(head, chunk.content, "");
  }

  /** The summary of every chunk appears in the answer. */
  lemma ComposeMentionsEverySummary(query: string, chunks: seq<Source>, conversationContext: seq<ChatMessage>, k: nat)
    requires k < |chunks|
    ensures Includes(ComposeResponse(query, chunks, conversationContext), ChunkSummary(k + 1, chunks[k]))
  {
    var parts := ChunkSummaries(chunks);
    JoinIncludesPart(parts, SummarySeparator, k);
    assert parts[k] == ChunkSummary(k + 1, chunks[k]);
    ComposeIncludesSummaries(query, chunks, conversationContext);
    IncludesTransitive(ComposeResponse(query, chunks, conversationContext), Join(parts, SummarySeparator), parts[k]);
  }

  /** The summary of every chunk, and so its content, appears in the answer. */
  lemma ComposeMentionsEveryChunk(query: string, chunks: seq<Source>, conversationContext: seq<ChatMessage>, k: nat)
    requires k < |chunks|
    ensures Includes(ComposeResponse(query, chunks, conversationContext), ChunkSummary(k + 1, chunks[k]))
    ensures Includes(ComposeResponse(query, chunks, conversationContext), chunks[k].content)
  {
    ComposeMentionsEverySummary(query, chunks, conversationContext, k);
    SummaryIncludesContent(k + 1, chunks[k]);
    IncludesTransitive(ComposeResponse(query, chunks, conversationContext), ChunkSummary(k + 1, chunks[k]), chunks[k].content);
  }

  /** The answer does not depend on the conversation context. */
  lemma ComposeIgnoresContext(query: string, chunks: seq<Source>, c1: seq<ChatMessage>, c2: seq<ChatMessage>)
    ensures ComposeResponse(query, chunks, c1) == ComposeResponse(query, chunks, c2)
  {
  }
}
