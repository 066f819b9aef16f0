/** The records exchanged by the services (src/types/index.ts). Timestamps
    (`new Date()`) are milliseconds supplied by the caller. */
module Types {
  import opened Wrappers

  datatype Role = User | Assistant

  /** `error?: { type, message }` on a message or a response. */
  datatype ErrorInfo = ErrorInfo(kind: string, message: string)

  /** One retrieved evidence chunk. `metadata` is a free-form mapping; its
      values are kept as text. */
  datatype Source = Source(
    id: string,
    title: string,
    content: string,
    similarity: real,
    url: Option<string>,
    metadata: Option<map<string, string>>)

  /** One turn of a conversation. */
  datatype ChatMessage = ChatMessage(
    id: string,
    role: Role,
    content: string,
    timestamp: int,
    sources: Option<seq<Source>>,
    confidence: Option<real>,
    error: Option<ErrorInfo>)

  /** What `sendMessage` hands back to the page. */
  datatype ChatResponse = ChatResponse(
    answer: string,
    confidence: real,
    sources: seq<Source>,
    conversationId: string,
    error: Option<ErrorInfo>)

  /** The object the services throw: `{ message, status?, type? }`. */
  datatype ApiError = ApiError(message: string, status: Option<int>, kind: Option<string>)

  /** The five Pinecone settings; `namespace` is always filled in when the
      configuration is loaded, so it is a plain string here. */
  datatype PineconeConfig = PineconeConfig(
    apiKey: string,
    environment: string,
    indexName: string,
    projectId: string,
    namespace: string)

  /** `Partial<PineconeConfig>`: `None` is a field left `undefined`. */
  datatype PineconeConfigUpdate = PineconeConfigUpdate(
    apiKey: Option<string>,
    environment: Option<string>,
    indexName: Option<string>,
    projectId: Option<string>,
    namespace: Option<string>)
}
