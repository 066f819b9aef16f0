/** The simulated chat backend (src/services/api.ts): it logs the user's
    message, picks a canned answer by keyword, logs that answer and returns
    it with the conversation id. Message ids and timestamps, and the clock
    reading and random text a conversation id is built from, are supplied by
    the caller. */
module Api {
  import opened Wrappers
  import opened Types
  import opened Text
  import opened ConversationService
  import opened Sequences

  /** The first canned source. */
  const VectorDatabasesSource: Source :=
    Source("1", "Understanding Vector Databases",
           "Vector databases store data as high-dimensional vectors, allowing for semantic search based on meaning rather than keywords.",
           0.92, Some("https://example.com/vectors"), None)

  /** The second canned source. */
  const PineconeDocsSource: Source :=
    Source("2", "Pinecone Documentation",
           "Pinecone is a vector database designed for machine learning applications, offering fast vector similarity search.",
           0.88, Some("https://docs.pinecone.io"), None)

  /** The third canned source. */
  const OpenAIEmbeddingsSource: Source :=
    Source("3", "OpenAI Embeddings",
           "OpenAI embeddings convert text into numerical vectors that capture semantic meaning.",
           0.85, Some("https://platform.openai.com/docs/guides/embeddings"), None)

  /** `MOCK_SOURCES`: the three canned sources, in their order in the file. */
  const MockSources: seq<Source> := [VectorDatabasesSource, PineconeDocsSource, OpenAIEmbeddingsSource]

  /** What a failed `sendMessage` throws. */
  const SendError: ApiError := ApiError("Failed to send message. Please try again.", Some(500), None)

  /** The canned answer chosen for one message. */
  datatype Reply = Reply(answer: string, confidence: real, sources: seq<Source>)

  /** `message.toLowerCase().includes(keyword)`. */
  predicate Mentions(message: string, keyword: string) {
    Includes(ToLowerAscii(message), keyword)
  }

  predicate AboutVectors(message: string) {
    Mentions(message, "vector") || Mentions(message, "database")
  }

  predicate AboutPinecone(message: string) {
    Mentions(message, "pinecone")
  }

  predicate AboutEmbeddings(message: string) {
    Mentions(message, "embedding") || Mentions(message, "openai")
  }

  /** Which branch of the if-chain a message takes. */
  datatype Topic = Vectors | PineconeTopic | Embeddings | General

  /** The tests of `sendMessage`, in order: the first that holds wins. */
  function TopicOf(message: string): Topic {
    if AboutVectors(message) then Vectors
    else if AboutPinecone(message) then PineconeTopic
    else if AboutEmbeddings(message) then Embeddings
    else General
  }

  /** The canned answers, in branch order. */
  const VectorsAnswer: string :=
    "Vector databases like Pinecone store data as high-dimensional vectors, "
    + "enabling semantic search based on meaning rather than keywords. "
    + "When you query a vector database, "
    + "it finds the most similar vectors to your query vector "
    + "using distance metrics like cosine similarity. "
    + "This is particularly useful for natural language processing, "
    + "image recognition, and recommendation systems."

  const PineconeAnswer: string :=
    "Pinecone is a vector database optimized for machine learning applications. "
    + "It provides fast similarity search for vectors with high dimensionality, "
    + "making it ideal for applications like semantic search, "
    + "recommendation systems, and AI chatbots. "
    + "Pinecone handles the infrastructure complexities of scaling vector search, "
    + "allowing developers to focus on building applications."

  const EmbeddingsAnswer: string :=
    "OpenAI's embeddings convert text into numerical vectors that capture semantic meaning. "
    + "These embeddings can then be stored in vector databases like Pinecone "
    + "for efficient retrieval. "
    + "When a user asks a question, "
    + "the query is converted to an embedding "
    + "and used to search for the most similar vectors in the database, "
    + "providing context for generating accurate answers."

  const GeneralAnswer: string :=
    "I can provide information about vector databases, Pinecone, "
    + "and how they work with language models. "
    + "Is there something specific you'd like to know about these technologies?"

  /** The canned answer of each branch. */
  function AnswerFor(topic: Topic): string {
    match topic
    case Vectors => VectorsAnswer
    case PineconeTopic => PineconeAnswer
    case Embeddings => EmbeddingsAnswer
    case General => GeneralAnswer
  }

  /** The confidence of each branch. */
  function ConfidenceFor(topic: Topic): real {
    match topic
    case Vectors => 0.93
    case PineconeTopic => 0.95
    case Embeddings => 0.91
    case General => 0.75
  }

  /** The sources of each branch. */
  function SourcesFor(topic: Topic): seq<Source> {
    match topic
    case Vectors => MockSources[..2]
    case PineconeTopic => [MockSources[1]]
    case Embeddings => [MockSources[2]]
    case General => []
  }

  /** The reply `sendMessage` builds for `message`. */
  function Classify(message: string): Reply {
    var topic := TopicOf(message);
    Reply(AnswerFor(topic), ConfidenceFor(topic), SourcesFor(topic))
  }


  /** Which test picks each branch. */
  lemma TopicOfBranches(message: string)
    ensures TopicOf(message) == Vectors <==> AboutVectors(message)
    ensures TopicOf(message) == PineconeTopic <==> !AboutVectors(message) && AboutPinecone(message)
    ensures TopicOf(message) == Embeddings
        <==> !AboutVectors(message) && !AboutPinecone(message) && AboutEmbeddings(message)
    ensures TopicOf(message) == General
        <==> !AboutVectors(message) && !AboutPinecone(message) && !AboutEmbeddings(message)
  {
  }

  /** A text about vectors or databases gets confidence 0.93 and the first
      two sources, and nothing else does; this wins over `pinecone`. */
  lemma ClassifyVectors(message: string)
    ensures ConfidenceFor(TopicOf(message)) == 0.93 <==> AboutVectors(message)
    ensures AboutVectors(message) ==> SourcesFor(TopicOf(message)) == MockSources[..2]
  {
    TopicOfBranches(message);
  }

  /** Failing that, a text about Pinecone gets confidence 0.95 and the
      second source, and nothing else does. */
  lemma ClassifyPinecone(message: string)
    ensures ConfidenceFor(TopicOf(message)) == 0.95 <==> !AboutVectors(message) && AboutPinecone(message)
    ensures !AboutVectors(message) && AboutPinecone(message) ==> SourcesFor(TopicOf(message)) == [MockSources[1]]
  {
    TopicOfBranches(message);
  }

  /** Failing both, a text about embeddings or OpenAI gets confidence 0.91
      and the third source; any other text gets 0.75 and no sources. */
  lemma ClassifyEmbeddingsOrFallback(message: string)
    ensures ConfidenceFor(TopicOf(message)) == 0.91
        <==> !AboutVectors(message) && !AboutPinecone(message) && AboutEmbeddings(message)
    ensures !AboutVectors(message) && !AboutPinecone(message) && AboutEmbeddings(message)
        ==> SourcesFor(TopicOf(message)) == [MockSources[2]]
    ensures ConfidenceFor(TopicOf(message)) == 0.75
        <==> !AboutVectors(message) && !AboutPinecone(message) && !AboutEmbeddings(message)
    ensures !AboutVectors(message) && !AboutPinecone(message) && !AboutEmbeddings(message)
        ==> SourcesFor(TopicOf(message)) == []
  {
    TopicOfBranches(message);
  }

  /** `s` is drawn from `t` keeping `t`'s order. */
  predicate IsSubsequence<T(==)>(s: seq<T>, t: seq<T>)
    decreases |t|
  {
    if s == [] then true
    else if t == [] then false
    else if s[0] == t[0] then IsSubsequence(s[1..], t[1..])
    else IsSubsequence(s, t[1..])
  }

  /** The sources of a reply are at most two of the canned sources, in their
      original order. */
  lemma SourcesFromMock(topic: Topic)
    ensures |SourcesFor(topic)| <= 2
    ensures IsSubsequence(SourcesFor(topic), MockSources)
  {
    var m := MockSources;
    var s := SourcesFor(topic);
    if s == m[..2] {
      assert m[..2][1..] == [m[1]];
      assert IsSubsequence([m[1]], m[1..]);
    } else if s == [m[1]] {
      assert IsSubsequence([m[1]], m[1..]);
    } else if s == [m[2]] {
      assert IsSubsequence([m[2]], m[2..]);
      assert IsSubsequence([m[2]], m[1..]);
    }
  }

  /** The classification ignores letter case. */
  lemma ClassifyIgnoresCase(message: string)
    ensures TopicOf(ToLowerAscii(message)) == TopicOf(message)
  {
    ToLowerAsciiIdempotent(message);
  }

  /** The assistant message that logs `reply`. */
  function AssistantMessage(id: string, timestamp: int, reply: Reply): ChatMessage {
    ChatMessage(id, Assistant, reply.answer, timestamp, Some(reply.sources), Some(reply.confidence), None)
  }

  /** `m` is the logged answer to the user text `question`. */
  predicate AnswersTo(m: ChatMessage, question: string) {
    var reply := Classify(question);
    && m.role == Assistant
    && m.content == reply.answer
    && m.sources == Some(reply.sources)
    && m.confidence == Some(reply.confidence)
  }

  /** Every assistant message in the log directly follows the user message
      it answers. */
  predicate AnswersFollowQuestions(history: seq<ChatMessage>) {
    forall i :: 0 <= i < |history| && history[i].role == Assistant ==>
      i > 0 && history[i - 1].role == User && AnswersTo(history[i], history[i - 1].content)
  }

  /** Logging a user message keeps every answer after its question. */
  lemma AnswersFollowQuestionsAfterQuestion(history: seq<ChatMessage>, question: ChatMessage)
    requires AnswersFollowQuestions(history) && question.role == User
    ensures AnswersFollowQuestions(history + [question])
  {
    var h := history + [question];
    forall i | 0 <= i < |h| && h[i].role == Assistant
      ensures i > 0 && h[i - 1].role == User && AnswersTo(h[i], h[i - 1].content)
    {
      assert h[i] == history[i];
      assert h[i - 1] == history[i - 1];
    }
  }

  /** Logging a question and its answer keeps every answer after its question. */
  lemma AnswersFollowQuestionsAfterTurn(history: seq<ChatMessage>, question: ChatMessage, answer: ChatMessage)
    requires AnswersFollowQuestions(history) && question.role == User
    requires AnswersTo(answer, question.content)
    ensures AnswersFollowQuestions(history + [question, answer])
  {
    var h := history + [question, answer];
    forall i | 0 <= i < |h| && h[i].role == Assistant
      ensures i > 0 && h[i - 1].role == User && AnswersTo(h[i], h[i - 1].content)
    {
      if i < |history| {
        assert h[i] == history[i];
        assert h[i - 1] == history[i - 1];
      } else if i == |history| + 1 {
        assert h[i] == answer;
        assert h[i - 1] == question;
      }
    }
  }

  /** `m` is the reply of the branch `t`. */
  predicate RepliesWith(m: ChatMessage, t: Topic) {
    && m.role == Assistant
    && m.content == AnswerFor(t)
    && m.sources == Some(SourcesFor(t))
    && m.confidence == Some(ConfidenceFor(t))
  }

  /** Every assistant message in the log is one of the canned replies. This
      is what stays true when a reset or another send runs while a send
      awaits its delay. */
  predicate OnlyCannedReplies(history: seq<ChatMessage>) {
    forall i :: 0 <= i < |history| && history[i].role == Assistant ==>
      exists t :: RepliesWith(history[i], t)
  }

  /** An answer to any question is a canned reply. */
  lemma AnswerIsCanned(m: ChatMessage, question: string)
    requires AnswersTo(m, question)
    ensures exists t :: RepliesWith(m, t)
  {
    assert RepliesWith(m, TopicOf(question));
  }

  /** A log in which every answer follows its question holds only canned
      replies. */
  lemma FollowedAnswersAreCanned(history: seq<ChatMessage>)
    requires AnswersFollowQuestions(history)
    ensures OnlyCannedReplies(history)
  {
    forall i | 0 <= i < |history| && history[i].role == Assistant
      ensures exists t :: RepliesWith(history[i], t)
    {
      AnswerIsCanned(history[i], history[i - 1].content);
    }
  }

  /** Logging a user message or a canned reply keeps the log canned. */
  lemma CannedAfterAppend(history: seq<ChatMessage>, m: ChatMessage)
    requires OnlyCannedReplies(history)
    requires m.role == Assistant ==> exists t :: RepliesWith(m, t)
    ensures OnlyCannedReplies(history + [m])
  {
    var h := history + [m];
    forall i | 0 <= i < |h| && h[i].role == Assistant
      ensures exists t :: RepliesWith(h[i], t)
    {
      if i < |history| {
        assert h[i] == history[i];
      }
    }
  }

  /** The module-level state of api.ts: the conversation id and the log.
      `sendMessage` awaits a delay between logging the question and logging
      the answer. The page disables its send controls during that time, but
      its "New Chat" button stays enabled, so a reset can run in between;
      and the service itself takes no lock, so a caller that does not wait
      can start a second send. The call is therefore modelled as the two
      steps `BeginSend` and `FinishSend`, and the class invariant is the one
      that survives any interleaving of them. */
  class ChatApi {
    var conversationId: string
    var messageHistory: seq<ChatMessage>

    ghost predicate Valid()
      reads this
    {
      OnlyCannedReplies(messageHistory)
    }

    /** Module initialisation: a fresh id and an empty log. */
    constructor (now: nat, randomPart: string)
      ensures Valid()
      ensures conversationId == ConversationIdFor(now, randomPart) && messageHistory == []
    {
      conversationId := ConversationIdFor(now, randomPart);
      messageHistory := [];
    }

    /** `sendMessage(message)` up to its `await`: the user message is logged. */
    method BeginSend(message: string, userMessageId: string, sentAt: int) returns (question: ChatMessage)
      requires Valid()
      modifies this
      ensures Valid()
      ensures question == ChatMessage(userMessageId, User, message, sentAt, None, None, None)
      ensures messageHistory == old(messageHistory) + [question]
      ensures conversationId == old(conversationId)
    {
      question := ChatMessage(userMessageId, User, message, sentAt, None, None, None);
      CannedAfterAppend(messageHistory, question);
      messageHistory := messageHistory + [question];
    }

    /** `sendMessage(message)` after its `await`, for the logged `question`.
        `latency` is how the delay settled: a rejection throws `SendError`
        and logs nothing more; otherwise the canned reply is logged at the
        end of whatever the log now holds, and the response carries the id
        current at this point. */
    method FinishSend(question: ChatMessage, assistantMessageId: string, answeredAt: int, latency: Settled)
      returns (r: Result<ChatResponse, ApiError>)
      requires Valid()
      modifies this
      ensures Valid()
      ensures conversationId == old(conversationId)
      ensures latency.Rejected? ==> messageHistory == old(messageHistory) && r == Failure(SendError)
      ensures latency.Fulfilled? ==>
        var reply := Classify(question.content);
        && messageHistory == old(messageHistory) + [AssistantMessage(assistantMessageId, answeredAt, reply)]
        && r == Success(ChatResponse(reply.answer, reply.confidence, reply.sources, conversationId, None))
    {
      if latency.Rejected? {
        r := Failure(SendError);
      } else {
        var reply := Classify(question.content);
        var assistantMessage := AssistantMessage(assistantMessageId, answeredAt, reply);
        assert RepliesWith(assistantMessage, TopicOf(question.content));
        CannedAfterAppend(messageHistory, assistantMessage);
        messageHistory := messageHistory + [assistantMessage];
        r := Success(ChatResponse(reply.answer, reply.confidence, reply.sources, conversationId, None));
      }
    }

    /** `sendMessage(message)` when nothing else runs during its `await`:
        the question, then (unless the delay rejects) its answer, are
        logged, and every answer in the log stays right after its question. */
    method SendMessage(message: string, userMessageId: string, sentAt: int,
                       assistantMessageId: string, answeredAt: int, latency: Settled)
      returns (r: Result<ChatResponse, ApiError>)
      requires Valid()
      modifies this
      ensures Valid()
      ensures AnswersFollowQuestions(old(messageHistory)) ==> AnswersFollowQuestions(messageHistory)
      ensures conversationId == old(conversationId)
      ensures var question := ChatMessage(userMessageId, User, message, sentAt, None, None, None);
        if latency.Rejected? then
          messageHistory == old(messageHistory) + [question] && r == Failure(SendError)
        else
          var reply := Classify(message);
          && messageHistory == old(messageHistory) + [question, AssistantMessage(assistantMessageId, answeredAt, reply)]
          && r == Success(ChatResponse(reply.answer, reply.confidence, reply.sources, conversationId, None))
    {
      var userMessage := BeginSend(message, userMessageId, sentAt);
      r := FinishSend(userMessage, assistantMessageId, answeredAt, latency);
      if latency.Rejected? {
        if AnswersFollowQuestions(old(messageHistory)) {
          AnswersFollowQuestionsAfterQuestion(old(messageHistory), userMessage);
        }
      } else {
        var assistantMessage := AssistantMessage(assistantMessageId, answeredAt, Classify(message));
        AppendTwice(old(messageHistory), userMessage, assistantMessage);
        if AnswersFollowQuestions(old(messageHistory)) {
          AnswersFollowQuestionsAfterTurn(old(messageHistory), userMessage, assistantMessage);
        }
      }
    }

    /** `getConversationHistory()`: a copy of the log. */
    method GetConversationHistory() returns (history: seq<ChatMessage>)
      ensures history == messageHistory
    {
      history := messageHistory;
    }

    /** `resetConversation()`: a new id and an empty log. */
    method ResetConversation(now: nat, randomPart: string)
      modifies this
      ensures Valid()
      ensures conversationId == ConversationIdFor(now, randomPart) && messageHistory == []
    {
      conversationId := ConversationIdFor(now, randomPart);
      messageHistory := [];
    }
  }

  /** A reset while a send awaits its delay (the page's "New Chat" button is
      not disabled meanwhile): the answer ends up alone in the new log, not
      after its question, and the response carries the new id. */
  method ResetDuringSend(message: string, userMessageId: string, sentAt: int,
                         assistantMessageId: string, answeredAt: int,
                         startedAt: nat, firstRandom: string, resetAt: nat, secondRandom: string)
    returns (history: seq<ChatMessage>, r: Result<ChatResponse, ApiError>)
    ensures history == [AssistantMessage(assistantMessageId, answeredAt, Classify(message))]
    ensures !AnswersFollowQuestions(history)
    ensures r.Success? && r.value.conversationId == ConversationIdFor(resetAt, secondRandom)
  {
    var api := new ChatApi(startedAt, firstRandom);
    var question := api.BeginSend(message, userMessageId, sentAt);
    api.ResetConversation(resetAt, secondRandom);
    r := api.FinishSend(question, assistantMessageId, answeredAt, Fulfilled);
    history := api.GetConversationHistory();
    assert history[0].role == Assistant;
  }

  /** Two sends overlapping in their awaits, which the service allows to a
      caller that does not wait (the page itself does wait): both questions
      are logged before either answer, so the first answer does not follow
      its question, while the log still holds only canned replies. */
  method OverlappingSends(first: string, second: string, startedAt: nat, randomPart: string)
    returns (history: seq<ChatMessage>)
    ensures history == [ChatMessage("u1", User, first, 0, None, None, None),
                        ChatMessage("u2", User, second, 1, None, None, None),
                        AssistantMessage("a1", 2, Classify(first)),
                        AssistantMessage("a2", 3, Classify(second))]
    ensures !AnswersFollowQuestions(history) && OnlyCannedReplies(history)
  {
    var api := new ChatApi(startedAt, randomPart);
    var q1 := api.BeginSend(first, "u1", 0);
    var q2 := api.BeginSend(second, "u2", 1);
    assert api.messageHistory == [q1, q2];
    var r1 := api.FinishSend(q1, "a1", 2, Fulfilled);
    var a1 := AssistantMessage("a1", 2, Classify(first));
    assert api.messageHistory == [q1, q2, a1];
    var r2 := api.FinishSend(q2, "a2", 3, Fulfilled);
    var a2 := AssistantMessage("a2", 3, Classify(second));
    assert api.messageHistory == [q1, q2, a1, a2];
    history := api.GetConversationHistory();
    assert history[3].role == Assistant && history[2].role != User;
  }
}
