# chatgpt-pinecone-converse, modelled in Dafny

This project models the core of the chat front end "chatgpt-pinecone-converse".
Its services are simulations of a retrieval-augmented chat backend:

- `searchPinecone` builds five mock matches whose similarity falls from 0.95. It drops
  those below the threshold and cuts the rest to `topK`.
- `generateResponseWithOpenAI` composes an answer text from the retrieved chunks.
- `sendMessage` in `api.ts` classifies the user text by keyword and logs the user and
  assistant messages in an in-memory conversation. The same file also offers history and
  reset.
- `conversationService.ts` is a second, standalone conversation log.
- The configuration layer reads the Pinecone and OpenAI settings from the browser's
  `localStorage`. It writes trimmed updates back to both the settings and the store, and
  validates the Pinecone settings.
- The page's query client retries with capped exponential backoff.

Modules, one per source file (plus shared helpers):

| module | file | models |
|---|---|---|
| `Types` | types.dfy | the records of `src/types/index.ts` |
| `Wrappers` | wrappers.dfy | `Option`, `Result`, and `Settled` (how an awaited step ended) |
| `Text` | text.dfy | JavaScript's `trim`, ASCII `toLowerCase`, `includes`, `join` |
| `Numbers` | numbers.dfy | decimal printing of integers, and `Math.round` |
| `EmbeddingService` | embedding_service.dfy | `queryToEmbedding` |
| `PineconeService` | pinecone_service.dfy | `searchPinecone`, with its loop as a `for` loop |
| `OpenAIService` | openai_service.dfy | `generateResponseWithOpenAI` |
| `ConversationService` | conversation_service.dfy | `conversationService.ts`, as a class over a log |
| `Api` | api.dfy | `api.ts`: the keyword classifier, and a class holding the conversation |
| `BrowserStorage` | local_storage.dfy | `localStorage`, as a class over a map |
| `PineconeConfigModule` | pinecone_config.dfy | `config/pinecone.ts` |
| `OpenAIConfigModule` | openai_config.dfy | `config/openai.ts` |
| `QueryRetry` | retry.dfy | `retry` and `retryDelay` of `App.tsx` |

Mutable module state becomes a class whose methods modify it:

- the conversation of `api.ts` and of `conversationService.ts`;
- `PINECONE_CONFIG` and `OPENAI_CONFIG`;
- the store.

Each method's `ensures` ties the new state to a function of the old state, and lemmas
prove the promised properties about those functions. Every awaited step that can fail is
a parameter saying how it settled: the simulated delays and the embedding call. The
failure path is modelled as a `Failure` result.

The search has no best-match fallback. Every match below the threshold is dropped, so
the list can be empty (`SearchThresholdTooHigh`).

`sendMessage` awaits a delay between logging the question and logging the answer. The
page disables its own send controls in that time, but its "New Chat" button stays
enabled, so a reset can run during the `await`. The service itself takes no lock, so a
caller that does not wait could also start a second send. So `ChatApi` models the call as
two steps, `BeginSend` and `FinishSend`. Its invariant `Valid` is the one that survives
any interleaving: every assistant message in the log is one of the canned replies.
`SendMessage` is the two steps run back to back. `ResetDuringSend` shows what a reset
during the `await` does to the log. `OverlappingSends` shows what two sends that overlap
would do, which only a caller that does not wait can cause.

## Model

| member | source | states |
|---|---|---|
| Text.Trim | src/config/pinecone.ts:7 | definition of `trim()`: `TrimEnd` of `TrimStart`; properties in `TrimIsCore`, `TrimIdempotent`, `TrimEmptyIff` |
| Text.TrimStart | src/config/pinecone.ts:7 | the result is a suffix of the text; everything dropped before it is whitespace; it is empty or starts with a non-whitespace character |
| Text.TrimEnd | src/config/pinecone.ts:7 | the result is a prefix of the text; everything dropped after it is whitespace; it is empty or ends with a non-whitespace character |
| Text.TrimIsSlice | src/config/pinecone.ts:7 | `trim()` returns a contiguous slice of the input |
| Text.TrimDropsWhitespace | src/config/pinecone.ts:7 | everything `trim()` removes, before and after what it keeps, is whitespace |
| Text.TrimIsCore | src/config/pinecone.ts:7 | `trim()` is the slice between the first and last non-whitespace characters |
| Text.TrimUntouched | src/config/pinecone.ts:13 | a text with no surrounding whitespace (such as `gcp-starter` or `""`) trims to itself |
| Text.TrimIdempotent | src/config/pinecone.ts:21 | trimming twice is trimming once |
| Text.TrimEmptyIff | src/config/pinecone.ts:51 | `s.trim() === ''` exactly when `s` is all whitespace |
| Text.ToLowerAscii | src/services/api.ts:63 | lower-casing keeps the length |
| Text.ToLowerAsciiIdempotent | src/services/api.ts:63 | lower-casing twice is lower-casing once |
| Text.Includes | src/services/api.ts:63 | definition of `includes` as a scan from the front; properties in `IncludesIff` |
| Text.IncludesSound | src/services/api.ts:63 | when `includes` holds, the fragment occurs at some position |
| Text.IncludesComplete | src/services/api.ts:63 | when the fragment occurs at some position, `includes` holds |
| Text.IncludesIff | src/services/api.ts:63 | `s.includes(t)` exactly when `t` occurs somewhere in `s` |
| Text.IncludesInfix | src/services/openaiService.ts:30 | a text includes every part it is concatenated from |
| Text.IncludesTransitive | src/services/openaiService.ts:27-30 | a text includes whatever the texts it includes include |
| Text.Join | src/services/openaiService.ts:26-28 | definition of `parts.join(sep)`; properties in `JoinSnoc`, `JoinIncludesPart` |
| Text.JoinSnoc | src/services/openaiService.ts:26-28 | joining one more part appends the separator and that part to the join of the rest |
| Text.JoinContainsPart | src/services/openaiService.ts:26-28 | in `parts.join(sep)`, each part sits between the parts before it and the parts after it |
| Text.JoinIncludesPart | src/services/openaiService.ts:26-28 | `parts.join(sep)` includes each of its parts |
| Numbers.NatToString | src/services/pineconeService.ts:30-31 | `${n}` gives at least one decimal digit and no leading zero |
| Numbers.IntToString | src/services/openaiService.ts:27 | `${i}` starts with `-` exactly when `i` is negative |
| Numbers.NatToStringRoundTrip | src/services/pineconeService.ts:30-31 | reading back the printed digits gives the number |
| Numbers.NatToStringInjective | src/services/pineconeService.ts:30 | distinct numbers print differently, so the ids `result-i` are distinct |
| Numbers.Round | src/services/openaiService.ts:27 | `Math.round(x)` is within one half of `x`; halves round up |
| Numbers.RoundOfInteger | src/services/openaiService.ts:27 | rounding an integer gives it back |
| EmbeddingService.QueryToEmbedding | src/services/embeddingService.ts:6-13 | the embedding has 1536 entries, each a draw in [0, 1) shifted into [-0.5, 0.5) |
| PineconeService.Candidate | src/services/pineconeService.ts:29-35 | definition of the record pushed for candidate `i`; properties in `SearchResultFields` |
| PineconeService.Kept | src/services/pineconeService.ts:22-37 | definition of `mockResults` after `n` iterations; properties in `KeptIsPrefix`, `KeptAboveThreshold`, `NoneKeptAboveAll` |
| PineconeService.SearchResults | src/services/pineconeService.ts:22-40 | definition of the list a successful search returns; properties in `SearchBounds`, `SearchAboveThreshold`, `SearchIsCandidatePrefix`, `SearchResultFields`, `SearchOrderedAndDistinct`, `SearchThresholdTooHigh`, `SearchDefaults` |
| PineconeService.CandidateSimilarity | src/services/pineconeService.ts:26 | candidate `i` scores `0.95 - 0.05*i`, never above 0.95 |
| PineconeService.Candidates | src/services/pineconeService.ts:25-36 | the loop makes exactly five candidates |
| PineconeService.CandidatesDecreasing | src/services/pineconeService.ts:25-26 | scores strictly decrease along the candidates |
| PineconeService.KeptCount | src/services/pineconeService.ts:25-37 | no more candidates are kept than were looked at |
| PineconeService.SliceTo | src/services/pineconeService.ts:40 | `slice(0, end)` is a prefix: of length `end` clipped to the length for `end >= 0`, with `-end` elements dropped from the back otherwise |
| PineconeService.SearchPinecone | src/services/pineconeService.ts:10-49 | a failed embedding or delay gives exactly `{message: 'Failed to search vector database.', status: 500}`; otherwise the loop's result, cut by `slice`, with at most five entries, at most `topK` of them when `topK >= 0`, each at or above the threshold |
| PineconeService.KeptIsPrefix | src/services/pineconeService.ts:25-37 | with decreasing scores, the kept candidates are the first `KeptCount` candidates, and the next one is below the threshold |
| PineconeService.KeptAboveThreshold | src/services/pineconeService.ts:28 | everything kept reaches the threshold |
| PineconeService.SearchBounds | src/services/pineconeService.ts:25-40 | a search returns at most five results, and at most `topK` when `topK >= 0` |
| PineconeService.SearchAboveThreshold | src/services/pineconeService.ts:28-40 | every returned result reaches the threshold |
| PineconeService.SearchIsCandidatePrefix | src/services/pineconeService.ts:25-40 | the results are the first candidates in order, as many as `topK` and the number of qualifying candidates allow |
| PineconeService.SearchResultFields | src/services/pineconeService.ts:29-35 | result `k` has id `result-k`, url `https://example.com/result-k`, title `Result {k+1} for "query"`, score `0.95 - 0.05*k`, and content that includes the query |
| PineconeService.SearchOrderedAndDistinct | src/services/pineconeService.ts:25-35 | results come out with strictly decreasing scores and distinct ids |
| PineconeService.NoneKeptAboveAll | src/services/pineconeService.ts:28 | a threshold above every score keeps nothing |
| PineconeService.SearchThresholdTooHigh | src/services/pineconeService.ts:26-40 | a threshold above 0.95 gives an empty list |
| PineconeService.SearchDefaults | src/services/pineconeService.ts:10-40 | with `topK = 3` and threshold 0.7 the three best candidates come back |
| OpenAIService.MatchPercent | src/services/openaiService.ts:27 | the percentage is the nearest whole number to `similarity*100`, and lies in 0..100 for a similarity in [0, 1] |
| OpenAIService.MatchPercentOfWholePercent | src/services/openaiService.ts:27 | a similarity that is a whole percent `k/100` is shown as exactly `k`% |
| OpenAIService.ChunkSummary | src/services/openaiService.ts:27 | definition of one summary line; properties in `SummaryIncludesContent` |
| OpenAIService.ComposeResponse | src/services/openaiService.ts:16-33 | definition of the returned text; properties in `ComposeWithChunks`, `ComposeMentionsEveryChunk`, `ComposeIgnoresContext` |
| OpenAIService.ChunkSummaries | src/services/openaiService.ts:26-28 | there is one summary per chunk |
| OpenAIService.GenerateResponseWithOpenAI | src/services/openaiService.ts:8-41 | a failed delay gives exactly `{message: 'Failed to generate a response.', status: 500}`; no chunks gives the fixed "couldn't find any relevant information" text for the query; otherwise the text starts with the fixed opening naming the query and ends with the fixed closing question |
| OpenAIService.ComposeWithChunks | src/services/openaiService.ts:21-30 | with chunks, the text is the opening, then the summaries joined by blank lines, then the closing question |
| OpenAIService.SummariesGrowAtEnd | src/services/openaiService.ts:26-28 | one more chunk adds a blank line and its summary, numbered one past the rest, after the existing summaries |
| OpenAIService.ComposeIncludesSummaries | src/services/openaiService.ts:26-30 | the joined summaries appear in the text |
| OpenAIService.SummaryIncludesContent | src/services/openaiService.ts:27 | a summary `Information source n (p% match): ` ends with, and so contains, the chunk's content |
| OpenAIService.ComposeMentionsEverySummary | src/services/openaiService.ts:26-30 | every chunk's numbered summary appears in the text |
| OpenAIService.ComposeMentionsEveryChunk | src/services/openaiService.ts:26-30 | every chunk's numbered summary, and so its content, appears in the text |
| OpenAIService.ComposeIgnoresContext | src/services/openaiService.ts:8-33 | the text does not depend on the conversation context |
| ConversationService.ConversationIdFor | src/services/conversationService.ts:5 | an id is `conv-`, the clock reading, `-`, then the random part |
| ConversationService.DistinctClocksDistinctIds | src/services/conversationService.ts:5-20 | ids built at different clock readings differ, whatever the random parts |
| ConversationService.ConversationStore.constructor | src/services/conversationService.ts:5-6 | the log starts empty under a fresh id |
| ConversationService.ConversationStore.GetConversationHistory | src/services/conversationService.ts:9-11 | the returned history equals the log, and nothing changes |
| ConversationService.ConversationStore.AddMessageToHistory | src/services/conversationService.ts:14-16 | the message is appended at the end, and the id is unchanged |
| ConversationService.ConversationStore.ResetConversation | src/services/conversationService.ts:19-22 | the log is empty, under the id built from the supplied clock reading and random part |
| ConversationService.ConversationStore.GetConversationId | src/services/conversationService.ts:25-27 | the current id is returned, and nothing changes |
| Api.MockSources | src/services/api.ts:9-31 | the three canned sources, in file order |
| Api.TopicOf | src/services/api.ts:63-79 | definition of the branch a message takes; properties in `TopicOfBranches`, `ClassifyIgnoresCase` |
| Api.Classify | src/services/api.ts:59-79 | definition of the answer, confidence and sources chosen; properties in `ClassifyVectors`, `ClassifyPinecone`, `ClassifyEmbeddingsOrFallback`, `SourcesFromMock` |
| Api.AnswersFollowQuestions | src/services/api.ts:47-90 | definition: every assistant message directly follows the user message it answers; kept by `SendMessage` |
| Api.OnlyCannedReplies | src/services/api.ts:59-90 | definition: every assistant message in the log is one of the canned replies; the invariant `ChatApi.Valid` |
| Api.TopicOfBranches | src/services/api.ts:63-79 | which keyword test selects each branch; the first test that holds wins |
| Api.ClassifyVectors | src/services/api.ts:63-66 | a text mentioning `vector` or `database` (in any case) gets confidence 0.93 and the first two mock sources, even when it also mentions `pinecone`; no other text gets 0.93 |
| Api.ClassifyPinecone | src/services/api.ts:67-70 | failing that, a text mentioning `pinecone` gets confidence 0.95 and the second mock source; no other text gets 0.95 |
| Api.ClassifyEmbeddingsOrFallback | src/services/api.ts:71-79 | failing both, `embedding` or `openai` gives 0.91 and the third mock source; any other text gets 0.75 and no sources; each confidence only in its case |
| Api.SourcesFromMock | src/services/api.ts:9-79 | the sources of a reply are at most two mock sources, in their original order |
| Api.ClassifyIgnoresCase | src/services/api.ts:63-71 | a text and its lower-cased form are classified alike |
| Api.AnswersFollowQuestionsAfterQuestion | src/services/api.ts:47-53 | logging a user message keeps every assistant message right after the question it answers |
| Api.AnswersFollowQuestionsAfterTurn | src/services/api.ts:47-90 | logging a question and then its answer keeps every assistant message right after the question it answers |
| Api.AnswerIsCanned | src/services/api.ts:59-90 | an answer to any question is one of the canned replies |
| Api.FollowedAnswersAreCanned | src/services/api.ts:47-90 | a log where every answer follows its question holds only canned replies |
| Api.CannedAfterAppend | src/services/api.ts:53-90 | logging a user message or a canned reply keeps the log canned |
| Api.ChatApi.constructor | src/services/api.ts:34-35 | the log starts empty under a fresh id |
| Api.ChatApi.BeginSend | src/services/api.ts:47-53 | the step before the `await`: the user message with the given text is appended; the id is unchanged; the log stays canned |
| Api.ChatApi.FinishSend | src/services/api.ts:56-104 | the step after the `await`: a failed delay throws `{message: 'Failed to send message. Please try again.', status: 500}` and logs nothing more; otherwise the classified reply of the question is appended to whatever the log now holds, and the response mirrors it with the id current at that point; the log stays canned |
| Api.ChatApi.SendMessage | src/services/api.ts:41-105 | the two steps back to back: the user message is always appended; if the delay fails, exactly that message is added and `{message: 'Failed to send message. Please try again.', status: 500}` is thrown; otherwise the log grows by exactly the user message and then the assistant message carrying the classified answer, confidence and sources; the response mirrors that message and carries the unchanged conversation id; every answer stays right after its question |
| Api.ChatApi.GetConversationHistory | src/services/api.ts:108-110 | the returned history equals the log, and nothing changes |
| Api.ChatApi.ResetConversation | src/services/api.ts:113-116 | the log is empty, under the id built from the supplied clock reading and random part |
| Api.ResetDuringSend | src/services/api.ts:41-116 | a reset during the `await` leaves the answer alone in the new log, not after its question, and the response carries the new id |
| Api.OverlappingSends | src/services/api.ts:41-105 | two sends overlapping in their `await`s leave exactly the log: first question, second question, first answer, second answer; so an answer does not follow its question, and the log still holds only canned replies |
| BrowserStorage.LocalStorage.constructor | src/config/pinecone.ts:6 | the store holds the given items |
| BrowserStorage.LocalStorage.GetItem | src/config/pinecone.ts:6 | `getItem` gives the stored text, or null exactly when the key is missing |
| BrowserStorage.LocalStorage.SetItem | src/config/pinecone.ts:22 | `setItem` either stores the text under the key or throws and changes nothing |
| BrowserStorage.Lookup | src/config/pinecone.ts:6 | a lookup succeeds exactly for a stored key, and gives its text |
| BrowserStorage.StoredOr | src/config/pinecone.ts:5-8 | definition of `value ? value.trim() : defaultValue`; properties in `StoredOrCases`, `StoredOrTrimmedValue`, `StoredOrTrimmed` |
| BrowserStorage.StoredOrCases | src/config/pinecone.ts:5-8 | a missing or empty stored value gives the default; any other value gives its trimmed text, which is `""` exactly when the value is all whitespace |
| BrowserStorage.StoredOrTrimmedValue | src/config/pinecone.ts:5-8 | with a trimmed default, the value read is trimmed |
| BrowserStorage.StoredOrTrimmed | src/config/pinecone.ts:5-23 | a trimmed text reads back as itself, unless it is empty, in which case the default is read |
| PineconeConfigModule.StorageKeyInjective | src/config/pinecone.ts:12-16 | the five settings are stored under five different keys |
| PineconeConfigModule.With | src/config/pinecone.ts:23-43 | setting one field changes that field and no other |
| PineconeConfigModule.LoadPineconeConfig | src/config/pinecone.ts:11-17 | definition of `PINECONE_CONFIG` from the stored items; properties in `LoadGet`, `LoadedField`, `LoadedFieldTrimmed`, `LoadEmpty` |
| PineconeConfigModule.LoadGet | src/config/pinecone.ts:11-17 | each loaded setting is read from its own key with its own default |
| PineconeConfigModule.LoadedField | src/config/pinecone.ts:5-17 | a loaded setting is its default when the key is missing or empty, and otherwise the trimmed stored text |
| PineconeConfigModule.LoadedFieldTrimmed | src/config/pinecone.ts:5-17 | every loaded setting is free of surrounding whitespace |
| PineconeConfigModule.DefaultTrimmed | src/config/pinecone.ts:12-16 | the defaults `""` and `gcp-starter` carry no surrounding whitespace |
| PineconeConfigModule.LoadEmpty | src/config/pinecone.ts:11-17 | with nothing stored, the environment is `gcp-starter` and every other setting is empty |
| PineconeConfigModule.Step | src/config/pinecone.ts:20-24 | definition of one `if (config.x !== undefined)` block; properties in `StepView` |
| PineconeConfigModule.Apply | src/config/pinecone.ts:19-45 | definition of the blocks run in order; properties in `ApplyStopped`, `ApplyOk`, `ApplyRefused`, `ApplyCompleted`, `ReloadAfterUpdate` |
| PineconeConfigModule.ApplyStopped | src/config/pinecone.ts:19-45 | after a thrown write, no further block runs |
| PineconeConfigModule.ApplyOk | src/config/pinecone.ts:19-45 | the update completes exactly when none of the writes it attempts throws |
| PineconeConfigModule.ApplyRefused | src/config/pinecone.ts:19-45 | when the first refused write is for the `j`-th setting, the settings before it are updated and the rest are untouched |
| PineconeConfigModule.StepView | src/config/pinecone.ts:20-24 | a completed block stores the trimmed value in its setting and under its key, and changes no other setting or key |
| PineconeConfigModule.ApplyCompleted | src/config/pinecone.ts:19-45 | after a completed update, every supplied setting holds its trimmed value in both the settings and the store; every setting left undefined is unchanged in both |
| PineconeConfigModule.PineconeSettings.constructor | src/config/pinecone.ts:11-17 | the settings are loaded from the store |
| PineconeConfigModule.PineconeSettings.SetField | src/config/pinecone.ts:20-24 | one `if (config.x !== undefined)` block: trim, store, then set the field; a thrown write leaves both unchanged |
| PineconeConfigModule.PineconeSettings.SetPineconeConfig | src/config/pinecone.ts:19-45 | the new settings and store are the five blocks applied in order, stopping at the first thrown write |
| PineconeConfigModule.ApplyUnfold | src/config/pinecone.ts:19-45 | the update is the five blocks in source order |
| PineconeConfigModule.ReloadAfterUpdate | src/config/pinecone.ts:5-45 | after a completed update, reloading from the store gives back the new settings; the exception is an environment set to blanks, which reloads as `gcp-starter` |
| PineconeConfigModule.EveryField | src/config/pinecone.ts:19-45 | the update handles all five settings |
| PineconeConfigModule.PresentIff | src/config/pinecone.ts:50-55 | `!!s && s.trim() !== ''` holds exactly when `s` is not all whitespace |
| PineconeConfigModule.IsPineconeConfigValid | src/config/pinecone.ts:48-57 | definition of `isPineconeConfigValid()`; properties in `PresentIff`, `ConfigErrorMatchesValidity`, `ValidityIgnoresEnvironment` |
| PineconeConfigModule.GetPineconeConfigError | src/config/pinecone.ts:60-71 | definition of `getPineconeConfigError()`; properties in `ConfigErrorMatchesValidity`, `ValidityIgnoresEnvironment` |
| PineconeConfigModule.ConfigErrorMatchesValidity | src/config/pinecone.ts:48-71 | there is an error message exactly when the settings are invalid; the message names the first missing setting, in the order API key, index name, project ID |
| PineconeConfigModule.MessagesDistinct | src/config/pinecone.ts:62-68 | the three error messages differ |
| PineconeConfigModule.ValidityIgnoresEnvironment | src/config/pinecone.ts:48-71 | the environment and the namespace play no part in validation |
| OpenAIConfigModule.ReadSetting | src/config/openai.ts:7-19 | definition of `getLocalStorageItem`: the default without a store, else as `StoredOr`; properties in `ReloadAfterSet`, `SettingTrimmed` |
| OpenAIConfigModule.OpenAISettings.constructor | src/config/openai.ts:7-24 | the key is read from the store with an empty default, or is empty outside a browser |
| OpenAIConfigModule.OpenAISettings.SetOpenAIApiKey | src/config/openai.ts:31-47 | outside a browser nothing changes; a write that throws leaves the key and the store as they were and nothing escapes; otherwise the trimmed key is stored under `openai_api_key` and becomes the setting |
| OpenAIConfigModule.OpenAISettings.GetOpenAIApiKey | src/config/openai.ts:49-51 | the current key is returned |
| OpenAIConfigModule.ReloadAfterSet | src/config/openai.ts:7-42 | a key that was stored reads back as its trimmed form |
| OpenAIConfigModule.SettingTrimmed | src/config/openai.ts:7-19 | the key read never carries surrounding whitespace |
| QueryRetry.RetryCount | src/App.tsx:14 | a failed query is retried once |
| QueryRetry.RetryDelay | src/App.tsx:15 | the delay lies between 1000 and 30000 ms |
| QueryRetry.RetryDelayFirst | src/App.tsx:15 | the first retry waits 1000 ms |
| QueryRetry.RetryDelayPhases | src/App.tsx:15 | for attempts 0 to 4 the delay is `1000 * 2^a`; from attempt 5 on it is 30000 |
| QueryRetry.RetryDelayMonotone | src/App.tsx:15 | later attempts never wait less |

## Left out

- Delays and asynchrony: each `await delay(...)` and the awaited embedding call is a `Settled` parameter. Timing is not modelled.
- `Api.ChatApi.SendMessage` is the atomic case: its contract holds only when nothing else runs during its `await`. A reset during the `await` (the page keeps its "New Chat" button enabled), or another send from a caller that does not wait, is modelled by calling `BeginSend` and `FinishSend` with other calls in between. Then the answer can end up alone in an emptied log, or after another question, and the response carries whatever id is current (`ResetDuringSend`, `OverlappingSends`). Only `OnlyCannedReplies` is kept then, not `AnswersFollowQuestions`.
- The awaits of `searchPinecone` and `generateResponseWithOpenAI` read no shared state after them, so those calls are modelled as single steps.
- `console.log` and `console.error` are left out. So is the `context` string of `generateResponseWithOpenAI`, which is only logged, and the key-masking log line of `setOpenAIApiKey`.
- Ids and timestamps: message ids, `Date.now()`, the random part of conversation ids and `new Date()` are parameters supplied by the caller. No claim is made that a reset gives a different id; `DistinctClocksDistinctIds` only relates ids built at different clock readings.
- Floating point: similarities, confidences and `similarity * 100` are exact reals. IEEE rounding near a threshold (for instance whether `0.95 - 0.05*4` equals `0.75`) is not modelled.
- `toLowerCase` is ASCII only. Unicode case mapping is not modelled.
- `topK` is an integer with the semantics of `slice(0, topK)`. A fractional `topK` is not modelled.
- `Types.Source.metadata` keeps its values as text. The free-form `any` values are not modelled.
- `Types.ChatMessage.timestamp` is an integer count of milliseconds, not a `Date`.
- `PineconeService.SearchPinecone` ignores the embedding's value except for whether the call failed, as the source does. The mock never uses the vector. It asks only that a successful embedding has the length `QueryToEmbedding` promises.
- `EmbeddingService.QueryToEmbedding`: `Math.random()` is replaced by 1536 caller-supplied draws in [0, 1).
- `PineconeConfigModule.PineconeSettings` is always given a store. `config/pinecone.ts` reads `localStorage` without the browser check that `config/openai.ts` makes, so loading it outside a browser would throw. That case is not modelled; only browser code loads that module.
- `localStorage`: a write that throws, for a full quota or switched-off storage, is modelled as a fixed set of keys whose `setItem` fails. A failing `getItem`, caught in `config/openai.ts`, is not modelled; reads always succeed.
- `PineconeConfigModule.PineconeSettings.SetPineconeConfig`: the exception it lets escape is returned as `ok == false`. The settings already written keep their new values, as in the source.
- `Types.PineconeConfig.namespace` is a plain string, because loading always fills it in.
- The two `getLocalStorageItem` helpers, `StoredOr` and `OpenAIConfigModule.ReadSetting`, are functions over the store's items. Their properties are stated by the `StoredOr*`, `LoadedField*`, `ReloadAfterSet` and `SettingTrimmed` lemmas.
- The rest of `App.tsx` is left out, as are the React components, the pages and the HTTP proxies under `api/`: they are rendering, routing and network pass-through.
