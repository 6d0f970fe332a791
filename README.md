# Generative-AI web apps: a verified model of their core logic

The repository is a collection of JavaScript example applications that put language
models behind web pages and API routes: chat clients and streaming routes, a
retrieval-augmented knowledge base on Redis, an interview assistant with persisted
sessions, quota and middleware chains in front of chat routes, a prompt library, token
and error trackers, a document indexer, a k-means summariser and a few small utilities.
This project models the parts of those applications that hold state or make decisions,
and proves what each of them promises.

The model is split into one Dafny module per source file, plus four shared modules:

- `Wrappers`: `Option` and `Result`.
- `Text`: string helpers on `seq<char>`. They cover ASCII case mapping, `trim`, `includes`,
  `join`, the first-occurrence `replace` and decimal rendering.
- `KeyValue`: an in-memory Redis key space, as a class `Store`. It has hashes, sets,
  lists, plain string values and counters. Its methods are the commands the applications
  issue (`HSET`, `HGETALL`, `SADD`, `SREM`, `SMEMBERS`, `DEL`, `RPUSH`, `SET`, `INCR`,
  `EXPIRE`).
- `Listing`: the stable sort by `updatedAt` or `createdAt`, newest first, that the
  database listings use.

Code that updates state in place is written as classes and methods with loops and
invariants:

- the Redis-backed databases;
- the token tracker, the prompt library and the RAG wrapper object;
- the middleware response;
- the streaming writer.

Pure code is written as functions and lemmas. Clocks, generated ids, model calls,
embeddings, the k-means library and file loading are parameters of the operations that
use them.

## Model

| member | source | states |
|---|---|---|
| RagDatabase.CreateKnowledgeBase | ch11/rag/src/lib/database.js:13-27 | The stored hash has exactly id, name, description (default `''`) and createdAt = updatedAt = now. The id joins `knowledgebases`, nothing else changes, and reading the knowledge base back gives the record merged over any earlier fields. |
| RagDatabase.GetKnowledgeBase | ch11/rag/src/lib/database.js:29-31 | Absent exactly when the `knowledgebase_{id}` hash is empty or missing; a present result is that stored hash. |
| RagDatabase.UpdateKnowledgeBase | ch11/rag/src/lib/database.js:55-67 | Absent record: the error 'Knowledge base not found' and nothing changes. Otherwise the result is old fields, then the new data, then the fresh updatedAt, and only that hash is rewritten. |
| RagDatabase.AddDocument | ch11/rag/src/lib/database.js:89-106 | The document hash has exactly the listed fields, with createdAt = updatedAt = now. The id is added to `{kb}_documents` and nothing else changes. |
| RagDatabase.UpdateDocumentChunkCount | ch11/rag/src/lib/database.js:108-117 | Absent document: the error 'Document not found' and nothing changes. Otherwise only chunkCount and updatedAt are overwritten. |
| RagDatabase.GetDocument | ch11/rag/src/lib/database.js:119-121 | Absent exactly when the `document_{id}` hash is empty or missing; a present result is that stored hash. |
| RagDatabase.DeleteDocument | ch11/rag/src/lib/database.js:143-152 | Absent document: nothing changes. Otherwise exactly the document's key is deleted and the id leaves its knowledge base's document set. Every key outside the document key and the `_documents` sets is untouched. |
| RagDatabase.DeleteDocuments | ch11/rag/src/lib/database.js:70-74 | After the loop every listed document's hash is gone. Only their keys and ids are removed, and other non-`_documents` keys are untouched. |
| RagDatabase.CreateChatSession | ch11/rag/src/lib/database.js:155-170 | The session hash has exactly id, name (default `Chat {date}`), knowledgeBaseId and createdAt = updatedAt = now. The id joins both `{kb}_chatsessions` and `chatsessions`, and the session count grows by one exactly when the id is new. |
| RagDatabase.GetChatSession | ch11/rag/src/lib/database.js:172-174 | Absent exactly when the `chatsession_{id}` hash is empty or missing; a present result is that stored hash. |
| RagDatabase.GetChatSessionCount | ch11/rag/src/lib/database.js:299-301 | The count is 0 exactly when the `chatsessions` index is empty. |
| RagDatabase.DeleteChatSession | ch11/rag/src/lib/database.js:224-237 | Absent session: nothing changes. Otherwise its message list and its hash are deleted, and the id leaves its knowledge base's session set and `chatsessions`. |
| RagDatabase.DeleteChatSessions | ch11/rag/src/lib/database.js:76-79 | After the loop every listed session's hash is gone, and so is its message list whenever the session existed. Only those keys and ids are removed. |
| RagDatabase.DeleteStep | ch11/rag/src/lib/database.js:76-79 | Deleting one more session keeps the loop invariant of the session loop. |
| RagDatabase.MessagesKeyNotSessionKey | ch11/rag/src/lib/database.js:224-235 | A session's message-list key can equal another session's hash key only when that other id ends in `_messages`. |
| RagDatabase.DeleteKnowledgeBaseRecord | ch11/rag/src/lib/database.js:82-85 | The knowledge base's hash and both of its index sets are gone, and its id has left `knowledgebases`. |
| RagDatabase.DeleteKnowledgeBase | ch11/rag/src/lib/database.js:69-86 | After the cascade, none of the former documents or sessions has a hash, their message lists are gone, and the knowledge base's hash and both index sets are deleted. Its id leaves `knowledgebases`, and only keys of the cascade are removed. |
| RagDatabase.Rows | ch11/rag/src/lib/database.js:37-52 | Reading ids drops missing records, so there are never more rows than ids. |
| RagDatabase.RowsMembers | ch11/rag/src/lib/database.js:37-52 | A row is listed iff some id's record yields it. |
| RagDatabase.RowsCount | ch11/rag/src/lib/database.js:37-52 | With distinct ids, exactly one row per id that has a record. |
| RagDatabase.RowsMultiplicity | ch11/rag/src/lib/database.js:37-52 | With distinct ids, each record occurs in the rows as many times as there are ids whose record reads as it. |
| RagDatabase.ListingOfRows | ch11/rag/src/lib/database.js:33-53 | Sorting the rows read for the index set gives a listing: sorted by updatedAt descending, exactly the present records, one per id. Each record occurs exactly once for every id of the set that reads as it. |
| RagDatabase.ListRows | ch11/rag/src/lib/database.js:33-53 | Returns a listing of the given index set: sorted by updatedAt descending, and each record occurs exactly once for every id of the set that reads as it. |
| RagDatabase.GetAllKnowledgeBases | ch11/rag/src/lib/database.js:33-53 | A listing of `knowledgebases` with document counts: sorted by updatedAt descending, and each record occurs exactly once for every id of the set that reads as it. |
| RagDatabase.GetDocumentsByKnowledgeBase | ch11/rag/src/lib/database.js:123-141 | A listing of `{kb}_documents`: sorted by updatedAt descending, and each record occurs exactly once for every id of the set that reads as it. |
| RagDatabase.GetAllChatSessions | ch11/rag/src/lib/database.js:176-198 | A listing of `chatsessions` with message counts: sorted by updatedAt descending, and each record occurs exactly once for every id of the set that reads as it. |
| RagDatabase.GetChatSessionsByKnowledgeBase | ch11/rag/src/lib/database.js:200-222 | A listing of `{kb}_chatsessions` with message counts: sorted by updatedAt descending, and each record occurs exactly once for every id of the set that reads as it. |
| RagDatabase.DocumentTotalRemove | ch11/rag/src/lib/database.js:287-297 | The document total over a set of knowledge bases does not depend on the order in which they are summed. |
| RagDatabase.GetDocumentCount | ch11/rag/src/lib/database.js:287-297 | The count is the sum, over all ids in `knowledgebases`, of the sizes of their document sets. |
| RagDatabase.MessageRecord | ch11/rag/src/lib/database.js:240-249 | The message hash has exactly id, content, role, chatSessionId, sources and createdAt, with the given id, time and content. |
| RagDatabase.DecodeSources | ch11/rag/src/lib/database.js:266-280 | A truthy `sources` becomes its parse, or `[]` when it does not parse. A message without a truthy `sources` is returned unchanged. The keys and every other field stay as they were. |
| RagDatabase.MessagesFrom | ch11/rag/src/lib/database.js:262-285 | Missing messages are dropped, so there are never more messages than ids. |
| RagDatabase.MessagesFromConcat | ch11/rag/src/lib/database.js:262-285 | Messages come back in list order: the messages of two id lists in a row are the first list's followed by the second's. |
| RagDatabase.MessagesFromFrame | ch11/rag/src/lib/database.js:262-285 | Only the hashes of the listed message ids affect the result. |
| RagDatabase.MessagesFromMembers | ch11/rag/src/lib/database.js:266-284 | Every message read is the decoded, present hash of one of the listed ids. |
| RagDatabase.MessagesFromAllPresent | ch11/rag/src/lib/database.js:266-284 | When every listed id has its hash, no message is dropped. |
| RagDatabase.GetChatMessages | ch11/rag/src/lib/database.js:262-285 | At most one message per id in the session's list, each the decoded stored message of a listed id, and one per id when every listed hash is present. |
| RagDatabase.SourcesRoundTrip | ch11/rag/src/lib/database.js:247-278 | With a codec that parses back what it writes, a message's sources read back as given, or as null when falsy. Every other field reads back unchanged. |
| RagDatabase.AddChatMessage | ch11/rag/src/lib/database.js:240-260 | The record is stored and its id is appended at the end of the session's list. Only updatedAt is set on the session hash. For a fresh id, reading the messages afterwards gives the old messages followed by this one. |
| RagDatabase.AppendedMessageRead | ch11/rag/src/lib/database.js:251-285 | Storing a fresh message and appending its id extends what is read back by exactly that message. |
| InterviewSessions.NewSession | ch10/interview-assistant/src/app/chat/actions.jsx:47-53 | A new session hash has exactly the keys of the five settings the interview form sends (jobType, jobDescription, difficulty, questionType, questionCount) plus userId, isCompleted, createdAt and messages. Each setting keeps its value, with isCompleted = false, createdAt = now and the given messages. |
| InterviewSessions.CreateInterviewSession | ch10/interview-assistant/src/app/chat/actions.jsx:18-59 | Without a signed-in user: 'Unauthorized' and nothing changes. Otherwise the session is stored with the system prompt and the welcome, its id joins `user:sessions:{userId}`, and only the welcome is returned. The creator can then read the session. |
| InterviewSessions.HSetOwned | ch10/interview-assistant/src/app/chat/actions.jsx:47-69 | Writing a hash with a userId field makes the session pass that user's owner check. |
| InterviewSessions.GetInterviewSession | ch10/interview-assistant/src/app/chat/actions.jsx:61-73 | Without a user: 'Unauthorized'. A missing session or one owned by someone else: 'Session not found or access denied'. Otherwise the stored session. |
| InterviewSessions.SessionView | ch10/interview-assistant/src/app/chat/actions.jsx:82-85 | Each listed row carries the session's id, whatever was stored. |
| InterviewSessions.SessionViews | ch10/interview-assistant/src/app/chat/actions.jsx:81-86 | One row per id, in id order. |
| InterviewSessions.FetchInterviewSessions | ch10/interview-assistant/src/app/chat/actions.jsx:79-89 | The rows are sorted by createdAt descending, one per member of the user's session set, and each is that member's view. |
| InterviewSessions.ViewsOfMembers | ch10/interview-assistant/src/app/chat/actions.jsx:80-86 | The rows built from an enumeration of the set are exactly the views of its members. |
| InterviewSessions.CompleteInterviewSession | ch10/interview-assistant/src/app/chat/actions.jsx:113-144 | A failed owner check returns its error and nothing changes. An already completed session is returned with no write. Otherwise the session is stored with isCompleted true and completedAt from the first clock reading, only that hash changes, and the result is the same session with completedAt from the second reading. |
| InterviewSessions.ContinueConversationAndSave | ch10/interview-assistant/src/app/chat/actions.jsx:146-220 | A failed owner check or a completed session is refused, with 'Cannot update a completed interview session' for the latter, and nothing is written. Otherwise the stored messages (a non-list counts as empty) grow by the user message and are saved. If the streaming call then rejects, its error is thrown with only that first save made. Otherwise, when the reply completes, the messages grow again by the assistant message, and the result is an assistant message with a fresh id and the streamed element's text. |
| InterviewSessions.MessageLines | ch10/interview-assistant/src/app/chat/actions.jsx:236 | The lines exist iff no message is null, with one `role: content` line per message. |
| InterviewSessions.FeedbackPromptHasEveryMessage | ch10/interview-assistant/src/app/chat/actions.jsx:232-245 | Every message's `role: content` line occurs in the feedback prompt. |
| InterviewSessions.JoinedLinesOccur | ch10/interview-assistant/src/app/chat/actions.jsx:233-245 | Each line of a newline-joined block occurs in a text that embeds the block. |
| InterviewSessions.GenerateInterviewFeedback | ch10/interview-assistant/src/app/chat/actions.jsx:222-259 | Without a user: 'Unauthorized'. A missing session: 'Session not found', with no ownership check. A failed generation gives the fixed apology text. Otherwise the generated text for the prompt. |
| InterviewSessions.GetInterviewFeedback | ch10/interview-assistant/src/app/chat/actions.jsx:261-265 | The feedback is present iff a truthy value is stored, and it is that value as a string. |
| InterviewSessions.SaveInterviewFeedback | ch10/interview-assistant/src/app/chat/actions.jsx:267-270 | Only the feedback key changes. Reading it back gives the saved text, and an empty text reads back as absent. |
| MessageQuota.CheckMessageQuota | ch09/chat-anonymization/src/app/chat-openai/api/route.js:24-39 | The counter `message_count:{userId}:{date}` is incremented on every check, including rejected ones. The 24-hour expiry is set only when it reaches 1, and the call is allowed iff the new count is at most 10. A non-integer counter makes INCR fail and nothing changes. |
| MessageQuota.AllowedCalls | ch09/chat-anonymization/src/app/chat-openai/api/route.js:34-38 | Of n further calls, no more than n are let through. |
| MessageQuota.AllowedCallsUpToLimit | ch09/chat-anonymization/src/app/chat-openai/api/route.js:29-38 | From a counter at c, the calls let through are exactly those that bring it up to 10: none once c ≥ 10, else min(n, 10 − c). |
| MessageQuota.FirstTenPass | ch09/chat-anonymization/src/app/chat-openai/api/route.js:29-38 | On a fresh day exactly the first ten messages pass. |
| MessageQuota.ValidatePrompt | ch09/chat-anonymization/src/app/chat-openai/api/route.js:15-17 | A body passes iff it has a string `text` of 1 to 500 characters, and the result is that text. |
| MessageQuota.Post | ch09/chat-anonymization/src/app/chat-openai/api/route.js:46-105 | The checks run in order: a non-JSON body gives 500, a schema failure 400, no user 401, and none of these touches the store. A signed-in caller is counted: the counter goes up by one, its 24-hour expiry is set when it reaches 1, and nothing else in the store changes. Over the quota gives 429 with the fixed message, otherwise 200 with the assistant message, or 500 when generation fails. A counter that holds a non-integer makes INCR fail: 500, with the store unchanged. |
| Middleware.Response.Next | ch09/chat-validation/src/middleware.js:5 | `NextResponse.next()`: status 200, no body, no headers. |
| Middleware.Response.Json | ch09/chat-validation/src/middleware.js:14-17 | `NextResponse.json(body, { status })`: the given status and body, no headers. |
| Middleware.Response.SetHeader | ch09/chat-validation/src/middleware.js:94-97 | Sets one header and changes nothing else. |
| Middleware.Identifier | ch09/chat-validation/src/middleware.js:51 | The client address, or the shared key `127.0.0.1` when there is none. |
| Middleware.Run | ch09/chat-validation/src/middleware.js:8-18 | One middleware against the shared response. An answer comes back as a fresh response with the headers untouched. Going on carries the middleware's header changes, and stopping or throwing leaves the headers as they were. |
| Middleware.PreflightResponse | ch09/chat-validation/src/middleware.js:25-31 | A preflight is answered by a fresh 200 response carrying exactly the three Access-Control-Allow headers. |
| Middleware.SetSecurityHeaders | ch09/chat-validation/src/middleware.js:93-99 | Exactly the four security headers are set over the existing ones. Status and body are unchanged. |
| Middleware.SecurityHeadersOneByOne | ch09/chat-validation/src/middleware.js:94-97 | Setting the four headers one at a time equals merging them in at once. |
| Middleware.WalkAppend | ch09/chat-validation/src/middleware.js:7-19 | Once a middleware answers, stops or throws, the ones after it make no difference. Otherwise the rest run on the gathered headers. |
| Middleware.Compose | ch09/chat-validation/src/middleware.js:3-23 | The composed chain sends the first answer or a 500 on a throw. On a stop or after the last middleware it sends the shared response with every header change made so far. |
| Middleware.PreflightBypassesTheRest | ch09/chat-validation/src/middleware.js:25-106 | An OPTIONS request is answered by the CORS middleware alone, whatever the limiter would say. |
| Middleware.OtherRequestsFollowTheLimiter | ch09/chat-validation/src/middleware.js:50-106 | Any other request: allowed gives 200 with exactly the four security headers, denied gives 429 'Too many requests', and a limiter failure gives 500, with no security headers. |
| Middleware.HandleRequest | ch09/chat-validation/src/middleware.js:101-110 | The app's middleware answers a preflight with the CORS headers and an allowed request with the security headers. A request the limiter denies gets 429 with "Too many requests", and a limiter failure gets 500. |
| PromptLibrary.TemplateOf | ch05/prompt-management.js:40-44 | Only the template and the input variables of a stored entry are handed out, each present iff the entry has it and then with its value; a non-record entry has neither. |
| PromptLibrary.StoredEntry | ch05/prompt-management.js:17-24 | The stored entry keeps every given field and adds id = `plantuml:{name}:{version}` with createdAt = updatedAt = now. |
| PromptLibrary.PlantUMLPromptLibrary.constructor | ch05/prompt-management.js:12-14 | A new library starts with an empty cache. |
| PromptLibrary.PlantUMLPromptLibrary.CreatePrompt | ch05/prompt-management.js:16-28 | Returns `plantuml:{name}:{version}` and stores the entry under it. The cache is left alone, so an older cached copy can still be served. |
| PromptLibrary.PlantUMLPromptLibrary.GetPrompt | ch05/prompt-management.js:30-48 | A cache hit is returned as cached. A key absent from the store returns null and caches nothing. Any stored JSON text passes the `!promptJson` test, so a present entry is parsed: a JSON `null` throws "Cannot read properties of null (reading 'template')" and caches nothing. Any other entry returns only template and inputVariables and caches them. |
| PromptLibrary.PlantUMLPromptLibrary.GeneratePlantUML | ch05/prompt-management.js:50-63 | No prompt gives the error `Prompt {name}:{version} not found`, and a stored JSON `null` gives `getPrompt`'s TypeError. Otherwise the found prompt is filled as `Fill` does, with the model provider in scope. The cache afterwards is the one `getPrompt` leaves. |
| PromptLibrary.Fill | ch05/prompt-management.js:54-60 | Only the first `{input}` of a string template is replaced before the model is asked. A missing, `null` or other non-string template throws JavaScript's matching error. |
| PromptLibrary.FalsyEntryIsFound | ch05/prompt-management.js:37-54 | A stored `0`, `false` or `""` is found, not a miss. It has no template or input variables, and filling it throws "Cannot read properties of undefined (reading 'replace')". |
| PromptLibrary.FillAnswersIff | ch05/prompt-management.js:54-62 | A found prompt reaches the model exactly when its template is a string. |
| PromptLibrary.FillAsWritten | ch05/prompt-management.js:54-60 | As written, a string template ends in `openai is not defined`, and any other template throws as `Fill` does. |
| PromptLibrary.AsWrittenNeverAnswers | ch05/prompt-management.js:1-60 | As written, every found prompt ends in an error, and for a string template that error differs from the intended answer. |
| TokenTracker.SumsNonNegative | ch07/summarization-examples/TokenTracker.js:9-17 | With non-negative usage on every call, every running total is non-negative. |
| TokenTracker.Tracker.constructor | ch07/summarization-examples/TokenTracker.js:2-7 | A fresh tracker has all four counters at 0. |
| TokenTracker.Tracker.UpdateTokens | ch07/summarization-examples/TokenTracker.js:9-17 | Each total grows by the call's count, with a missing count or record adding 0, and the totals stay the sums over all calls. The last total is overwritten, not accumulated. With non-negative usage no total decreases. |
| TokenTracker.Tracker.GetCurrentUsage | ch07/summarization-examples/TokenTracker.js:18-25 | Reports exactly the three sums over all calls and the last total, without changing anything. |
| TokenTracker.Tracker.GetTokenDiff | ch07/summarization-examples/TokenTracker.js:27-39 | Each difference is 2 × last total − the corresponding total. After a single call the execution difference is that call's total. |
| ErrorTracking.DetermineErrorType | ch08/chat-vercel-troubleshooting/src/lib/error-tracking.js:21-28 | Unknown iff no category has a phrase inside the lower-cased message. Otherwise the result is the first category, in table order (content filter, token limit, rate limit, stream), that has one. |
| ErrorTracking.TypeOfUnique | ch08/chat-vercel-troubleshooting/src/lib/error-tracking.js:21-28 | A message has exactly one category under that rule. |
| ErrorTracking.AnyOccursCheck | ch08/chat-vercel-troubleshooting/src/lib/error-tracking.js:23 | `patterns.some(p => text.includes(p))` holds iff some pattern occurs in the text. |
| ErrorTracking.CategoriesWithPhrases | ch08/chat-vercel-troubleshooting/src/lib/error-tracking.js:4-19 | No category in the pattern table is MODEL_ERROR, API_ERROR or UNKNOWN, so the first two are never determined. |
| ErrorTracking.SanitizeInput | ch08/chat-vercel-troubleshooting/src/lib/error-tracking.js:30-33 | Empty or absent input gives `''`. Otherwise the first 100 characters (all of a shorter input) followed by `...`, appended even when nothing was cut. |
| ErrorTracking.TrackError | ch08/chat-vercel-troubleshooting/src/lib/error-tracking.js:35-54 | The record's type is the message's category: the first category in table order with a phrase in the lower-cased message, else UNKNOWN. The record holds the sanitised input. Its request id is the error's when truthy, else the fresh one, and its status code is the truthy status else statusCode. Provider, model, message and time are as given, and the type is never MODEL_ERROR or API_ERROR. |
| ErrorTracking.UserMessage | ch08/chat-vercel-troubleshooting/src/lib/error-tracking.js:56-67 | Every type gets a non-empty message. MODEL_ERROR, API_ERROR and UNKNOWN fall back to the generic message. |
| ErrorTracking.CreateUserFacingError | ch08/chat-vercel-troubleshooting/src/lib/error-tracking.js:56-70 | The user-facing error carries the record's request id and its type's message. |
| LogProbsRag.Rag.constructor | ch07/rag-web-app/src/lib/LogPropsRag.js:8-27 | The helper keeps the key and the options: embedding model (default text-embedding-3-small), model (default gpt-3.5-turbo) and temperature (`|| 0.7`). It starts with no index. |
| LogProbsRag.NewRag | ch07/rag-web-app/src/lib/LogPropsRag.js:8-11 | A missing or empty API key is refused with 'OpenAI API Key is required', and only then. Otherwise a fresh helper with that key and no index. |
| LogProbsRag.Rag.LoadIndex | ch07/rag-web-app/src/lib/LogPropsRag.js:29-35 | After loading, the retriever reads the given index. |
| LogProbsRag.Rag.PerformRAG | ch07/rag-web-app/src/lib/LogPropsRag.js:79-112 | Fails with 'Retriever not initialized. Load index first.' iff no index is loaded. Otherwise the chain's answer with its source documents. |
| LogProbsRag.Score | ch07/rag-web-app/src/lib/LogPropsRag.js:62-66 | Every token is scored in order, keeping its token and log-probability and adding its linear percentage. |
| LogProbsRag.HasVerdict | ch07/rag-web-app/src/lib/LogPropsRag.js:60 | True iff some token, trimmed and lower-cased, is `true` or `false`. |
| LogProbsRag.EvaluateContextConfidence | ch07/rag-web-app/src/lib/LogPropsRag.js:43-77 | Null exactly when the model call fails. Otherwise the context counts as sufficient iff some token is a verdict either way, and the scored results are exactly `Score` of the returned log-probabilities: one per token, in order, with its token, its log-probability and its linear probability. |
| LogProbsRag.PerformEnhancedRAG | ch07/rag-web-app/src/lib/LogPropsRag.js:120-179 | No index: the retriever error. An answer whose first token is exactly `True` at or above the threshold (default 90) is returned with its metrics. Otherwise `web` and `retry` return the second run's answer without metrics, `ask_user` returns the fixed question with no sources, and anything else keeps the answer with a warning and no sources. |
| LogProbsRag.SourcesWithMetricsOnlyWhenTrusted | ch07/rag-web-app/src/lib/LogPropsRag.js:137-174 | An enhanced answer that carries both metrics and sources was a trusted one. |
| ProviderModels.GetSupportedModelAsWritten | ch08/chat-testing/src/utils.js:17-22 | The selector as written: a provider name that a plain object inherits (`toString`, `constructor`, …) gets past the table check and then fails inside `models.includes`. Any other provider behaves as the corrected selector. |
| ProviderModels.InheritedNameIsNotReported | ch08/chat-testing/src/utils.js:18-26 | For provider `toString` the selector as written fails with a TypeError instead of 'Unsupported provider: toString', which the corrected selector reports. |
| ProviderModels.GetSupportedModel | ch08/chat-testing/src/utils.js:17-39 | The checks run in order: unsupported provider, unsupported model for that provider, missing or empty `{PROVIDER}_API_KEY`. A success carries the provider, the model and the non-empty key. |
| ProviderModels.AcceptedPairs | ch08/chat-testing/src/utils.js:6-39 | Exactly openai with gpt-3.5-turbo or gpt-4, and google with models/gemini-1.5-pro-latest, are accepted, each only when its key is set. |
| ProviderModels.KeyVariables | ch08/chat-testing/src/utils.js:30 | openai reads OPENAI_API_KEY and google reads GOOGLE_API_KEY. |
| TtsFlag.IsTTSEnabled | ch10/interview-assistant/src/features/text-to-speach.js:1-15 | In a browser with the storage check, a stored preference decides (on iff it is `'true'`). Otherwise the environment flag decides (on iff it is `'true'`). |
| TtsFlag.ServerIgnoresStorage | ch10/interview-assistant/src/features/text-to-speach.js:1-3 | Called with `false`, as the speech route does, the stored preference never matters. |
| TtsFlag.StorageFailureFallsBack | ch10/interview-assistant/src/features/text-to-speach.js:4-9 | A storage exception behaves exactly as if nothing were stored. |
| TtsFlag.TtsRouteGate | ch10/interview-assistant/src/app/api/tts/route.js:12-18 | The speech route answers 403 iff the environment flag is not `'true'`. |
| DocumentIndexer.ValidateDocuments | ch07/rag-web-app/scripts/indexDocuments.google.js:105-115 | A chunk is kept iff its trimmed text is longer than 50 characters and is not made of digits and white space only. Nothing else is added and the result is no longer than the input. |
| DocumentIndexer.ValidatedIsSubsequence | ch07/rag-web-app/scripts/indexDocuments.google.js:105-115 | The kept chunks are a subsequence of the input, in input order. |
| DocumentIndexer.ValidateIdempotent | ch07/rag-web-app/scripts/indexDocuments.google.js:105-115 | Validating twice is validating once. |
| DocumentIndexer.ValidateAppend | ch07/rag-web-app/scripts/indexDocuments.google.js:105-115 | Filtering a concatenation is concatenating the filtered parts, so order is kept. |
| DocumentIndexer.ValidateOne | ch07/rag-web-app/scripts/indexDocuments.google.js:105-115 | A single chunk is kept alone exactly when it is usable, and dropped otherwise. |
| DocumentIndexer.ValidateCounts | ch07/rag-web-app/scripts/indexDocuments.google.js:105-115 | Every usable chunk is kept as many times as it occurs in the input; an unusable one never occurs. |
| DocumentIndexer.LastIndexOf | ch07/rag-web-app/scripts/indexDocuments.google.js:61 | The position of the last occurrence of a character, or none when it does not occur. |
| DocumentIndexer.Basename | ch07/rag-web-app/scripts/indexDocuments.google.js:61 | The base name is a suffix of the path and contains no `/`. |
| DocumentIndexer.BasenameOfJoin | ch07/rag-web-app/scripts/indexDocuments.google.js:61-84 | The base name of a file joined onto a directory is the file's name. |
| DocumentIndexer.Extname | ch07/rag-web-app/scripts/indexDocuments.google.js:83 | The extension is empty, or a proper suffix of the name starting with `.`. |
| DocumentIndexer.IsPdfIff | ch07/rag-web-app/scripts/indexDocuments.google.js:83 | A file is a PDF iff its name is at least five characters long and ends in `.pdf` in any letter case. |
| DocumentIndexer.Stamp | ch07/rag-web-app/scripts/indexDocuments.google.js:55-64 | A processed chunk keeps its text and all its metadata, with `source` and `processed_at` set over them. |
| DocumentIndexer.ProcessDocument | ch07/rag-web-app/scripts/indexDocuments.google.js:40-70 | A file that fails to load gives no chunks. Otherwise every loaded chunk, in order, stamped with the file's base name and the time. |
| DocumentIndexer.PdfFiles | ch07/rag-web-app/scripts/indexDocuments.google.js:81-84 | Exactly the directory entries whose extension is `.pdf` in any case are processed. |
| DocumentIndexer.IndexDocumentsFromDirectory | ch07/rag-web-app/scripts/indexDocuments.google.js:77-98 | The documents are the chunks of every PDF file in directory order, and the file count is the number of PDF files. |
| DocumentIndexer.ChunksComeFromPdfFiles | ch07/rag-web-app/scripts/indexDocuments.google.js:77-98 | Every indexed chunk's `source` names a PDF entry of the directory. |
| WordConstraints.Split | ch05/unit-prompt.test.js:31 | Splitting on white-space runs gives at least one piece, and no piece contains white space. |
| WordConstraints.WordCountIsRunsPlusOne | ch05/unit-prompt.test.js:31-34 | The word count is one more than the number of white-space runs. |
| WordConstraints.RunsOfJoin | ch05/unit-prompt.test.js:31 | Non-empty words joined by single spaces have one run fewer than there are words. |
| WordConstraints.WordCountOfJoin | ch05/unit-prompt.test.js:31-34 | Non-empty words joined by single spaces count as exactly that many words. |
| WordConstraints.LeadingSpaceCounts | ch05/unit-prompt.test.js:31 | White space at the start leaves an empty first piece, which is counted as a word. |
| WordConstraints.TrailingSpaceCounts | ch05/unit-prompt.test.js:31 | White space at the end leaves an empty last piece, which is counted as a word. |
| WordConstraints.AllOccur | ch05/unit-prompt.test.js:35-37 | True iff every required word, lower-cased, occurs in the lower-cased text. |
| WordConstraints.ValidateConstraints | ch05/unit-prompt.test.js:30-39 | A text passes iff its word count lies within the bounds and every required word occurs in it, ignoring case. With no required words only the count matters. |
| WordConstraints.LowerOccurs | ch05/unit-prompt.test.js:36 | Lower-casing keeps an occurrence where it was. |
| WordConstraints.SubstringMatches | ch05/unit-prompt.test.js:35-37 | A required word matches inside a longer word and in any case: `Unhealthy` satisfies `HEALTH`. |
| WordConstraints.ExerciseSummaryPasses | ch05/unit-prompt.test.js:41-54 | The unit test's exercise summary has 20 words and passes the 20–30 word check with `health` and `fitness`. |
| MultimediaMessages.ImageOf | ch03/chat-multimedia/src/app/chat-openai/api/utils.js:14-18 | The image becomes a URL iff it is a string starting with `http`. Otherwise it is passed on as given. |
| MultimediaMessages.ProcessIncomingMessages | ch03/chat-multimedia/src/app/chat-openai/api/utils.js:1-27 | Without an image (`data?.imageUrl` falsy: absent, `''`, `0` or `false`) the messages come back unchanged, and with an image but no messages the lookup throws. Otherwise all but the last message are kept. The last one's role defaults to user, and its content becomes its text or parts followed by the image part. |
| ChatListText.Extract | ch12/vercel-ai-sdk-mcp/src/components/chat/ChatList.jsx:5-19 | Content that is not a list gives `''`. Any result is trimmed: it neither starts nor ends with white space. |
| ChatListText.ExtractTextFromParts | ch12/vercel-ai-sdk-mcp/src/components/chat/ChatList.jsx:5-19 | The loop over the parts computes the extracted text. |
| ChatListText.PartText | ch12/vercel-ai-sdk-mcp/src/components/chat/ChatList.jsx:8-16 | Each part contributes its text, or its nested output's text, followed by a space. Missing parts contribute nothing. |
| ChatListText.Texts | ch12/vercel-ai-sdk-mcp/src/components/chat/ChatList.jsx:10-11 | One text per text part, in order. |
| ChatListText.RawOfTexts | ch12/vercel-ai-sdk-mcp/src/components/chat/ChatList.jsx:7-17 | For text parts only, the accumulated text is their texts joined by spaces plus one trailing space. |
| ChatListText.TrimPadded | ch12/vercel-ai-sdk-mcp/src/components/chat/ChatList.jsx:18 | Trimming a visible-ended text with one trailing space gives the text back. |
| ChatListText.TextPartsJoined | ch12/vercel-ai-sdk-mcp/src/components/chat/ChatList.jsx:5-19 | For text parts with visible ends, the extracted text is exactly their texts joined by single spaces. |
| ChatListText.JoinEnds | ch12/vercel-ai-sdk-mcp/src/components/chat/ChatList.jsx:5-19 | Joining visible-ended texts gives a visible-ended text. |
| ChatListText.DisplayedText | ch12/vercel-ai-sdk-mcp/src/components/chat/ChatList.jsx:25-28 | The bubble shows the message content when it has a visible character, else the text extracted from the parts. |
| LangchainPage.Kept | ch12/langchain-mcp/app/page.js:12-18 | `filter(Boolean)` keeps exactly the present, non-empty values, in order. |
| LangchainPage.KeptAppend | ch12/langchain-mcp/app/page.js:12-18 | `filter(Boolean)` over a concatenation is the concatenation of the filtered parts, so order and repeats are kept. |
| LangchainPage.KeptOne | ch12/langchain-mcp/app/page.js:12-18 | One value is kept alone exactly when it is present and non-empty. |
| LangchainPage.TextsOf | ch12/langchain-mcp/app/page.js:12 | One entry per part: the part's text. |
| LangchainPage.FactContents | ch12/langchain-mcp/app/page.js:15-18 | Fails iff a fact part has no id, as `p.id.endsWith` would throw. Otherwise the contents are exactly those of the fact parts whose id does not end in `-user`. |
| LangchainPage.GetMessageContent | ch12/langchain-mcp/app/page.js:8-20 | No parts: `''`. A user message: the truthy texts of all its parts joined by newlines. Any other message: the truthy contents of its non-echo fact parts joined by newlines. |
| LangchainPage.UserTextsOfAnyType | ch12/langchain-mcp/app/page.js:11-13 | For a user message, every part's non-empty text appears, whatever the part's type. |
| LangchainPage.EchoesYieldNoFacts | ch12/langchain-mcp/app/page.js:15-18 | Parts whose fact parts all echo the user yield no fact contents. |
| LangchainPage.EchoesShowNothing | ch12/langchain-mcp/app/page.js:8-20 | A non-user message whose fact parts all echo the user shows nothing. |
| LangchainChatRoute.TextPartTexts | ch12/langchain-mcp/app/api/chat/route.js:10-13 | Only text parts contribute, a missing text as `''`, with at most one entry per part, and every text part's text appears. |
| LangchainChatRoute.TextPartTextsAppend | ch12/langchain-mcp/app/api/chat/route.js:10-13 | Mapping a concatenation of parts is concatenating the mapped parts, so order and repeats are kept. |
| LangchainChatRoute.TextPartTextsOne | ch12/langchain-mcp/app/api/chat/route.js:10-13 | One part gives its text (or `''`) when it is a text part and nothing otherwise. |
| LangchainChatRoute.ItemTexts | ch12/langchain-mcp/app/api/chat/route.js:16-19 | Exactly the non-empty item texts, in order. |
| LangchainChatRoute.ItemTextsAppend | ch12/langchain-mcp/app/api/chat/route.js:16-19 | Filtering a concatenation of items is concatenating the filtered items, so order and repeats are kept. |
| LangchainChatRoute.ItemTextsOne | ch12/langchain-mcp/app/api/chat/route.js:16-19 | One item gives its text exactly when the text is present and non-empty. |
| LangchainChatRoute.NormalizeUserMessage | ch12/langchain-mcp/app/api/chat/route.js:8-22 | With parts: the text parts' texts joined by spaces. Else with an array: the non-empty item texts joined by spaces. Else the string content, or nothing. |
| LangchainChatRoute.LastAiMessage | ch12/langchain-mcp/app/api/chat/route.js:52-57 | None iff no returned message comes from the model. Otherwise a message from the model after which none comes from the model. |
| LangchainChatRoute.Writer.constructor | ch12/langchain-mcp/app/api/chat/route.js:60-61 | A new stream has nothing written. |
| LangchainChatRoute.Writer.Write | ch12/langchain-mcp/app/api/chat/route.js:64-68 | Writing appends exactly one part to the stream. |
| LangchainChatRoute.StreamMessages | ch12/langchain-mcp/app/api/chat/route.js:59-103 | Writes exactly the streamed parts in order: the user's text, then the reply's text if there is a reply, then the tool notification if it names a tool. |
| LangchainChatRoute.StreamShape | ch12/langchain-mcp/app/api/chat/route.js:59-103 | The stream starts with the user's text and has one, two or three parts. A notification can only be third, after a reply that names a tool. |
| LangchainChatRoute.Post | ch12/langchain-mcp/app/api/chat/route.js:105-140 | 400 'No messages provided.' iff the messages are empty, where a missing list falls back to the input. A failed agent gives 500. Otherwise the stream built from the last message and the agent's last model message. |
| LangchainChatRoute.EmptyListWinsOverInput | ch12/langchain-mcp/app/api/chat/route.js:108-114 | An empty message list in the body is not replaced by the input, because `[]` is truthy, so the route answers 400. |
| KMeansMerge.LabelBound | ch07/summarization-examples/k-means-summarization.js:62-67 | Every cluster label lies below the bound. |
| KMeansMerge.AscendingBelow | ch07/summarization-examples/k-means-summarization.js:69 | The keys below the bound, each once, in ascending order. |
| KMeansMerge.LabelOrder | ch07/summarization-examples/k-means-summarization.js:60-69 | `Object.values` visits the integer label keys once each, in ascending order: exactly the labels that occur. |
| KMeansMerge.MergedDocs | ch07/summarization-examples/k-means-summarization.js:58-77 | One document per distinct label, in ascending label order. The idx-th one's content is that label's chunks joined by spaces, in their original order, and its id is `merged-{idx+1}`. |
| KMeansMerge.BuildClusterMap | ch07/summarization-examples/k-means-summarization.js:62-67 | The map's keys are exactly the labels that occur, and each holds its label's chunks in order. |
| KMeansMerge.DocsInOrder | ch07/summarization-examples/k-means-summarization.js:69-74 | One document per key, in key order, with the joined group and the numbered id. |
| KMeansMerge.MergeSimilarClusters | ch07/summarization-examples/k-means-summarization.js:58-77 | The two passes compute the merged documents. The similarity threshold plays no part. |
| KMeansMerge.NoGroupWithoutLabel | ch07/summarization-examples/k-means-summarization.js:62-67 | A label that does not occur has no chunks. |
| KMeansMerge.ChunkInOwnGroup | ch07/summarization-examples/k-means-summarization.js:62-67 | Every chunk is in its own label's group, right after the earlier chunks with that label. |
| KMeansMerge.CeilSqrtHalf | ch07/summarization-examples/k-means-summarization.js:43 | `Math.ceil(Math.sqrt(n / 2))`: the least r with 2r² ≥ n. |
| KMeansMerge.CeilSqrtHalfFrom | ch07/summarization-examples/k-means-summarization.js:43 | Searching upward from a candidate below the answer finds the least r with 2r² ≥ n. |
| KMeansMerge.OptimalClusters | ch07/summarization-examples/k-means-summarization.js:43 | At least one cluster, and at most n − 1 when there are at least two chunks. |
| KMeansMerge.ClusterDocuments | ch07/summarization-examples/k-means-summarization.js:28-55 | No chunks: the error 'No document chunks available for clustering.'. Otherwise the merged documents for the labels k-means gives with the computed cluster count. |
| Sidebar.IsActive | ch11/rag/src/components/Sidebar.jsx:11-15 | The root link is active only on `/`. Any other link is active iff the pathname starts with its path. |
| Sidebar.RootInactiveElsewhere | ch11/rag/src/components/Sidebar.jsx:12-14 | The root link is inactive on every other page. |
| Sidebar.PrefixWithoutBoundary | ch11/rag/src/components/Sidebar.jsx:13 | The match ignores path segments: `/chat` is active on `/chatroom`. |
| Sidebar.ActiveBelow | ch11/rag/src/components/Sidebar.jsx:13 | A non-root link is active on every page below it. |
| SimpleChain.ToUpperCase | ch06/simple-chain.google.js:9-13 | Same length, each character upper-cased, and vowels stay vowels. |
| SimpleChain.MatchVowels | ch06/simple-chain.google.js:16 | No match (null) iff the text has no vowel. A match is non-empty, all vowels and no longer than the text. |
| SimpleChain.VowelCount | ch06/simple-chain.google.js:15-20 | The count is at most the length, and 0 iff there is no vowel, as the null match yields. |
| SimpleChain.VowelCountAppend | ch06/simple-chain.google.js:15-20 | The count of a concatenation is the sum of the counts. |
| SimpleChain.UpperKeepsCount | ch06/simple-chain.google.js:9-20 | Upper-casing first does not change the vowel count, because the match ignores case. |
| SimpleChain.VowelCountIsTally | ch06/simple-chain.google.js:15-20 | The count equals a left-to-right tally of vowels. |
| SimpleChain.HelloWorldVowels | ch06/simple-chain.google.js:34 | `hello world` has three vowels. |
| SimpleChain.HelloWorldHasThree | ch06/simple-chain.google.js:28-34 | The chain's input `hello world` reaches the prompt with vowelCount 3. |
| Listing.Insert | ch11/rag/src/lib/database.js:52 | Inserting keeps every row: the length grows by one and the rows as a multiset gain the new one. |
| Listing.SortDescSpec | ch11/rag/src/lib/database.js:52 | `sort((a, b) => b.updatedAt - a.updatedAt)` gives a permutation of the rows sorted by the key descending. |
| Listing.SortDescPermutes | ch11/rag/src/lib/database.js:52 | Sorting is a permutation of the rows. |
| Listing.SortDescSorted | ch11/rag/src/lib/database.js:52 | The sorted rows are in descending key order. |
| Listing.SortDescSameRows | ch11/rag/src/lib/database.js:52 | Sorting keeps the length and exactly the same rows. |
| Listing.InsertSorted | ch11/rag/src/lib/database.js:52 | Inserting a row into rows sorted by the key descending keeps them sorted. |
| Listing.InsertWithKey | ch11/rag/src/lib/database.js:52 | Inserting into sorted rows places the new row after every row with the same key. |
| Listing.SortDescStable | ch11/rag/src/lib/database.js:52 | The sort is stable, as `Array.prototype.sort` is: for every key, the rows with that key keep their input order. |
| Text.Trim | ch12/vercel-ai-sdk-mcp/src/components/chat/ChatList.jsx:18 | `trim()` gives the slice of the text between its leading and trailing white space, and it neither starts nor ends with white space. |
| Text.TrimEmptyIff | ch12/vercel-ai-sdk-mcp/src/components/chat/ChatList.jsx:26 | A text trims to `''` iff it is white space only. |
| Text.ReplaceFirst | ch05/prompt-management.js:54 | `replace` with a string pattern changes only the first occurrence, and a text without one is returned unchanged. |
| Text.ReplaceFirstKeepsTail | ch05/prompt-management.js:54 | Everything after the first occurrence, later occurrences included, is kept. |
| Text.ContainsIff | ch05/unit-prompt.test.js:36 | `includes` holds iff the pattern occurs at some position. |

## Left out

- Redis is an in-memory `Store` with synchronous commands. Network errors, the REST client, `Promise.all` concurrency (modelled as one read after another) and key expiry over time are not modelled. `EXPIRE` only records the number of seconds.
- KeyValue.Store keeps hashes, sets, lists and strings in separate maps. A key used as two kinds at once, which Redis refuses with a WRONGTYPE error, is neither detected nor reported.
- Redis drops a set when its last member is removed. The model keeps it empty, which SMEMBERS and SCARD cannot tell apart.
- `generateId`, `generateUniqueId`, `uuidv4`, `Date.now()` and `new Date().toISOString()` are parameters. `Date.now()` is read twice in several functions of ch11/rag/src/lib/database.js, and the model uses one value for both reads. InterviewSessions.CompleteInterviewSession (ch10/interview-assistant/src/app/chat/actions.jsx) takes its two readings as two parameters. The id format `{prefix}_{time}_{random}` is not modelled.
- RagDatabase listings: a missing or non-numeric `updatedAt` sorts as 0. JavaScript would compare NaN, which leaves the order up to the sort implementation.
- InterviewSessions.FetchInterviewSessions: a listed id whose hash is missing gives the row `{ id }`, and it and any row without a numeric `createdAt` sort as createdAt 0. JavaScript computes NaN for them, which leaves the order up to the sort implementation.
- RagDatabase.SourcesRoundTrip: `JSON.stringify`/`JSON.parse` are parameters. The round trip is proved for a codec that parses back what it writes, not for JSON itself.
- KeyValue.Store returns a stored string as it was written. The `@upstash/redis` client built at ch11/rag/src/lib/database.js:3-6 decodes JSON field values on read by default, a behaviour of the library rather than of this code. With that default, `sources` would already be an array when RagDatabase.GetChatMessages reads it. `JSON.parse` of the array's string form fails for an array of objects, so the message would read back with `sources` = `[]`. RagDatabase.SourcesRoundTrip and RagDatabase.GetChatMessages describe a client without that decoding.
- RagDatabase.DeleteKnowledgeBase: `sessionIds` can differ from the sessions present at the start only when a deleted document key equals the session index key. The contract states this case rather than ruling it out.
- `revalidatePath` and `revalidateRoute` only refresh the Next.js cache, so they are not modelled.
- `continueConversation` of the interview assistant (ch10/interview-assistant/src/app/chat/actions.jsx:91-111) is not modelled. It persists nothing. The streaming UI (`streamUI`, `getMutableAIState`) is reduced to the final reply text.
- InterviewSessions.ContinueConversationAndSave: the `display` element of the returned message is not modelled, only its text. A stream that rejects is taken to fail before its final text arrives, so the second save is not made on that path.
- `getSupportedModel` of the interview assistant (ch10/interview-assistant/src/app/chat/utils.js) is not part of this model. Its failure is the `modelError` parameter.
- The fixed prompt texts (welcome message, system prompt, feedback prompt, confidence question) are kept word for word as constants. Nothing is proved about their wording beyond containment of the message lines.
- JavaScript's `toLowerCase`/`toUpperCase` are modelled on ASCII letters only, and so is the case-insensitive `/[AEIOU]/gi`. `trim` and `\s` are modelled on the usual ASCII and Unicode space characters listed in `Text`. Strings are sequences of characters, not UTF-16 code units.
- Text.ReplaceFirst: the `$&`, `$1`-style patterns of `String.prototype.replace` in the replacement are not interpreted.
- MessageQuota.Post: the Zod issue list is reduced to one message string. The anonymiser (`SyncRedactor`) is a parameter.
- Middleware: the sliding-window limiter is a parameter (`Allowed`, `Denied` or `LimiterFailed`). Logging is not modelled, and header names are compared exactly rather than case-insensitively.
- ErrorTracking: the logger call is not modelled.
- LogProbsRag: the vector store, the embeddings, the retriever and the chain are the `rag` parameter. `Math.round(Math.exp(lp) * 10000) / 100` is the `toLinear` parameter. `useWebFallback` is accepted and has no effect, as in the source, so `web` and `retry` both answer with a second run of the chain, the `rerun` parameter, which need not repeat the first answer.
- DocumentIndexer: PDF loading and splitting are the `load` parameter. The HNSWLib store, the embeddings and `saveVectorStore` are not modelled. `path.basename` is modelled for paths without trailing slashes. One `now` stamps every chunk of a run, where the script calls `new Date()` once per chunk.
- MultimediaMessages.ImageOf: `new URL` normalisation and its exception for an invalid URL are not modelled. The URL keeps the given text.
- LangchainChatRoute: a request body that is not JSON, the MCP client and the Gemini model are not modelled. The agent is a parameter that answers the returned messages or fails. `new HumanMessage(undefined)` is not modelled. The `input` field is a string, so a numeric `0`, which JavaScript also treats as falsy, is not modelled.
- LangchainPage: the page never hides the user's echo, because the route names it with `generateUniqueId()`, which does not end in `-user`. The model shows this through EchoesShowNothing, whose premise the route does not meet.
- KMeansMerge: the embeddings and the `kmeans` library are the `kmeans` parameter, assumed to return one label per chunk. `Math.sqrt` is replaced by the exact integer search for the least r with 2r² ≥ n, which is `Math.ceil(Math.sqrt(n / 2))` in exact arithmetic.
- SimpleChain: the prompt, the model and the output parser of the chain are not modelled.
- TtsFlag: the speech synthesis and Markdown stripping after the gate are not modelled.

## Findings

| source | as written | input that shows it | evidently intended | confidence | as-written member | corrected member |
|---|---|---|---|---|---|---|
| ch08/chat-testing/src/utils.js:18-26 | `supportedProviders[provider]` also finds members every object inherits, so the "unsupported provider" check lets them through and `models.includes` then throws a TypeError | provider `toString`, model `gpt-4` | report `Unsupported provider: toString` | high, not executed | ProviderModels.GetSupportedModelAsWritten, ProviderModels.InheritedNameIsNotReported | ProviderModels.GetSupportedModel |
| ch05/prompt-management.js:58 | `openai("gpt-4-turbo")` names a binding the module never imports (its imports are lines 1-3), so every found prompt with a string template throws a ReferenceError before `generateText` is called | any stored prompt with a string template, e.g. `classdiagram` 1.0.0 | ask the OpenAI model with the filled template | high, not executed | PromptLibrary.FillAsWritten, PromptLibrary.AsWrittenNeverAnswers | PromptLibrary.Fill |
