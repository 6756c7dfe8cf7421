# Verified model of the assistant backend and its streaming page

This project models eight parts of the service and of its page, each in its own group of files, and proves what they
promise for every input, every run and every interleaving. Nothing here runs the original program.

| part | files |
|---|---|
| streaming pipeline: heartbeat pump, event printer, JSON parser, byte decoding, page reader, answer generator, end to end | `HeartbeatPump`, `SseWire`, `JsonReader`, `Utf8Stream`, `StreamReader`, `Citations`, `AnswerStream`, `AnswerDelivery`, `AgentDelivery`, `StreamOutcome` |
| one-time codes over a TTL key store | `VerificationCodes`, `VerificationRuns`, `VerificationAnswers`, `VerificationService` |
| completion cache and concurrent calls around it | `CompletionCache`, `CacheRecency`, `CompletionStore`, `CachingProvider` |
| tool-calling loop; messages and jobs | `ReactAgent`, `ChatLifecycle`, `ChatRequests`, `ChatStore` |
| hybrid retrieval: best k keys, enrichment | `HybridRetrieval`, `RetrievalEnrichment` |
| text scanners: sentences, summaries, JSON in a reply | `Sentences`, `Summaries`, `FencedBlock`, `BraceScanner` |
| credit ledger | `CreditLedger`, `BillingDesk` |
| refresh-token rotation | `RefreshRotation`, `SessionStore` |

`Wrappers`, `Json` and `Text` hold shared datatypes and the string operations of the two host languages.

Conventions. A request or service call is one atomic step unless a part is about interleaving (the pump, the concurrent
cache calls, the streams between start and finalisation). Time is a number that never decreases. Parts that the source
writes as objects or tables changed in place are classes whose methods are proved to take exactly the steps of a
specification on values; the theorems about runs are about those steps. What the program cannot see becomes a
parameter: the model's completions and failures, tool results, similarity scores, rounding, the JSON parsers (`JsonReader`
has one after RFC 8259, which meets what is asked of the page's), the clean-up of a reply, which schedule the event loop picks. Tokens, codes' keys and request digests are taken to be distinct when
what they stand for is distinct; `KeyTextInjective` and `KeysIdentify` prove this for the keys that are built from text.

## What the code does that its own description does not say

* **An answer that is a list kills the stream.** If the agent's final answer is a non-empty JSON list, it is cut into
  tokens and then joined as text outside the guarded part, so neither row is finalised and no `done` is sent. `Generate`
  has the exact condition, and `BreaksOffIff` says it of the arguments of the completion that ends the loop.
* **A citation whose kind, title or snippet is a number or a list fails the answer.** It raises inside the guarded part,
  before the first piece: the page gets an error and no text, and even a list answer is then finalised (`CiteAllIff`,
  `FailingArguments`).
* **Final-answer arguments that are no object crash the agent.** `TraceInGrammar` has the exact condition.
* **The job's own cancel endpoint leaves the reply running.** From then on the two rows disagree until the reply is
  canceled as well or its stream writes its outcome; `StatusesMatchUnlessSevered` proves that this is the only way.
* **A deleted conversation is still written.** The outcome of a stream that was open at the deletion completes the reply and
  changes the preview of the deleted row; nothing else writes it (`DeletedRow`, `DeletedIsStillWritten`).
* **Canceled is not terminal.** `CanceledUntilFinalised` says exactly what undoes it, `CanceledIsNotTerminal` shows a run.
* **The page never learns its citations.** It reads them from `citation` events, the server sends them with `done`; it also
  ignores `replace`, and it calls an answer finished that the rows call failed if the model ended without any text.
  `PageVersusRow` says when page and row agree, `SilenceComesToNothing` has such a stream.
* **"The largest balanced JSON object" is not always found.** An object is missed behind a brace that is never closed, inside
  a block that is no object, or when a brace in one of its strings upsets the balance (`LargestCanBeMissed`,
  `NestedObjectIsMissed`, `BraceInStringIsMissed`). `LargestIsFoundIff` says exactly when the largest object is returned, and
  `WholeReplyIff` when a reply that is an object as a whole is read as one.
* **Two index rows with one identifier share one score.** The lookup before enrichment is keyed by identifier alone, so the
  better row starts from the worse row's score (`LoweredIffShadowed`, `ShadowLowers`).
* **Seven tenths of a limit is not always seven tenths.** The product is a double; at a limit of 90 it lies just below 63, so a
  cut at 63 is accepted, while at 10 one at 7 is not (`LateAtSeventyPercent`).
* **A charge may carry an allowance's reason text** (`TextAloneIsNotEnough`).
* **An absent client address is checked under the text "None"** but never stored under it; `CreateRefinesHistory` states
  the rate limit with that text.

## Model

| member | source | states |
|---|---|---|
| HeartbeatPump.PumpConserves | src/agent_os/ai/router.py:136-161 | in every state of every interleaving: yielded chunks, queue, chunk in hand and unread upstream, in this order, are the upstream; at most 16 items are queued; the end marker is last |
| HeartbeatPump.YieldsInOrder | src/agent_os/ai/router.py:136-161 | what is yielded is a prefix of the upstream; a run that ended has yielded all of it, and raised exactly if the upstream failed |
| HeartbeatPump.PumpProgresses | src/agent_os/ai/router.py:136-161 | while the consumer reads no state is stuck, and each step but a timeout lowers a measure |
| HeartbeatPump.FairRunsFinish | src/agent_os/ai/router.py:136-161 | rounds that give every task a turn, keepalives among them or not, end the run within a number fixed by the upstream's length and the keepalives |
| HeartbeatPump.Produce | src/agent_os/ai/router.py:139-146 | the producer task's turn is the one of its two steps that is due |
| HeartbeatPump.Deliver | src/agent_os/ai/router.py:150-161 | the consumer's turn is returning from a yield, else taking an item |
| HeartbeatPump.WrapWithHeartbeat | src/agent_os/ai/router.py:118-161 | whichever turns are taken, the loop yields the upstream's chunks in order and raises exactly if the upstream failed |
| SseWire.DumpsIsOneLine | src/agent_os/ai/router.py:1567-1568 | printed JSON has no control character, so no raw line feed, whatever its strings hold (section 7 of RFC 8259) |
| SseWire.SplitResumes | static/mydow/app.js:2289-2291 | splitting at blank lines can stop anywhere and go on from the kept rest |
| SseWire.ChunkingDoesNotMatter | static/mydow/app.js:2289-2291 | feeding chunks through the buffer sees the blocks of the whole text and keeps its incomplete rest, for every cutting |
| SseWire.FrameParses | src/agent_os/ai/router.py:1556-1568 | the field parser reads a printed frame's name and payload back, retry hint or not |
| SseWire.HintComesFirst | src/agent_os/ai/router.py:1556-1568 | a frame that asks for it begins with the reconnection hint of five seconds; the others carry none |
| SseWire.PrintedBlocks | src/agent_os/ai/router.py:1556-1568 | printed frames split into one block each with nothing left over |
| SseWire.RoundTrip | static/mydow/app.js:2289-2300 | printing any frames and reading them in any chunking gives the same names and payloads |
| JsonReader.DumpsReadsBack | src/agent_os/ai/router.py:1567-1568 | every JSON value with well-formed numbers is read back from its printed text by a parser after RFC 8259, escapes, lists and nesting included |
| Utf8Stream.EncodedTextReturns | src/agent_os/ai/router.py:1568 | encoding then decoding gives every text back with no byte pending |
| Utf8Stream.DecodeResumes | static/mydow/app.js:2289 | decoding may stop inside a character and resume with the pending bytes |
| Utf8Stream.BytesCarryText | static/mydow/app.js:2289 | the decoded chunks of an encoded text join up to the text, for every cutting of the bytes |
| Utf8Stream.ByteRoundTrip | static/mydow/app.js:2268-2300 | the round trip holds for bytes cut anywhere |
| StreamReader.ParseFields | static/mydow/app.js:2293-2300 | the field loop computes the block's event name and joined data |
| StreamReader.HandleEvents | static/mydow/app.js:2292-2335 | the event loop leaves the page that folding the blocks in order leaves |
| StreamReader.StreamAssistantMessage | static/mydow/app.js:2268-2341 | for every chunking and way of ending, the read loop gives what one pass over the whole text gives |
| StreamReader.BlockTells | static/mydow/app.js:2293-2300 | a block is named by its last `event:` line, or "message"; its data are those of all `data:` lines, joined |
| StreamReader.EventEffects | static/mydow/app.js:2301-2335 | what one event can do to the page: `done` always ends the stream, an error only with a payload; text is only ever added, and by tokens only; data that do not parse add no text and show as a nameless error |
| StreamReader.UnfinishedTells | static/mydow/app.js:2268-2354 | how a stream ends that brought neither `done` nor an error: closed, stopped by the user, or broken |
| Citations.CiteAllIff | src/agent_os/ai/router.py:578-596 | the citations come out exactly if every object among them has text, or nothing that counts, for its kind, title and snippet; otherwise shaping them raises |
| Citations.CitationsAreTidy | src/agent_os/ai/router.py:556-596 | each citation that comes out names a kind and an identifier, has a snippet of at most 500 characters, and prints on one line |
| Citations.CiteAllDescribes | src/agent_os/ai/router.py:556-596 | the citations that come out describe the objects of the list one for one and in order: stripped type, identifier and title and the first 500 characters of the snippet, with their defaults, and the extra fields |
| AnswerStream.AnswerSays | src/agent_os/ai/router.py:1854-1858 | the token pieces of an answer join up to the answer, whatever its length |
| AnswerStream.PiecesAreEven | src/agent_os/ai/router.py:1854-1858 | all pieces but the last have one size, an eightieth of the answer and at least 24 characters; the last is not empty |
| AnswerStream.SendAnswer | src/agent_os/ai/router.py:1854-1858 | the loop sends exactly those pieces |
| AnswerStream.ChatSays | src/agent_os/ai/router.py:1865-1885 | the token frames of a model's stream carry its chunks joined, and no error |
| AnswerStream.ChatTells | src/agent_os/ai/router.py:1865-1885 | the frames are the chunks with text and the timeouts, one for one and in order, each keepalive with its number |
| AnswerStream.SendChat | src/agent_os/ai/router.py:1865-1885 | each chunk with text becomes a token, each timeout a keepalive with its number |
| AnswerStream.SendProgress | src/agent_os/ai/router.py:1782-1835 | one frame for each thought, call, result and error, in order, and the last error |
| AnswerStream.ProgressTells | src/agent_os/ai/router.py:1782-1835 | the k-th frame shows the k-th event: its kind, its step number, and the message of an error |
| AnswerStream.FinaleTells | src/agent_os/ai/router.py:1836-1842 | the final answer is announced by a step of its round, or of the fourth if it has none |
| AnswerStream.StepsAreForAgents | src/agent_os/ai/router.py:1716-1768 | no other stream shows a step |
| AnswerStream.OfflineTells | src/agent_os/ai/router.py:1888-1904 | the offline answer repeats the beginning of the question, 80 characters at most |
| AnswerStream.SendFinale | src/agent_os/ai/router.py:1836-1858 | the frames of a final answer, its citations, whether shaping them or cutting the answer raises, and whether a list was cut |
| AnswerStream.SendAgent | src/agent_os/ai/router.py:1775-1859 | every frame of an agent's run, the error it ends with, which citations or the cut may raise, and its citations |
| AnswerStream.SourceSays | src/agent_os/ai/router.py:1775-1904 | the source's frames carry its text and an error frame exactly if it failed, and the text comes before any error except one the agent reported |
| AnswerStream.SendSource | src/agent_os/ai/router.py:1775-1904 | the guarded part sends these frames and ends with that error |
| AnswerStream.SendPrelude | src/agent_os/ai/router.py:1716-1768 | the steps that open an agent's stream |
| AnswerStream.OpeningTells | src/agent_os/ai/router.py:1716-1768 | an agent's stream opens with the steps plan and retrieve, and with synthesize if no model answers |
| AnswerStream.Conclude | src/agent_os/ai/router.py:1906-1925 | the stored text and verdict for every combination of text, error and offline mode, and when a `replace` is sent |
| AnswerStream.StreamIsComplete | src/agent_os/ai/router.py:1704-1980 | a stream that reaches its end has `meta` first, `done` once and last with the status written, the source's text in its tokens and an error exactly if the source failed |
| AnswerStream.RowFollowsFrames | src/agent_os/ai/router.py:1909-1925 | told from the frames alone: the row holds, cleaned, the streamed text, or else the last error behind a prefix, or else a notice; it is failed exactly if an error was told or nothing was said outside the offline mode |
| AnswerStream.ReplacedIffCleaned | src/agent_os/ai/router.py:1921-1925 | the stream replaces its text exactly if cleaning changes it, right before `done`, with what the row holds |
| AnswerStream.MetaTells | src/agent_os/ai/router.py:1704-1714 | `meta` names the reply, its job and the mode |
| AnswerStream.DoneTells | src/agent_os/ai/router.py:1968-1980 | `done` names the reply and its job and tells status, time taken and citations |
| AnswerStream.Generate | src/agent_os/ai/router.py:1704-1980 | the frames sent and the outcome written to both rows; it breaks off exactly for a non-empty list answer whose citations can be shaped |
| AnswerDelivery.AnswerArrives | static/mydow/app.js:2268-2341 | a complete stream, printed, encoded, its bytes cut anywhere, decoded and read, leaves the page with the message id and the text before the first error; its bubble shows that error if there is one, and else the text |
| AnswerDelivery.JsonParserReadsBack | static/mydow/app.js:2293-2300 | a parser after RFC 8259 reads back every payload of a complete stream that the page makes use of, so this premise of the delivery theorems can be met |
| AnswerDelivery.PageVersusRow | static/mydow/app.js:2321-2330 | the page has no citations; it is finished with a failed row exactly if the model came to nothing without an error, and never stopped with a completed one; a finished bubble with text is the stored text exactly if cleaning leaves the text alone |
| AnswerDelivery.SilenceComesToNothing | src/agent_os/ai/router.py:1909-1920 | a chat stream without a chunk is such a case: finished on the page, failed in the rows |
| AnswerDelivery.ModelTextArrives | src/agent_os/ai/router.py:1861-1885 | through pump, generator, printer, encoder, chunking and reader: the page holds the model's chunks joined, in every interleaving, stopped at an error exactly if the model failed |
| AgentDelivery.RequestJudged | src/agent_os/agent/react_agent.py:588-691 | error, text and break-off of a streamed run, told from the one completion that ends its loop |
| AgentDelivery.BreaksOffIff | src/agent_os/agent/react_agent.py:639-655 | the stream of a run breaks off exactly if that completion's final-answer arguments are an object with a non-empty list for an answer and citations that can be shaped |
| AgentDelivery.FirstRoundDecides | src/agent_os/agent/react_agent.py:639-655 | a first completion that is a final answer decides the run by its arguments |
| AgentDelivery.FailingArguments | src/agent_os/ai/router.py:1843-1858 | arguments that break the stream off or fail it, each way once: list, bad citation, both, number, no object |
| AgentDelivery.RunIsPlain | src/agent_os/agent/react_agent.py:588-691 | whatever the model and the tools do, a run's answer is its last event and its citations print on one line |
| AgentDelivery.RunIsCited | src/agent_os/ai/router.py:1845-1852 | told from the completion that ends the loop: if its arguments are an object with a non-empty list of citations that can be shaped, row and `done` have one entry for each object of that list, in order; in every other run they have the context's citations |
| AgentDelivery.AgentAnswerArrives | src/agent_os/ai/router.py:1775-1980 | through agent, generator, printer, encoder, chunking and reader: page and row hold the answer of the completion that ends the loop, or an error and a failed row |
| AgentDelivery.AnswerWithAgent | src/agent_os/ai/router.py:1775-1980 | running the agent and streaming what it yields delivers that verdict in every chunking, breaks off exactly on the verdict that says so, and writes and sends those citations |
| StreamOutcome.OutcomeIsHeld | src/agent_os/ai/router.py:1933-1966 | whatever has happened to the rows of an open stream, once its outcome is written reply and job hold its status and the conversation shows its text |
| StreamOutcome.StreamAnswer | src/agent_os/ai/router.py:1933-1980 | the status that `done` tells is the one both rows hold; a stream that breaks off writes nothing |
| VerificationCodes.KeyTextInjective | src/agent_os/auth/verification.py:51-56 | different keys have different texts as long as no code type contains a colon |
| VerificationRuns.VerifyRefinesHistory | src/agent_os/auth/verification.py:203-247 | a code verifies exactly if the pair is not locked out and it is the latest unconsumed code, under 300 s old |
| VerificationRuns.CreateRefinesHistory | src/agent_os/auth/verification.py:149-179 | a code goes out exactly if the type is known, the pair is not locked out, and mailbox and address were not used within 60 s |
| VerificationRuns.CreatesAreSpaced | src/agent_os/auth/verification.py:87-107 | successful creates for one mailbox, or one non-empty address, are at least 60 s apart |
| VerificationRuns.FifthFailureIsCovered | src/agent_os/auth/verification.py:214-228 | in every reachable state a counter at five is covered by a lock that expires no earlier |
| VerificationRuns.NoAttemptsLeftIffLocked | src/agent_os/auth/verification.py:259-282 | the counter never passes five, and zero attempts remain exactly while locked |
| VerificationRuns.LockoutFreezesPair | src/agent_os/auth/verification.py:109-122 | for 1800 s after a lockout every create and verify for the pair fails and changes nothing |
| VerificationRuns.BruteForceBound | src/agent_os/auth/verification.py:203-237 | a half-open 1800 s window without a success holds at most eight counted wrong guesses for a pair |
| VerificationRuns.BruteForceBoundIsReached | src/agent_os/auth/verification.py:203-237 | some run has exactly eight |
| VerificationAnswers.VerifyAnswers | src/agent_os/auth/verification.py:181-257 | which answer a verification gives, by the history alone: the seconds a lock still lasts, an expired code, success, the attempts left after a wrong guess, or the lockout at the fifth |
| VerificationAnswers.CreateAnswers | src/agent_os/auth/verification.py:124-179 | which answer a request for a code gives, by the history alone, with the seconds to wait for the mailbox, the address or the lock |
| VerificationAnswers.RemainingIsHistory | src/agent_os/auth/verification.py:259-282 | the attempts left are five less the guesses that count, and none while the pair is locked out |
| VerificationServiceClass.VerificationService.CheckRateLimit | src/agent_os/auth/verification.py:87-107 | the check reads the mailbox key, then the address key |
| VerificationServiceClass.VerificationService.CheckLocked | src/agent_os/auth/verification.py:109-122 | the check answers with the lock's remaining time |
| VerificationServiceClass.VerificationService.CreateCode | src/agent_os/auth/verification.py:124-179 | the sequence of store commands takes the specified step |
| VerificationServiceClass.VerificationService.VerifyCode | src/agent_os/auth/verification.py:181-257 | the sequence of store commands takes the specified step |
| VerificationServiceClass.VerificationService.GetRemainingAttempts | src/agent_os/auth/verification.py:259-282 | zero while locked, and else five minus the count |
| CompletionCache.RunKeepsBound | src/agent_os/ai/llm_provider.py:176-181 | no key twice, and at most the capacity in every reachable cache |
| CompletionCache.GetHolds | src/agent_os/ai/llm_provider.py:164-173 | a read drops only its own key's expired entry and keeps every other; it answers exactly with a live one's value |
| CompletionCache.EntriesAreLastPuts | src/agent_os/ai/llm_provider.py:164-181 | every entry in a reachable cache is what was last stored under its key |
| CompletionCache.LruInclusion | src/agent_os/ai/llm_provider.py:164-181 | on the same operations the smaller cache's entries are a subsequence of the larger one's, and the sizes differ by at most the difference of the capacities |
| CompletionCache.LargerCacheHitsToo | src/agent_os/ai/llm_provider.py:164-173 | what the smaller cache answers the larger answers alike |
| CacheRecency.EntriesInOrderOfUse | src/agent_os/ai/llm_provider.py:164-181 | entries stand in the order of their last use |
| CacheRecency.RecentlyUsedSurvives | src/agent_os/ai/llm_provider.py:164-181 | an unexpired entry is still there, unchanged, after operations that use fewer than the capacity of other keys |
| CompletionStoreClass.CompletionStore.Lookup | src/agent_os/ai/llm_provider.py:164-173 | pop, expiry test and reinsertion give the specified reply and cache |
| CompletionStoreClass.CompletionStore.Insert | src/agent_os/ai/llm_provider.py:176-181 | the eviction loop ends and leaves the newest entries |
| CachingProvider.HitsHaveProvenance | src/agent_os/ai/llm_provider.py:198-239 | in every interleaving a hit, without its two marks, is an upstream answer to a call with the same messages, effective model, effective temperature and tools, stored at most the time-to-live before |
| CachingProvider.RepliesAreTheUpstreams | src/agent_os/ai/llm_provider.py:198-239 | with an upstream that answers by messages, model, temperature and tools, every reply is that answer to the call made |
| CachingProvider.CachingIsTransparent | src/agent_os/ai/llm_provider.py:198-239 | any two providers with the same defaults reply alike, whatever their capacity and time-to-live, cached or not |
| CachingProvider.KeysAgreeIff | src/agent_os/ai/llm_provider.py:146-161 | two calls share a key exactly if their messages, effective model, effective temperature and tools are equal, no tools counting as an empty list |
| CachingProvider.LookupRepliesIff | src/agent_os/ai/llm_provider.py:198-239 | in every reachable state a call is answered from the cache exactly if an unexpired answer to the same request is still held, and else asks the upstream |
| CachingProvider.RepliesAreLabelled | src/agent_os/ai/llm_provider.py:198-239 | each reply carries the two marks that say whether it came from the cache |
| CachingProvider.CacheIsOneRun | src/agent_os/ai/llm_provider.py:164-181 | whatever the interleaving, the cache is that of one sequence of reads and writes |
| ReactAgent.FinalAnswerIsUniqueAndLast | src/agent_os/agent/react_agent.py:588-691 | in an accepted trace the final answer is unique and last, and the length is bounded by the rounds |
| ReactAgent.TraceInGrammar | src/agent_os/agent/react_agent.py:588-691 | the events follow the grammar exactly when the loop does not end on final-answer arguments that are no object; otherwise they are a beginning of something that does |
| ReactAgent.PromptsAnswered | src/agent_os/agent/react_agent.py:588-682 | at most n + 1 completions are asked for, and in each prompt an assistant message with calls is followed by a tool message of at most 3500 characters for its first call |
| ReactAgent.PromptsAsk | src/agent_os/agent/react_agent.py:579-586 | every prompt begins with the system message, the spoken ones of the last six turns in order, and the question, and then has only calls and their answers |
| ReactAgent.PromptsGrow | src/agent_os/agent/react_agent.py:588-682 | the i-th prompt adds, for each round before, the model's message and the beginning of what its first call returned, under that call's id and name |
| ReactAgent.EventsTell | src/agent_os/agent/react_agent.py:588-691 | an event occurs in a run exactly if there is reason: a thought, a first call with its arguments, what dispatching it returned, an answer, an error or an apology |
| ReactAgent.DispatchTells | src/agent_os/agent/react_agent.py:480-499 | dispatching is total: unknown names, arguments that are no object and tools that throw become error objects |
| ReactAgent.CallTool | src/agent_os/agent/react_agent.py:626-681 | one tool round's events and messages |
| ReactAgent.Conclude | src/agent_os/agent/react_agent.py:590-656 | the events of the round that ends the loop, and when it crashes |
| ReactAgent.RunLoop | src/agent_os/agent/react_agent.py:588-691 | the loop computes the specified trace, and when an exception escapes it |
| ReactAgent.RunReactAgent | src/agent_os/agent/react_agent.py:524-691 | events, prompts and crash of the whole agent, with and without a model; every prompt asks the question |
| ChatLifecycle.StatusesMatchUnlessSevered | src/agent_os/jobs/router.py:42-70 | in every reachable state each reply has its own job, and their statuses match exactly unless the job was canceled alone while the reply was being made and neither a cancel of the reply nor its stream's outcome has come since |
| ChatLifecycle.StatusesAlwaysMatch | src/agent_os/ai/router.py:1933-1962 | in runs in which no job is canceled alone they always match |
| ChatLifecycle.JobCanBeCanceledAlone | src/agent_os/jobs/router.py:42-70 | a run after which a reply is running and its job canceled |
| ChatLifecycle.DeletedRow | src/agent_os/ai/router.py:1962-1966 | from its deletion on, over any run, a conversation keeps owner, counter, mark and number of messages; its row is written once for each of its streams that was open at the deletion and has been finalised since, and stays as it is if there is none |
| ChatLifecycle.DeletedIsStillWritten | src/agent_os/ai/router.py:1962-1966 | a run in which a reply of a deleted conversation is completed and shown in its preview |
| ChatLifecycle.CountIsExact | src/agent_os/ai/router.py:1532 | a conversation's counter is the number of its stored messages |
| ChatLifecycle.RegenerateFindsPrompt | src/agent_os/ai/router.py:2104-2285 | regenerating a reply always finds a prompt; it is refused exactly for a user message and in a deleted conversation |
| ChatLifecycle.CancelEffect | src/agent_os/ai/router.py:2038-2097 | a cancel of a reply still being made cancels it and its job and touches nothing else; otherwise it changes nothing; twice is once |
| ChatLifecycle.CanceledUntilFinalised | src/agent_os/ai/router.py:1935-1942 | over any run, a canceled reply stays canceled exactly as long as its own open stream is not finalised |
| ChatLifecycle.CanceledIsNotTerminal | src/agent_os/ai/router.py:1935-1942 | a run in which a canceled reply ends up completed |
| ChatLifecycle.RunningUntilCanceled | src/agent_os/ai/router.py:2066-2084 | over any run, a reply whose stream never writes an outcome stays running exactly until its owner cancels it |
| ChatRequests.PostDoes | src/agent_os/ai/router.py:1390-1535 | posting writes a question, its reply and their job, failed exactly if the model's call fails; who is refused, and how |
| ChatRequests.StartDoes | src/agent_os/ai/router.py:1575-1682 | starting a stream writes a question, a running reply and a running job, and opens a stream that belongs to these two |
| ChatRequests.FinaliseDoes | src/agent_os/ai/router.py:1933-1967 | in every reachable state an open stream's outcome is written to its own two rows and the preview of its conversation, once |
| ChatRequests.RegenerateDoes | src/agent_os/ai/router.py:2104-2285 | regenerating adds another reply to the latest question before, with its own job, failed exactly if the call fails |
| ChatRequests.OthersDo | src/agent_os/ai/router.py:2563-2582 | what opening and deleting a conversation and cancelling a job alone do, and when they are refused |
| ChatStoreClass.ChatStore.OpenConversation | src/agent_os/ai/router.py:1331-1338 | a new conversation with no messages counted |
| ChatStoreClass.ChatStore.PostMessage | src/agent_os/ai/router.py:1390-1535 | the rows written by a post are the specified ones |
| ChatStoreClass.ChatStore.PostMessageStream | src/agent_os/ai/router.py:1575-1682 | the rows written when a stream starts |
| ChatStoreClass.ChatStore.FinaliseStream | src/agent_os/ai/router.py:1933-1967 | the statuses and the preview written when it ends |
| ChatStoreClass.ChatStore.CancelMessage | src/agent_os/ai/router.py:2038-2097 | which of the two rows a cancel changes |
| ChatStoreClass.ChatStore.CancelAnyJob | src/agent_os/jobs/router.py:42-70 | the job endpoint cancels the job row alone, and refuses one that is completed or failed |
| ChatStoreClass.ChatStore.DeleteConversation | src/agent_os/ai/router.py:2563-2582 | the soft deletion of a conversation, refused the second time |
| ChatStoreClass.ChatStore.FindPrompt | src/agent_os/ai/router.py:2134-2157 | the latest user message at or before the target |
| ChatStoreClass.ChatStore.RegenerateMessage | src/agent_os/ai/router.py:2104-2285 | the rows written by a regeneration |
| HybridRetrieval.KeysIdentify | src/agent_os/ai/router.py:1180 | as identifiers hold no colon, equal keys mean equal type and identifier |
| HybridRetrieval.PositiveAre | src/agent_os/ai/router.py:1144-1176 | exactly the rows that score above zero take part, each with its key, its row and its score, whose weights are spelled out |
| HybridRetrieval.OneRowMore | src/agent_os/ai/router.py:1144-1176 | one more row adds its candidate behind the others, or nothing |
| HybridRetrieval.AbsorbAllMerges | src/agent_os/ai/router.py:1177-1188 | the merge keeps one entry per key in order of first appearance, with the key's highest score, first of equals |
| HybridRetrieval.SortRanks | src/agent_os/ai/router.py:1191 | the stable sort ranks by score, then first appearance |
| HybridRetrieval.TopKIsUnique | src/agent_os/ai/router.py:1177-1191 | "the k best keys, in order" describes exactly one list, ties included |
| HybridRetrieval.TopKInPlainTerms | src/agent_os/ai/router.py:1177-1191 | no key twice, and a key is left out only for k keys that score at least as high |
| HybridRetrieval.TopCandidates | src/agent_os/ai/router.py:1144-1191 | scoring, merging, sorting and cutting give that list |
| HybridRetrieval.KbSearch | src/agent_os/agent/react_agent.py:217-321 | the search tool's results are none for a blank query, and else the best keys, as many as asked for from 1 to 10, 5 if zero is asked for, 10 above and 1 below |
| RetrievalEnrichment.EnrichRows | src/agent_os/ai/router.py:921-949 | index rows get the specified new scores, are sorted and cut |
| RetrievalEnrichment.Assemble | src/agent_os/ai/router.py:1194-1241 | both parts, scored and sorted together, are a permutation of the ranked candidates with their new scores, non-increasing |
| RetrievalEnrichment.FinalsAt | src/agent_os/ai/router.py:921-945 | a candidate's new score leaves its key and row alone |
| RetrievalEnrichment.NewScore | src/agent_os/ai/router.py:921-945 | the new score in numbers: a document's is rounded; an index row starts from the last one listed with its identifier, a better paragraph lifts it, the folder asked for adds half a point |
| RetrievalEnrichment.RelatedContext | src/agent_os/ai/router.py:1144-1241 | what reaches the prompt is a permutation of the best keys' candidates with their new scores: none dropped, none twice |
| RetrievalEnrichment.LoweredIffShadowed | src/agent_os/ai/router.py:1207-1210 | an index row starts below its own score exactly if a lower row with its identifier is also listed |
| RetrievalEnrichment.ShadowLowers | src/agent_os/ai/router.py:1207-1210 | two index rows of one identifier, the better of which starts from the other's score |
| RetrievalEnrichment.EnrichmentRaises | src/agent_os/ai/router.py:921-945 | otherwise its score only rises, up to rounding, and a folder hit is worth half a point |
| Sentences.ExtractSentences | src/agent_os/agent/summarizer.py:67-96 | the recombining loop yields the specified pieces |
| Sentences.SentencesConserve | src/agent_os/agent/summarizer.py:67-96 | the characters that are no white space come out as they went in, in order |
| Sentences.PiecesAreWellFormed | src/agent_os/agent/summarizer.py:67-96 | pieces are stripped and non-empty, with end marks only at their end, and there in all but the last |
| Sentences.ResplitIff | src/agent_os/agent/summarizer.py:67-96 | the lists that survive joining and splitting are exactly those, and exactly what splitting can return |
| Sentences.ResplitIsStable | src/agent_os/agent/summarizer.py:55 | splitting the space-joined pieces again gives the same list |
| Summaries.Truncate | src/agent_os/agent/summarizer.py:99-133 | which of the three cuts is made, and where, for every text and non-negative limit; at most three characters over it |
| Summaries.LateAtSeventyPercent | src/agent_os/agent/summarizer.py:124 | at limits 90, 10 and 80, whether a cut at seven tenths of the limit is late enough |
| Summaries.NoTagRemains | src/agent_os/agent/summarizer.py:146 | removing tags leaves none, even where it brings brackets together, and changes exactly the texts that have one: an opening bracket, something without a closing one, and a closing one |
| Summaries.TagsGo | src/agent_os/agent/summarizer.py:146 | the first tag goes, what is in front stays, and what is behind is looked at alike |
| Summaries.LineIsCleaned | src/agent_os/agent/summarizer.py:136-164 | at the start of a line all heading and list marks go, with the white space behind them, and nothing else |
| Summaries.CleanText | src/agent_os/agent/summarizer.py:136-164 | the line loop computes the specified text |
| Summaries.CleanShrinks | src/agent_os/agent/summarizer.py:136-164 | cleaning never makes a text longer |
| Summaries.CleanIsTidy | src/agent_os/agent/summarizer.py:136-164 | the result has single spaces inside and none at its ends |
| Summaries.CleanedConserves | src/agent_os/agent/summarizer.py:136-164 | the characters of the cleaned lines that are no white space come out in order, none lost or added |
| Summaries.SummarySelects | src/agent_os/agent/summarizer.py:10-64 | a summary is cleaned from the first so many sentences, cut if they exceed the limit; a negative number leaves off as many at the end; a blank text has none |
| Summaries.GenerateSummary | src/agent_os/agent/summarizer.py:10-64 | splitting, selecting, joining, cutting and cleaning give the specified summary |
| Summaries.SummaryIsShortAndTidy | src/agent_os/agent/summarizer.py:10-64 | for every text, sentence count and non-negative limit a summary is at most three characters over the limit; its white space is single spaces, none at the ends |
| Summaries.SummaryBoundIsReached | src/agent_os/agent/summarizer.py:10-64 | at every limit some text's summary is exactly three over |
| BraceScanner.ScanBlocks | src/agent_os/capture/llm_pipeline.py:305-317 | the scan collects exactly the maximal balanced blocks before the first brace that is never closed, disjoint and in text order |
| FencedBlock.FencedIsFirstMatch | src/agent_os/capture/llm_pipeline.py:301-303 | the fenced block is the leftmost, shortest match of the pattern, brace to brace between backticks, and there is one exactly if the pattern matches anywhere |
| FencedBlock.FencedIsShorter | src/agent_os/capture/llm_pipeline.py:301-303 | it is never the whole text |
| BraceScanner.StrayBraceHides | src/agent_os/capture/llm_pipeline.py:305-317 | nothing behind a brace that is never closed is reported |
| BraceScanner.LargestIsFoundIff | src/agent_os/capture/llm_pipeline.py:290-297 | the returned object is as large as the largest one in the text exactly if one of that size is neither enclosed by another block nor behind a brace that stays open, or the fenced block is an object that large |
| BraceScanner.WholeReplyIff | src/agent_os/capture/llm_pipeline.py:299-325 | a stripped reply that is an object as a whole is chosen exactly if its last brace closes its first, braces in strings counted |
| BraceScanner.WholeReplyIsRead | src/agent_os/capture/llm_pipeline.py:299-325 | such a reply is read as what it is, or else as what a shorter part of it is, or not at all |
| BraceScanner.ReadingIsBest | src/agent_os/capture/llm_pipeline.py:318-325 | what is returned is the meaning of a candidate that is an object, with no longer one among the visible blocks and the fenced one |
| BraceScanner.LargestCanBeMissed | src/agent_os/capture/llm_pipeline.py:290-297 | a text whose one object is hidden behind a stray brace |
| BraceScanner.NestedObjectIsMissed | src/agent_os/capture/llm_pipeline.py:290-297 | a text with every brace closed whose one object lies inside a block that is none |
| BraceScanner.BraceInStringIsMissed | src/agent_os/capture/llm_pipeline.py:290-297 | a reply that is an object as a whole and is lost for a brace in a string |
| BraceScanner.SortedScanChooses | src/agent_os/capture/llm_pipeline.py:318-325 | the first object of the list sorted by length is the longest object, first of equals |
| BraceScanner.CoerceJsonPayload | src/agent_os/capture/llm_pipeline.py:290-327 | the result is the longest candidate that parses to an object, fenced block included; none exactly if none does |
| CreditLedger.BalancesAreRunningSums | src/agent_os/billing/router.py:123-160 | an account's k-th row carries the sum of its first k amounts, never negative |
| CreditLedger.OneInitialAllowance | src/agent_os/billing/router.py:182-216 | an account with a subscription has one initial allowance, its first row; one without has no rows |
| CreditLedger.OthersUntouched | src/agent_os/billing/router.py:123-160 | a request on one account changes no other account's rows or subscription, and rewrites no row |
| CreditLedger.PaymentIff | src/agent_os/billing/router.py:331-357 | a payment goes through exactly if balance or coming allowance covers it; otherwise nothing is charged |
| CreditLedger.ConsumePays | src/agent_os/billing/router.py:331-357 | over every run: consuming is rejected exactly outside 1 to 100000 credits or 1 to 80 characters, and then changes nothing; otherwise it is done exactly if balance or coming allowance covers it, and then one row of minus the amount is added for that reason and the balance falls by the amount; if refused, nothing is charged |
| CreditLedger.PurchasePays | src/agent_os/marketplace/router.py:316-335 | the same of buying a skill, at its price |
| CreditLedger.UpdateSwitches | src/agent_os/billing/router.py:254-286 | over every run: a change of plan sets it in subscription and settings, and adds that plan's allowance exactly if the plan was another one |
| CreditLedger.ViewPrepares | src/agent_os/billing/router.py:182-216 | over every run: looking at a subscription makes it, with its initial allowance, exactly if there was none |
| CreditLedger.PlanIsStored | src/agent_os/billing/router.py:182-216 | a plan other than the free one is in force exactly if its text is stored in the settings |
| CreditLedger.TextAloneIsNotEnough | src/agent_os/billing/router.py:347-356 | a charge can carry the allowance's reason text |
| BillingDeskClass.BillingDesk.AppendCreditEntry | src/agent_os/billing/router.py:137-162 | the appended row and its balance |
| BillingDeskClass.BillingDesk.EnsureSubscription | src/agent_os/billing/router.py:182-216 | the subscription found or made, and the allowance that comes with it |
| BillingDeskClass.BillingDesk.UpdateSubscription | src/agent_os/billing/router.py:254-286 | the new plan in row and settings, and an allowance exactly if the plan changed |
| BillingDeskClass.BillingDesk.ConsumeCredits | src/agent_os/billing/router.py:331-357 | validation, refusal and charge |
| BillingDeskClass.BillingDesk.PurchaseSkill | src/agent_os/marketplace/router.py:316-335 | refusal and charge of a purchase |
| RefreshRotation.OneActivePerChain | src/agent_os/auth/router.py:347-373 | of the sessions descending from one login at most one is active |
| RefreshRotation.InactiveStays | src/agent_os/auth/session_store.py:82-110 | rows stay, keep user, tokens and expiry, and once inactive never change |
| RefreshRotation.SessionIsIssued | src/agent_os/auth/router.py:132-152 | over every run: an answer that issues a session names a new row of the user who logged in or whom the token names, active, expiring the set time after now, with two tokens that no earlier session has; no other answer adds a row |
| RefreshRotation.EndsSession | src/agent_os/auth/session_store.py:65-111 | a presented refresh token or a logout ends its own session and notes the time; every other active session stays as it is |
| RefreshRotation.LogInAndOut | src/agent_os/auth/router.py:307-328 | over every run: a login issues a session exactly for good credentials; a logout says whether the bearer's session was active |
| RefreshRotation.AcceptedAtMostOnce | src/agent_os/auth/session_store.py:65-92 | a refresh token is accepted at most once in any run |
| RefreshRotation.ActiveIffUnspent | src/agent_os/auth/session_store.py:65-111 | a session is active exactly until its refresh token is presented or its access token logs out |
| RefreshRotation.RefreshRefinesHistory | src/agent_os/auth/router.py:347-373 | a refresh is accepted exactly for a good signature, a known user, and an unspent, unexpired session of that token |
| SessionStoreClass.SessionStore.CreateSessionRecord | src/agent_os/auth/session_store.py:35-62 | the inserted active row, with its user, tokens and expiry |
| SessionStoreClass.SessionStore.ConsumeRefreshSession | src/agent_os/auth/session_store.py:65-92 | the row returned, and what becomes inactive, for every kind of token |
| SessionStoreClass.SessionStore.RevokeAccessSession | src/agent_os/auth/session_store.py:96-111 | the row a logout revokes |
| SessionStoreClass.SessionStore.IssueTokenPair | src/agent_os/auth/router.py:132-152 | two new tokens and their session |
| SessionStoreClass.SessionStore.LogIn | src/agent_os/auth/router.py:307-328 | a session exactly for good credentials |
| SessionStoreClass.SessionStore.RefreshToken | src/agent_os/auth/router.py:338-373 | the order of signature check, consumption and user check |
| SessionStoreClass.SessionStore.LogOut | src/agent_os/auth/router.py:1399-1420 | logout with and without a token |

## Left out

- WrapWithHeartbeat: a consumer that stops reading early, because the producer's final put may then wait for a slot while the clean-up waits for the producer; the number of timeouts is a parameter.
- StreamAssistantMessage: the page's elements, `metaSlot` and scrolling; the decoder's byte-order mark and replacement of malformed bytes, as the server sends neither.
- DumpsReadsBack: escapes that name half of a surrogate pair, which the printer never writes; numbers keep the text they print as.
- ByteRoundTrip: text with lone surrogates, which cannot be encoded; no part of the streaming model has any.
- Generate: text with lone surrogates, whose piece is kept although sending it raises, and which a database may refuse afterwards; the timestamps and elapsed time of keepalive frames, titles and fixed texts of step frames, the configuration fields of `meta`, the token frames of a list answer before the stream breaks off, tool-call snapshots, token counts, previews and HTTP headers; the wording of an exception's message; clients that disconnect, and database failures while the rows are written.
- Conclude: the clean-up of a reply is a parameter, so no property of the cleaned text is claimed.
- CachingIsTransparent: options outside the key such as `max_tokens`, replacing the provider while calls are in flight, deep copies of cached dictionaries.
- AnswerWithAgent: answers with lone surrogates, which a tool call's arguments can spell out.
- FinaliseStream: the content, citations, tool calls and measurements of the reply's row; `Generate` says what content and citations are written.
- DeleteConversation: renaming, pinning and scoping a conversation, which its deletion forbids.
- RunReactAgent: what the tools do; a tool's result is any value. Calls after the first in one completion are not answered by the source and nothing is claimed of them.
- RegenerateMessage: rows are ordered by creation; the prompt found is the latest earlier one, which need not be the one a regenerated reply came from. A stored reply names a model that was enabled or a placeholder that falls back to the default, so its model is taken not to be refused.
- PostMessage: attachments, extra context, plan limits and validation of the text; the catalogue of models is one truth value per request.
- KbSearch: snippets, titles and links of the results, and the rounding of the score shown.
- RelatedContext: the first two retrieval paths and the fallback to recent rows, database errors, snippets and folder names; scores are real numbers.
- Truncate: limits of 2 to the 48 and more, where the double product is coarser than `Late` says.
- SummaryIsShortAndTidy: for a negative limit, which Python's slices accept, no bound is claimed.
- CoerceJsonPayload: what the parser accepts is a parameter.
- UpdateSubscription: billing cycle, period end and source fields; a subscription is never canceled by the modelled requests.
- PurchaseSkill: the listing, its counters and the installation; the price is that of the listing.
- LogIn: password checks and the last login time; registration and the demo login issue sessions in the same way.
- RefreshToken: the token's own expiry and signature, which are the parameter `jwt`.
- VerifyCode: races between store commands of two requests; each call is one step. The same goes for credit and session requests.
- Embeddings, similarity, tokenisation, hashing, mail, HTTP, migrations, seeds, the external tool bridge, and the flat classifiers, prompt builders, whitelists and pagination: parameters above, or easy branching only.
