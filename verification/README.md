# Verified model of the GitHub Copilot plugin

A Dafny model of the parts of the plugin that keep state: the three streaming translators between
the Responses, Claude Messages and Chat Completions formats, the byte pipeline that feeds them, the
Copilot token cache, GitHub device-code polling, the translation of Claude requests, and the model
catalogue. Check it with `dafny verify dfyconfig.toml`.

## How it is built

- **Streaming translators** (`internal/translate`). Each is a pure function of state and frame
  (`ResponsesToClaude`, `ResponsesToChat`, `ClaudeToChat`) and a class that updates its fields and
  its map of records in place (`ClaudeStream`, `ChatStream`, `ClaudeChatStream`). Every method of
  the classes is proved to compute the function. About the functions are proved:
  - the output protocol for every upstream event sequence (`ClaudeStreamProtocol`,
    `ChatStreamProtocol`, `ClaudeChatProtocol`), as acceptance by a client automaton;
  - what is said in streams of any shape, field by field: headers, signatures, the names of calls and
    the last events (`StreamContents`); and at which frame a stream fails, with what (`StreamErrors`);
  - what a whole response becomes, item by item, and when it fails (`WholeContents`);
  - the commuting squares: a client that puts the stream together gets what the non-streaming
    translation produces (`ClaudeStreamSquare`, `ChatStreamSquare`, `ClaudeToChatSquare`). The
    streams are those of `StreamPlan`: any response, its items announced or not, its text and
    arguments cut into deltas anywhere;
  - the triangle: Responses to Claude to Chat Completions says the same as Responses to Chat
    Completions, for arbitrarily interleaved items (`Triangle`, `TriangleCanonical`).
- **Byte pipeline.** `SseDecoder` cuts frames, `SseFrame` reads and prints them, `Pump` drives an
  arbitrary deterministic translator for every upstream and every host, `PumpToClaude` is the pump with
  the Responses-to-Claude one.
- **Token cache.** `TokenCache` has the lock regions, as functions and as methods of a shared object;
  `TokenProtocol` is every interleaving of requests, exchanges, cancellations, 401 retries, logouts
  and shutdowns over them, with numbered exchanges; `TokenIsolation` is whose
  tokens a request can get, `TokenReuse` which token the cache holds and what a request does with it.
- **Device login.** `DeviceLogin` has the session map and its lock regions; `DevicePolling` is every
  run of one login under concurrent callers, with 64-bit durations; `DeviceOutcomes` is what the callers
  are told.
- **Requests.** `ClaudeRequest` is the accumulate-and-flush loop; `ClaudeTurn` shows how parts are
  grouped and which assistant turns survive a round trip; `ClaudeParts` shows which texts, images,
  documents and tool results can be read back from the items, and which requests are refused.
- **Catalogue.** `Models`.

JSON objects are decoded to the fields the translators read. A `response` that is missing or an empty
object is `None`. The words of `type`, `status` and `reason`, trimmed and lower-cased by the program,
are enumerations. Item and content keys are a datatype. A `char` stands for a code point, or for a
byte in `SseDecoder`, whose separators are ASCII.

Go walks `Blocks` in an unspecified order when it finishes a Claude message. The order is the argument
`order` of the functions, all results hold for every order, and the method that walks the map returns
the order it took.

## What does not hold as one might expect

The code is modelled as it is; where a natural claim is false there is a lemma that shows it, and the
exact condition under which it is true.

- Events after `message_stop`, or on a closed block, do occur: `ClaudeStreamProtocol.DoneTwiceIsStray`.
  The exact condition is a test of each event and the record of its block
  (`ClaudeStreamProtocol.StreamProtocol`), and can be read off the upstream frames alone
  (`OrderlyStreamProtocol`). An upstream that ends each item once and sends no content after the
  terminal event meets it (`SequentialIsOrderly`).
- The reassembled Claude stream equals the whole translation exactly when every item is tidy
  (`ClaudeStreamSquare.StreamSquareExact`): streamed thinking is not trimmed part by part, whole thinking
  is; summary and content are both streamed, only one is translated; a blank text hides a second one; an
  announced signature is sent when the done item has none; and redacted data that comes only with the
  done event is lost (`ClaudeStreamSquare.LateRedactionIsLost`, exact condition in `RedactedSurvives`).
- The Chat Completions stream repeats a reasoning item's text after its deltas: equal to the whole
  translation exactly when no reasoning delta was sent, `ChatStreamSquare.StreamSquare`.
- The two ways of the triangle tell a canonical stream alike exactly when it has no refusal text and no
  tool is announced without a name and then given a name, or its first identifier, by its deltas:
  `TriangleCanonical.CanonicalTriangle`. A nameless tool whose arguments come with the done event is told
  alike, one whose delta names it is not: `TriangleCanonical.NamedLateDiffers`. The events at which the
  ways part, for a time or for good: `Triangle.RefusalsPart`, `Triangle.NamelessToolsPart`.
- A stream can close cleanly without a finished message: `PumpToClaude.CleanCloseFinished`,
  `PumpToClaude.SilenceClosesCleanly`.
- A 401 with a blank auth ID is retried with the same token, and only then:
  `TokenProtocol.RetryIsFreshIffAuthId`. A follower can receive a token of another GitHub account:
  `TokenProtocol.FollowerGetsForeignToken`; exactly when the two share a cache key, by a test of auth
  IDs and fingerprints: `TokenIsolation.ForeignTokenIffShared`.
- Claude tool arguments that come without a block index go under a new tool index, never to the call they
  belong to: `ClaudeChatProtocol.UnindexedArgumentsAreLost`.
- A Claude image, document or tool result is not always read back from the input items as it was: exactly
  when it is stable, that is trimmed, and not spelled like a data URL or, in a media type, like its mark
  (`ClaudeParts.TurnRoundTrip`).
- The five-second floor between device polls fails for intervals so large that nanoseconds overflow
  64 bits: exact condition in `DevicePolling.SteadyIffModerate`. The bounds on requests and slow_down
  answers fail under the same condition (`RequestBoundIffModerate`, `SlowDownBoundIffModerate`). A
  positive interval with room for a slow_down still bounds the requests, by the number of intervals in
  the lifetime; a zero, negative or overflowing one does not (`ExactRequestBound`, `OverflowUnbounded`).
- An empty `redacted_thinking` part splits a message group although nothing is put between the
  halves: exact condition in `ClaudeTurn.GroupsMaximal`.

## Model

| member | source | states |
|---|---|---|
| `ClaudeStreamProtocol.StreamProtocol` | internal/translate/claude_responses_stream.go:29-314 | For every event sequence and map order up to the first error: message_start first and once, block indices 0,1,2,… with alternating starts and stops, nothing open at message_stop, message_delta and message_stop once; deltas lie inside open blocks and nothing follows message_stop if and only if no frame is stray: after the end, an event that would open, extend or close a block; before it, a done item whose closed block lacks its text, arguments or signature. |
| `ClaudeStreamProtocol.OrderlyStreamProtocol` | internal/translate/claude_responses_stream.go:83-177 | The strict protocol holds if and only if the upstream frames are orderly, a condition on the frames alone: a ledger of each item's kind, state, signature and whether it was streamed. |
| `ClaudeStreamProtocol.SpeaksExactly` | internal/translate/claude_responses_stream.go:83-168 | In every state an event emits something if and only if it opens, extends or closes a block, by tests of the event and the record. |
| `ClaudeStreamProtocol.SequentialIsOrderly` | internal/translate/claude_responses_stream.go:134-168 | Frames that end no item twice and bring no content after the terminal event are orderly. |
| `ClaudeStreamProtocol.DoneTwiceIsStray` | internal/translate/claude_responses_stream.go:134-168 | At any point of a stream, a signed reasoning item done twice emits a delta on a closed block. |
| `ClaudeStreamProtocol.CloseAllSound` | internal/translate/claude_responses_stream.go:294-301 | Closing the blocks in any order keeps the client's view right. |
| `ClaudeStreamProtocol.DeliverSound` | internal/translate/claude_responses_stream.go:62-177 | Every event keeps the translator's blocks and the client's open blocks in agreement. |
| `ClaudeStreamProtocol.StrayRefused` | internal/translate/claude_responses_stream.go:134-168 | A stray step is refused by a strict client in every reachable state. |
| `StreamContents.MessageBegins` | internal/translate/claude_responses_stream.go:180-202 | A Claude stream says nothing before the first response event or event with a response, and then a message_start with that event's identifier, model and input tokens, or their defaults, field by field. |
| `StreamContents.DoneSignature` | internal/translate/claude_responses_stream.go:134-160 | In every state a done item with a thinking block keeps its own signature if that is not blank and the announced one otherwise; it is sent, once, if and only if there is one and it is no redacted data; other items send none. |
| `StreamContents.OpeningNames` | internal/translate/claude_responses_stream.go:84-149 | In every state, a tool block that an event opens bears its item's index, call identifier before item identifier, what the record knows before what a delta brings, and the trimmed name. |
| `StreamContents.MessageEnds` | internal/translate/claude_responses_stream.go:302-313 | In every unfinished state a terminal event that is no failure ends with message_delta and message_stop: the response's incomplete reason or, without one, whether there was a tool block; and its output tokens. |
| `StreamErrors.ClaudeRunFails` | internal/translate/claude_responses_stream.go:41-177 | A run fails if and only if some frame is fatal (no JSON object, `[DONE]` before the end, an error event, a completed response that failed or was cancelled), with the reason and words of the first one and the output of the frames before it. |
| `StreamErrors.FirstFatalIs` | internal/translate/claude_responses_stream.go:41-177 | The frame named there is fatal where it stands, and no frame before it is. |
| `ClaudeStreamSquare.StreamSquareExact` | internal/translate/claude_responses_stream.go:29-314 | For every response, announced items or not, signatures that change until the item is done, and every delta splitting: the reassembled blocks equal the whole translation's if and only if every item is tidy; stop reason and output tokens are told as the response gives them, and agree. |
| `ClaudeStreamSquare.StreamSquare` | internal/translate/claude_responses.go:176-254 | The square with errors: the tidy stream, reassembled and with arguments parsed, is the whole message, or both fail with the same error. |
| `ClaudeStreamSquare.StreamAssembles` | internal/translate/claude_responses_stream.go:74-177 | What a client assembles from a canonical stream: header, one draft per block in order, stop reason, tokens. |
| `ClaudeStreamSquare.ReasoningAgrees` | internal/translate/claude_responses.go:374-390 | Streamed and whole reasoning text agree if and only if none was streamed, or what was streamed is the text that counts and is trimmed. |
| `ClaudeStreamSquare.RedactedSurvives` | internal/translate/claude_responses_stream.go:229-240 | A redacted item's block survives streaming if and only if the trimmed data it was announced with has the prefix. |
| `ClaudeStreamSquare.LateRedactionIsLost` | internal/translate/claude_responses_stream.go:134-160 | A whole stream whose redacted data comes with the done event only: the client is left with nothing. |
| `ClaudeStreamSquare.RunsAsAnnounced` | internal/translate/claude_responses_stream.go:138-149 | An item nobody announced runs as if it had been announced with what is first known of it. |
| `ClaudeMessage.ResponseToClaude` | internal/translate/claude_responses.go:176-254 | The loops of the non-streaming translation compute its specification, first error included; stop reason, input, output and cached tokens are stated against the response field by field. |
| `WholeContents.WholeMessageSays` | internal/translate/claude_responses.go:176-254 | The translation fails if and only if the response failed or was cancelled, with its words, or else some tool's arguments do not parse; otherwise the content is what the items say in order: a text for each recognised part, one thinking block with its signature or the redacted data or nothing, and each tool call with its identifier, name and parsed input. |
| `Responses.ReasoningReads` | internal/translate/claude_responses.go:374-390 | An item's reasoning is the texts of its summary one after another, bare strings as they are and object texts trimmed, or the content's when they are all empty. |
| `ClaudeMessage.ItemContent` | internal/translate/claude_responses.go:192-232 | One output item's content blocks, or the error of its arguments. |
| `ClaudeMessage.MessageTexts` | internal/translate/claude_responses.go:193-202 | The text blocks of a message item, in order, trimmed. |
| `ClaudeStream.ResponsesClaudeStream.constructor` | internal/translate/claude_responses_stream.go:33-40 | A new translator is in the initial state. |
| `ClaudeStream.ResponsesClaudeStream.Translate` | internal/translate/claude_responses_stream.go:29-178 | One frame changes the fields and emits exactly as the step function says, for the map order it walked. |
| `ClaudeStream.ResponsesClaudeStream.ContentEvent` | internal/translate/claude_responses_stream.go:83-168 | The event switch updates the block map as specified. |
| `ClaudeStream.ResponsesClaudeStream.DeltaEvent` | internal/translate/claude_responses_stream.go:114-131 | Reasoning and argument deltas open their block if needed and extend it, in place. |
| `ClaudeStream.ResponsesClaudeStream.TextEvent` | internal/translate/claude_responses_stream.go:98-113 | Text opens its block if needed and extends it, in place. |
| `ClaudeStream.ResponsesClaudeStream.EdgeEvent` | internal/translate/claude_responses_stream.go:84-107 | Events that begin or end items and parts. |
| `ClaudeStream.ResponsesClaudeStream.DoneEvent` | internal/translate/claude_responses_stream.go:134-168 | A done item is opened if new, completed from what was not streamed, and closed. |
| `ClaudeStream.ResponsesClaudeStream.CloseEvery` | internal/translate/claude_responses_stream.go:294-301 | The loop over the map closes every block once, in the order it reports, and finds out whether a tool was used. |
| `ClaudeStream.ResponsesClaudeStream.FinishMessage` | internal/translate/claude_responses_stream.go:290-314 | Finishing emits the stops and the last two events, once. |
| `ClaudeStream.ResponsesClaudeStream.BlockFor` | internal/translate/claude_responses_stream.go:204-215 | The record of a key, existing or new under the next index; no other record changes. |
| `ClaudeStream.ResponsesClaudeStream.OpenBlock` | internal/translate/claude_responses_stream.go:217-263 | A block is opened once, in place. |
| `ClaudeStream.ResponsesClaudeStream.DeltaTo` | internal/translate/claude_responses_stream.go:265-276 | A delta is recorded in the block and emitted. |
| `ClaudeStream.ResponsesClaudeStream.CloseBlock` | internal/translate/claude_responses_stream.go:278-288 | A block is closed if it is open, and no other block changes. |
| `ClaudeStream.ResponsesClaudeStream.Begin` | internal/translate/claude_responses_stream.go:180-202 | The message starts once, with its identifier, model and input tokens. |
| `ChatStreamProtocol.StreamProtocol` | internal/translate/openai_responses_stream.go:80-210 | For every event sequence up to the first error: the role chunk first and once, one header on all chunks, each call announced once and before its arguments, one finish chunk that says tool_calls only after a call and stop only without one. |
| `ChatStreamProtocol.FinishReason` | internal/translate/openai_responses.go:229-240 | After any unfinished run, a terminal event that is no failure ends it with one finish chunk, whose reason is its response's incomplete reason or, without one, tool_calls if and only if some tool was announced, and whose usage is the response's, count by count: the total is its own or the sum, details are there exactly when the response has them. |
| `ChatStreamProtocol.RunProtocol` | internal/translate/openai_responses_stream.go:80-210 | The invariant behind it: distinct items have distinct indices, announced and argued calls are those the client saw. |
| `ChatStreamProtocol.DoneArguments` | internal/translate/openai_responses_stream.go:138-150 | After any prefix, a done tool item supplies its arguments if and only if it has some and no delta supplied any. |
| `ChatStreamProtocol.DoneReasoning` | internal/translate/openai_responses_stream.go:130-137 | After any prefix, a done reasoning item brings its text if and only if it has some and no arguments came under its key. |
| `ChatStreamProtocol.SpeaksExactly` | internal/translate/openai_responses_stream.go:74-160 | In every state an event that does not fail says something if and only if it begins the stream, ends it, announces a call that can be named, or brings text or arguments that are not empty and had not come. |
| `StreamContents.CompletionBegins` | internal/translate/openai_responses_stream.go:162-171 | A chat stream says nothing before the first response event, and every chunk bears that event's identifier, model and time, or their defaults, field by field. |
| `StreamContents.CallNames` | internal/translate/openai_responses_stream.go:84-150 | In every state, an event of a tool announces its call unless that was done before or an announcement leaves it nameless; under which identifier and name is said for announcements, deltas and done items. |
| `StreamErrors.ChatRunFails` | internal/translate/openai_responses_stream.go:41-160 | The run fails if and only if some frame is fatal, at the same frame and with the same error as the Claude translator. |
| `ChatStreamSquare.StreamSquare` | internal/translate/openai_responses_stream.go:27-210 | For every response and splitting: content, refusal, tool calls, finish reason and usage equal the whole translation's; reasoning is each item's deltas then its text, and agrees if and only if no reasoning delta was sent. |
| `ChatStreamSquare.StreamHeader` | internal/translate/openai_responses_stream.go:162-171 | The stream's header is the whole translation's when the opening and the final response agree on it. |
| `ChatStreamSquare.SharesAgree` | internal/translate/openai_responses_stream.go:112-137 | Streamed shares against whole ones: equal but for repeated reasoning. |
| `ChatStreamSquare.RunsAsAnnounced` | internal/translate/openai_responses_stream.go:119-150 | An item nobody announced runs as if it had been announced with what is first known of it. |
| `ChatMessage.ResponseToChat` | internal/translate/openai_responses.go:54-126 | The loops of the non-streaming translation compute its specification; usage and finish reason are stated against the response field by field, and the content is null exactly when there are calls and no text. |
| `WholeContents.WholeCompletionSays` | internal/translate/openai_responses.go:54-126 | The translation fails if and only if the response failed or was cancelled; otherwise content, refusal, reasoning and calls are the sum of what the items add, in order, under the response's header. |
| `ChatMessage.WriteParts` | internal/translate/openai_responses.go:69-82 | The text and refusal a message item adds. |
| `ChatStream.ResponsesChatStream.Translate` | internal/translate/openai_responses_stream.go:27-160 | One frame changes the fields and emits exactly as the step function says. |
| `ChatStream.ResponsesChatStream.ContentEvent` | internal/translate/openai_responses_stream.go:80-150 | The event switch updates the item map as specified. |
| `ChatStream.ResponsesChatStream.ItemFor` | internal/translate/openai_responses_stream.go:173-184 | The record of an item, existing or new under the next tool index. |
| `ChatStream.ResponsesChatStream.AnnounceTool` | internal/translate/openai_responses_stream.go:186-201 | A tool is announced once, in place. |
| `ChatStream.ResponsesChatStream.ToolDoneEvent` | internal/translate/openai_responses_stream.go:138-150 | A done tool is named, announced and given its arguments if none came. |
| `ChatStream.ResponsesChatStream.FinishMessage` | internal/translate/openai_responses_stream.go:203-210 | One finish chunk with reason and usage. |
| `ClaudeToChatSquare.StreamSquare` | internal/translate/claude_openai_stream.go:64-173 | For every Claude message and splitting: content, reasoning, tool calls with arguments as JSON objects, finish reason, usage and header of the stream equal the whole translation's, with one role chunk. |
| `ClaudeToChatSquare.StreamCloses` | internal/translate/claude_openai_stream.go:125-135 | message_delta finishes and message_stop adds no second finish chunk. |
| `ClaudeToChatSquare.StreamHeard` | internal/translate/claude_openai_stream.go:64-173 | What a client hears from a whole stream. |
| `ClaudeToChatSquare.MessageToChat` | internal/translate/openai_responses.go:128-192 | The loop of the non-streaming translation computes its specification; finish reason and usage are stated against the message field by field, and the content is null exactly when there are calls and no text. |
| `WholeContents.ClaudeCompletionSays` | internal/translate/openai_responses.go:128-192 | A whole Claude message as a completion: content, reasoning and calls are the sum of what its blocks add, in order, calls under `id` or else `tool_use_id`; under the message's header. |
| `StreamErrors.ClaudeToChatRunFails` | internal/translate/claude_openai_stream.go:40-62 | A run fails if and only if some frame is unreadable or an error event, with the trimmed words of the first one, or the default, and the output of the frames before it. |
| `ClaudeChatProtocol.StreamProtocol` | internal/translate/claude_openai_stream.go:64-173 | For every Claude event sequence up to the first error: role first and once, no empty text, one finish chunk, and not `stop` after a call. |
| `ClaudeChatProtocol.FinishReason` | internal/translate/claude_openai_stream.go:125-173 | After any unfinished run, message_delta or message_stop ends it with one finish chunk: reason from the event or whether there was a call, input tokens of the last message_start, output tokens of the event. |
| `ClaudeChatProtocol.RunKnows` | internal/translate/claude_openai_stream.go:64-135 | What the translator knows after a run, from the frames alone: whether the message ended, and its input tokens. |
| `ClaudeChatProtocol.StepBears` | internal/translate/claude_openai_stream.go:66-75 | Every chunk bears the header of the last message_start, whose blank fields keep what was known. |
| `ClaudeChatProtocol.ToolBlockCalls` | internal/translate/claude_openai_stream.go:89-100 | In every state a tool block announces one call: under its block's tool index or the next one, its `id` or else `tool_use_id`, and its trimmed name. |
| `ClaudeChatProtocol.SpeaksExactly` | internal/translate/claude_openai_stream.go:53-136 | In every state an event says something if and only if it begins the stream, ends it, opens a tool block or brings a text that is not empty; pings, block ends, signatures and redacted data say nothing. |
| `ClaudeChatProtocol.RunNumbers` | internal/translate/claude_openai_stream.go:146-160 | In every run tool blocks have distinct indices, and a made-up key is never used twice. |
| `ClaudeChatProtocol.UnindexedArgumentsAreLost` | internal/translate/claude_openai_stream.go:146-160 | After any run, arguments without a block index go under a new tool index, to none of the calls made before. |
| `ClaudeChatStream.ClaudeChatTranslator.Translate` | internal/translate/claude_openai_stream.go:27-136 | One event changes the fields and emits exactly as the step function says, or fails the same way. |
| `ClaudeChatStream.ClaudeChatTranslator.BlockFor` | internal/translate/claude_openai_stream.go:146-160 | The block of an index or a made-up key; a tool block takes the next tool index. |
| `ClaudeChatStream.ClaudeChatTranslator.FinishWith` | internal/translate/claude_openai_stream.go:162-173 | The finish chunk is emitted once. |
| `Triangle.TriangleCommutes` | internal/translate/claude_openai_stream.go:27-173 | For every conforming event sequence, items interleaved in any way, nameless tools included if they are called as announced before anything else is said: both routes fail at the same frame with the same error or not at all, and say chunk by chunk the same role, text, calls with indices and arguments, and finish reason. |
| `Triangle.TriangleAssembles` | internal/translate/openai_responses_stream.go:27-210 | The messages two clients assemble are the same but for reasoning and usage. |
| `Triangle.ContentInStep` | internal/translate/claude_responses_stream.go:83-168 | One event keeps the three translators in simulation. |
| `Triangle.FinishInStep` | internal/translate/openai_responses.go:229-255 | The stop and finish mappings compose to the direct finish reason, whatever the closing order. |
| `Triangle.RefusalsPart` | internal/translate/openai_responses_stream.go:108-111 | A refusal delta is told alike by both routes if and only if it is empty. |
| `Triangle.NamelessToolsPart` | internal/translate/openai_responses_stream.go:84-90 | A new tool is told alike by both routes if and only if its name is not blank. |
| `TriangleCanonical.CanonicalTriangle` | internal/translate/claude_responses_stream.go:29-314 | On every canonical stream both routes fail together and say equally many things; they say the same if and only if there is no refusal text and no tool announced without a name gets a name, or its first identifier, from its deltas. |
| `TriangleCanonical.CanonicalAssembles` | internal/translate/openai_responses_stream.go:27-210 | Then two clients assemble the same message but for reasoning and usage. |
| `TriangleCanonical.NamedLateDiffers` | internal/translate/openai_responses_stream.go:84-90 | Two whole streams with a nameless tool: done at once, told alike; named by a delta, not. |
| `Triangle.CalledLater` | internal/translate/openai_responses_stream.go:120-150 | A tool the direct route has not announced is called by its first delta or its done event, under the name known by then; all else is as if it had been announced before. |
| `SseDecoder.FrameEndIsFirst` | internal/sse/decoder.go:37-51 | Comparing where separators begin finds the one that ends first, or there is none. |
| `SseDecoder.SplitSound` | internal/sse/decoder.go:9-25 | Frames and rest concatenate to the input; each frame has its own final separator only; the rest has none. |
| `SseDecoder.SplitComplete` | internal/sse/decoder.go:9-25 | That determines the decoding. |
| `SseDecoder.SplitAppend` | internal/sse/decoder.go:9-25 | Decoding a then b from what was left is decoding a+b, even when a separator is cut. |
| `SseDecoder.ChunkingIrrelevant` | internal/sse/decoder.go:9-25 | Any list of chunks decodes as their concatenation. |
| `SseDecoder.Decoder.Feed` | internal/sse/decoder.go:9-25 | The loop returns the frames and keeps the rest of buffer plus chunk. |
| `SseDecoder.Decoder.Flush` | internal/sse/decoder.go:27-35 | The buffer is returned unless blank, and emptied. |
| `SseFrame.ParseFrame` | internal/translate/claude_responses_stream.go:316-338 | The loop over lines yields the last event name and the joined data lines, `[DONE]`, or an error. |
| `SseFrame.WireRoundTrip` | internal/translate/claude_responses_stream.go:316-343 | Printed events, cut into chunks anywhere, decode and read back as the original names and payloads (sections 9.2.5 and 9.2.6 of the WHATWG HTML Standard, LF case). |
| `SseFrame.ReadShown` | internal/translate/claude_responses_stream.go:340-343 | Reading a printed event gives its name and payload. |
| `SseFrame.ShownPlainly` | internal/translate/claude_responses_stream.go:340-343 | A printed event is exactly one frame. |
| `SseFrame.CrlfReadsAlike` | internal/translate/claude_responses_stream.go:317-318 | A frame with CRLF line ends reads as with LF line ends. |
| `SseFrame.FrameReads` | internal/translate/claude_responses_stream.go:316-338 | How every frame reads, line by line, with LF or CRLF line ends: the trimmed name of the last event line; no data line, `[DONE]`, or all data lines trimmed and joined, valid or not. |
| `Pump.PumpStream` | internal/provider/executor.go:187-242 | The upstream and the output are closed exactly once, after the outputs and with the ending of the specification. |
| `Pump.Drain` | internal/provider/executor.go:214-241 | The read loop emits and ends as specified for every upstream and every refusing host. |
| `Pump.EmitFrame` | internal/provider/executor.go:200-212 | One frame is translated and its non-empty outputs emitted until one is refused. |
| `Pump.PumpIgnoresChunking` | internal/provider/executor.go:187-242 | Two upstreams that hand out the same bytes and stop alike give the same translator states, outputs and ending, whether they finish, fail, report an error or run dry, and whatever the host refuses. |
| `Pump.PumpEnds` | internal/provider/executor.go:187-242 | For every upstream and every host: the outputs are the translator's non-empty ones over the frames of the bytes read, up to the first refused; and the ending tells exactly which of a refusal, a translation error, a failed read, a reported error and the end of the stream came first. |
| `PumpToClaude.PumpRunsTranslator` | internal/provider/executor.go:187-242 | From bytes to outputs, for every upstream and every host: the pump emits what one run of the Responses-to-Claude translator says, or what comes before the refused output; if nothing is refused it ends as the upstream stops if and only if that run has no error, and else with that error. |
| `PumpToClaude.CleanCloseFinished` | internal/provider/executor.go:233-240 | Of the streams that close cleanly, exactly those with a terminal event have a finished message, for every upstream and host. |
| `PumpToClaude.SilenceClosesCleanly` | internal/provider/executor.go:233-240 | An upstream that says nothing closes cleanly without a message. |
| `TokenProtocol.SingleFlight` | internal/provider/token.go:45-79 | In every interleaving at most one exchange per key runs, a flight is in the map exactly while a request leads it, and its channel closes exactly once, with its result. |
| `TokenProtocol.AnswersRight` | internal/provider/token.go:45-79 | A cache hit matches the caller's fingerprint and outlives the buffer; a follower that did not give up returns the exchange's recorded answer, which is the leader's; the follower's fingerprint matches if and only if the leader's does. |
| `TokenProtocol.RetryGetsNewerToken` | internal/provider/executor.go:120-133 | A request with an auth ID never gets a token again that drew a 401, nor an older one: every retry is answered from an exchange begun later. |
| `TokenProtocol.RetryIsFreshIffAuthId` | internal/provider/token.go:159-171 | In all interleavings no request with an auth ID is answered with a token it saw rejected, if and only if that auth ID is not blank. |
| `TokenProtocol.BlankAuthIdRetriesSameToken` | internal/provider/token.go:159-164 | With any blank auth ID the retry can be answered with the rejected token. |
| `TokenProtocol.FollowerGetsForeignToken` | internal/provider/token.go:54-61 | Whenever two requests have the same key, the follower can get the token made for the leader's GitHub token. |
| `TokenIsolation.AnswerIsShared` | internal/provider/token.go:38-80 | In every interleaving, a token that answers a request was made for a request with the same auth ID or, without one, the same GitHub token, or with an auth ID spelled like the other's fingerprint. |
| `TokenIsolation.BlankAuthIdIsolated` | internal/provider/token.go:38-80 | Without an auth ID, and with none spelled like its fingerprint around, a request gets its own GitHub token's answers and follows its own GitHub token's exchanges only. |
| `TokenIsolation.ForeignTokenIffShared` | internal/provider/token.go:38-80 | Of two identities with different GitHub tokens, one can be answered with the other's token in some run if and only if they share a key. |
| `TokenIsolation.ForgottenForGood` | internal/provider/token.go:159-171 | After a logout, for the requests of its auth ID, and after a shutdown, for all: a request that arrives later gets no token of an exchange that had ended by then. |
| `TokenReuse.CacheHolds` | internal/provider/token.go:69-79 | After every interleaving the cache holds, for every key, exactly the token that the latest successful exchange for it brought, unless a logout, a retry after a 401 or a shutdown forgot it since. |
| `TokenReuse.LockDecides` | internal/provider/token.go:47-66 | After every interleaving, a request is answered with that token if it is for its own GitHub token and outlives the buffer; else it follows the exchange that runs for its key; and only if none does it begins one. |
| `TokenReuse.FinishDecides` | internal/provider/token.go:68-79 | How an exchange ends: its leader gets the token under its own fingerprint, or the error; that is recorded, the channel is closed for the first time, and none runs for the key. |
| `TokenProtocol.StepKeeps` | internal/provider/token.go:38-80 | Every atomic step keeps the invariant. |
| `TokenProtocol.PublishKeeps` | internal/provider/token.go:69-79 | Publishing keeps the invariant: the running exchange is newer than every token issued for its key. |
| `TokenProtocol.RetryKeeps` | internal/provider/executor.go:151-165 | Invalidate and retry keep it. |
| `TokenCache.SharedCache.EnterRegion` | internal/provider/token.go:47-66 | The first lock region, on the shared maps and flight objects. |
| `TokenCache.SharedCache.PublishRegion` | internal/provider/token.go:70-78 | The second lock region: result, cache entry, map and channel. |
| `TokenCache.SharedCache.InvalidateRegion` | internal/provider/token.go:159-165 | Forgets the token of a non-blank auth ID. |
| `TokenCache.SharedCache.ClearRegion` | internal/provider/service.go:66-68 | Shutdown forgets tokens and leaves running exchanges alone. |
| `DevicePolling.PollingProtocol` | internal/provider/oauth.go:182-291 | For every run with concurrent callers: one outstanding request at most, no reading at or after expiry, no request before its reading, the interval that the replies set passes between requests, none after a reply that ends the login, one success at most (section 3.5 of RFC 8628). |
| `DevicePolling.PollingBounds` | internal/provider/oauth.go:133-154 | With a moderate device interval, a login of L seconds makes at most ceil(L/5) requests; s slow_down answers satisfy 5(s-1)(s+2) < 2L; at most 360 and 26. |
| `DevicePolling.SteadyIffModerate` | internal/provider/oauth.go:136-154 | All intervals in force are at least five seconds in all runs if and only if the device's interval is moderate: no 64-bit overflow, with room for one slow_down. |
| `DevicePolling.RequestBoundIffModerate` | internal/provider/oauth.go:133-154 | Every login of L seconds makes at most ceil(L/5) requests, whatever L, if and only if the device's interval is moderate. |
| `DevicePolling.SlowDownBoundIffModerate` | internal/provider/oauth.go:308-313 | The same for 5(s-1)(s+2) < 2L and s slow_down answers. |
| `DevicePolling.ExactRequestBound` | internal/provider/oauth.go:182-205 | n bounds the requests of every run of a login if and only if its stored interval is positive, leaves room for a slow_down, and n intervals cover the lifetime. |
| `DevicePolling.ModerateIsSteady` | internal/provider/oauth.go:308-313 | For a moderate interval the interval never shrinks, and a slow_down adds five seconds. |
| `DevicePolling.OverflowUnbounded` | internal/provider/oauth.go:308-313 | Once overflow makes an interval zero or negative, at the start or by one slow_down, there are runs with any number of requests within a second. |
| `DevicePolling.OrdinaryIntervalsAreModerate` | internal/provider/oauth.go:139-141 | Every interval up to 9223372031 seconds is moderate. |
| `DevicePolling.RunKeeps` | internal/provider/oauth.go:182-291 | Every run keeps the invariant that ties the session in the map to the last request and each caller to its own. |
| `DeviceLogin.OutcomeOf` | internal/provider/oauth.go:241-275 | Success if and only if a token came with a 2xx status and the user is known; an error of its own for an unreadable reply or an unknown user; the login ends exactly on such a token, one of six fatal words, or any other word but the pending ones with a 4xx status; only slow_down changes the interval. |
| `DeviceOutcomes.EnterDecides` | internal/provider/oauth.go:185-205 | Entering: who may ask, who waits and who is told that there is no such login, with the new session, requests and callers. |
| `DeviceOutcomes.AnswerDecides` | internal/provider/oauth.go:206-291 | A reply ends the session exactly if it ends the login, sets the interval and the next poll, and the caller is told what it says. |
| `DeviceOutcomes.RunBooks` | internal/provider/oauth.go:182-291 | In every run each caller has one request at most, and has been told what the reply to it says. |
| `DeviceOutcomes.CallersAreTold` | internal/provider/oauth.go:206-275 | In every run a caller is told of success if and only if its own request ended with a token on a 2xx status and the user known; and likewise for failing, waiting and login errors. |
| `DeviceLogin.LifetimeBounds` | internal/provider/oauth.go:133-138 | A login lives between one second and the configured timeout: as long as the device said, or the timeout if the device said nothing or more. |
| `DeviceLogin.FirstInterval` | internal/provider/oauth.go:139-154 | A new session may be polled at once, and its interval is the longer of five seconds and the device's, if that fits into 64 bits. |
| `DeviceLogin.LoginSessions.Add` | internal/provider/oauth.go:146-157 | A new session under a fresh name; other sessions are untouched. |
| `DeviceLogin.LoginSessions.BeginPoll` | internal/provider/oauth.go:185-205 | The first lock region: unknown, expired, waiting, or poll; other sessions are untouched. |
| `DeviceLogin.LoginSessions.FinishPoll` | internal/provider/oauth.go:277-291 | The second lock region; other sessions are untouched. |
| `ClaudeRequest.RequestFlattens` | internal/translate/claude_responses.go:81-171 | Taken apart, the input items are the translated recognised parts of user and assistant messages in order, each once, and no group is empty. |
| `ClaudeRequest.MessageFlattens` | internal/translate/claude_responses.go:91-171 | The same for one message: its groups are its own and of its role. |
| `ClaudeRequest.RequestInput` | internal/translate/claude_responses.go:81-172 | The accumulate-and-flush loops compute the specification; the first bad part stops them. |
| `ClaudeRequest.TakePart` | internal/translate/claude_responses.go:104-168 | One part extends the unfinished group, or ends it and adds an item. |
| `ClaudeRequest.MessageInputs` | internal/translate/claude_responses.go:91-170 | The parts loop of one message, with the last flush. |
| `ClaudeRequest.ToolResultOutput` | internal/translate/claude_responses.go:351-372 | A tool result's text, parts, or the error of an image. |
| `ClaudeTurn.GroupsMaximal` | internal/translate/claude_responses.go:136-144 | Two groups of one message are adjacent if and only if two pieces have only blank redacted parts between them. |
| `ClaudeTurn.AssistantTurnRoundTrip` | internal/translate/claude_responses.go:184-234 | An assistant turn translated to Responses items and back is itself if and only if every block is stable. |
| `ClaudeTurn.BlockReturns` | internal/translate/claude_responses.go:104-168 | What each single block comes back as. |
| `ClaudeTurn.FlattenBlocks` | internal/translate/claude_responses.go:192-202 | Merging texts into one message item makes no difference to the way back. |
| `ClaudeTurn.CallKnownBy` | internal/translate/claude_responses.go:151-156 | A tool call is known by its `id` or, when that is blank, by its `tool_use_id`. |
| `ClaudeParts.TurnRoundTrip` | internal/translate/claude_responses.go:104-170 | The texts, images, documents and tool results of a message, read back from its input items, are what they were if and only if every one is stable. |
| `ClaudeParts.PartSurvives` | internal/translate/claude_responses.go:107-168 | Each such part contributes one piece or item, which reads back as the part if and only if it is stable. |
| `ClaudeParts.DataUrlReads` | internal/translate/claude_responses.go:315-320 | A printed data URL reads as its media type and data if and only if the media type does not contain the mark. |
| `ClaudeParts.DefaultMediaType` | internal/translate/claude_responses.go:316-316 | A source with a blank media type reads back with application/octet-stream. |
| `ClaudeParts.RequestRefused` | internal/translate/claude_responses.go:81-172 | A request is refused exactly for the first bad source of a user's or an assistant's message, in an image, a document or an image of a tool result: missing, or of a kind that is not known there. |
| `ClaudeParts.OtherRolesIgnored` | internal/translate/claude_responses.go:83-90 | A request translates, or is refused, as if messages of other roles were not there. |
| `ClaudeParts.PlainTurn` | internal/translate/claude_responses.go:294-306 | A message that is a plain text is read back as that text, trimmed. |
| `Models.NormalizeModels` | internal/provider/models.go:220-247 | The result is the catalogue: strictly increasing by lower-cased ID, exactly the cleaned first model of each non-blank ID. |
| `Models.FilterModels` | internal/provider/models.go:249-268 | Keeps, in order, the models without an excluded prefix. |
| `Models.CatalogueUnique` | internal/provider/models.go:220-247 | There is only one catalogue of a list. |
| `Models.CatalogueStored` | internal/provider/models.go:140-140 | What is stored is increasing, holds the first model of each ID that is not excluded and nothing else, and is a fixed point of both functions. |
| `Models.CatalogueReads` | internal/provider/models.go:220-247 | Field by field: strictly increasing lower-cased IDs; every entry is what becomes of the first model with its ID; every model with an ID has an entry. |
| `Models.CleanTells` | internal/provider/models.go:232-241 | A cleaned model has trimmed fields and exactly the paths it offers, each once, in order of first mention, and the Responses path if it is special. |
| `Models.LessIs` | internal/provider/models.go:243-245 | The order: one ID is a prefix of the other, or they differ first in a smaller character. |
| `Models.NormalizeEndpoints` | internal/provider/models.go:270-291 | Each recognised endpoint once, in order of first mention. |
| `Models.SelectEndpoint` | internal/provider/models.go:186-202 | The loops choose what the specification chooses. |
| `Models.ChoiceIs` | internal/provider/models.go:186-218 | Two special models answer on the Responses endpoint; else a Chat Completions client gets Chat Completions before Responses and everyone else Responses before it, the Messages endpoint comes last, and nothing is chosen if and only if nothing is offered, by the three spellings of each path. |
| `Models.RecognisedIs` | internal/provider/models.go:274-284 | A path is recognised if and only if one of its three spellings, up to letter case and white space, is in the list. |
| `Models.ChoiceExists` | internal/provider/models.go:190-201 | There is a choice unless nothing is recognised. |
| `Text.TrimShape` | internal/translate/claude_responses.go:448-451 | Trimming only shortens, is idempotent, and changes exactly the untrimmed strings. |
| `Text.TrimCuts` | internal/translate/claude_responses.go:448-451 | Trimming cuts white space off both ends and nothing else. |
| `Text.FirstOfTrimmed` | internal/translate/claude_responses.go:476-483 | Whatever a fallback picks is trimmed already. |

## Left out

- JSON encoding and decoding: an abstract codec for which parsing undoes printing, printed objects are non-empty and, in the round trip of a turn, trimmed. Payloads are the fields the translators read; the bytes a translator prints are not composed with the next one's decoding.
- Numbers: token counts are integers; a float's digits and 64-bit sums of counts are not modelled.
- Keys: an item index and an item identifier spelled like that index share a key in the program and not here.
- Unicode: `strings.ToLower` is an arbitrary function, invalid UTF-8 does not occur, white space is the Unicode White_Space set.
- Text beside the facts: error messages are values with the upstream text, redaction is left out.
- The plugin ABI, host callbacks, request headers, the official translator registry and its two-hop routes, token counting, credential storage and configuration parsing other than the timeout range.
- `openAIRequestToResponses`, passthrough frames, and the fields of a Claude request other than its messages: field copying.
- `tokenExpiry`, `copilotAPIBase` and the exchange request: an exchange may bring any token with any expiry.
- `doModelRequest` and `openModelStream` retry once; `TokenProtocol` allows any number of rejected answers and retries, so its results cover them. A leader whose context is cancelled publishes an error.
- `endpointForModel`, the model cache and its freshness under a concurrent `Configure`: no claim.
- `collectStreamError`: a read loop that only concatenates.
- Mixed line endings (LF followed by CRLF): the decoder does not treat them as a frame boundary and nothing is claimed of them beyond `SseDecoder.SplitSound`.
- The host of `Pump` answers a finite list of reads; after the last one a read fails. Waiting is not modelled.
- Clocks: `DevicePolling` lets time pass only forward and between steps; a session's name is not used twice. The user lookup after a successful answer is part of the step that finishes the poll.
- Sorting: `sort.SliceStable` is an insertion sort, which the catalogue's contract does not show since keys differ.
- `Triangle.TriangleCommutes`: for interleaved items its condition is sufficient, the exact one is that of `TriangleCanonical.CanonicalTriangle` for items in sequence; compares neither reasoning, which the direct route repeats, nor usage and header, which the Claude format does not carry in full.
- `ClaudeStreamSquare.StreamSquare`: for streams that carry their response, one item after the other: deltas spell a reasoning text or a tool's arguments completely or not at all, and an item is announced, or first named by its deltas, as it ends.
- `ChatStreamSquare.StreamSquare`: for the same streams, with a part's text in the field its kind names, and deltas that bring no identifier or name the item lacks.
- `SseFrame.WireRoundTrip`: for one-line, trimmed names and payloads, which is what the program prints.
