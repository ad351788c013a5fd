# Verified model of the proxy's stream handling and the agent's executor

The repository puts a logging proxy and an agent in front of a vLLM server. This project models the
six components of it that keep state while a response or a conversation passes through, and proves
that the incremental code does what a simple description of the whole input says.

1. **The `<obs>` stripper** (`SseFraming`, `ObsStrip`, `ObsScan`, `ObsStreaming`, `ObsEvents`, `ObsWhole`,
   `ObsCapture`, `ObsWire`, `ObsClient`, `ObsReading`, `ObsBytes`, `ObsBlocks`). The proxy cuts an observation out of a response
   while it streams. The class `ObsCapture` has the fields and methods of `obsCapture`; its state is proved
   to be a function of the bytes written, so it cannot depend on how they were cut into writes.
   `ObsStreaming` and `ObsEvents` say what events it writes and in which order; `ObsReading` says what a
   client finds in the bytes of these writes when it frames and decodes them: exactly when it reads the
   text up to the first tag, in which order it reads events, and exactly when the non-streaming path gives
   the same reply and observation. `ObsBytes` says which bytes are sent when no tag is found. `ObsBlocks` says which events are scanned, from the decoded events alone,
   and that a stream of content blocks reads as the body with these blocks.
2. **The Gemma4 reasoning parser** (`GemmaParser`, `GemmaAgreement`): the streaming parser with its
   prefix buffer, and exactly when it agrees with the non-streaming parser.
3. **The response loggers** (`Sorting`, `SseLog`, `StreamLogger`, `SseReassembly`, `AnthropicReassembly`):
   the byte-at-a-time logger, the batch parsers and the unstreamed parsers give the same log, with the
   exact conditions where they do not.
4. **The agent graph executor** (`AgentTypes`, `GraphRun`, `GraphSteps`, `GraphReach`, `GraphConfluence`, `GraphScatter`,
   `GraphSafety`, `GraphOrder`, `AgentExecutor`). `GraphRun` is a protocol of steps in which the branches
   of scatter nodes, nested to any depth, interleave freely, and in which a failed branch cancels its
   siblings. `AgentExecutor` holds the code of `Run`, `runChain`, `runScatter` and the operations they
   call; what `RunGraph` computes is proved to be the end of some interleaving and of every complete one.
5. **History conversion** (`AnthropicHistory`, `HistoryTexts`, `HistoryRoundTrip`, `HistoryPairing`): Anthropic messages to
   chat messages and back.
6. **The deduplicating session log** (`CompactStore`, `CompactLog`): a content-addressed store that must
   behave as one list per session while requests interleave their database calls, from any database that
   earlier runs have left behind.

Bytes are characters, one per byte. Decoded JSON, the model, the tools, the upstream server, the hash and
the compression are parameters, so every theorem holds for all of them.

What the model shows about the code, beside the properties that hold. The points name the theorem with the
exact condition and a lemma with inputs that fail.

- A tag in three or more deltas is missed: it is found if and only if the first one lies within two
  consecutive deltas (`ObsStreaming.StripsFirstObservation`, `ObsStreaming.TagInThreeDeltasLeaks`).
- `Finalize` writes the bytes of an unfinished event straight before a held event, so a stream that is cut
  off inside an event can lose text that has no tag at all (`ObsReading.ClientReadsTextBeforeTag`,
  `ObsReading.LeftoverGarblesText`). Streams that end with a whole event are safe
  (`ObsReading.WholeStreamIsIntact`).
- Events without text overtake a held text event. A text event that is held when `[DONE]` arrives is written
  behind it, where a reader that stops at `[DONE]` does not see it (`ObsReading.DoneOvertakesHeldText`,
  `ObsReading.HeldTextIsBehindDone`).
- For Anthropic bodies the unstreamed path looks at one text block at a time, so it agrees with the
  streaming path only if the first tag lies in one block and blanks alone follow that block
  (`ObsReading.AnthropicResponsesAgree`, `ObsWhole.LaterBlocksAreKept`).
- Reasoning that is only a piece of `thought\n` stays in the buffer and is never sent
  (`GemmaAgreement.ParsersAgree`, which also covers empty reasoning, and `GemmaAgreement.PieceOfLabelIsLost`).
  `CutOffParsersAgree` and `PlainParsersAgree` give the condition for responses that are cut off before the end
  token and for those without the channel.
- If the end token's id comes without its text, the base parser loses one character of reasoning and sends text
  twice (`GemmaAgreement.EndTokenWithoutText`).
- The incremental OpenAI logger reads on after `[DONE]` and the batch parser stops
  (`SseReassembly.OpenAILoggersAgree`, `SseReassembly.TextAfterDone`).
- An Anthropic tool call without input is logged as `{}` by the unstreamed parser and as an empty string
  by the stream parsers (`AnthropicReassembly.AnthropicStreamMatchesBody`,
  `AnthropicReassembly.CallWithoutFragments`).
- Conversion to Anthropic form drops messages of other roles, so a call that such a message separates from its
  result becomes well-paired (`HistoryPairing.PairingIsThatOfClosed`, `HistoryPairing.DroppedMessageClosesGap`).
- The comment on `DeepCopy` (agent/internal/agent/history.go:95-96) promises an independent copy, but the
  backend URL is not copied. A branch factory that hands out a copy without setting it, as the scatter
  example in agent/DESIGN.md does, makes the scatter node fail, unless that branch starts with a scatter node
  and a transform or merge of its graph sets the URL (`GraphScatter.CopyNeedsBackend`); such a branch can end
  well (`GraphScatter.LateURLIsInTime`).

`dafny verify dfyconfig.toml` checks the project.

## Model

| member | source | states |
|---|---|---|
| SseFraming.FrameIsTheFraming | proxy/internal/proxy/obs.go:97-111 | Cutting a stream after each first blank line is the only way to write it as complete events followed by a rest without a blank line. |
| SseFraming.FramingIgnoresChunks | proxy/internal/proxy/obs.go:86-111 | However the bytes are cut into writes, draining after each write gives the same events and the same rest as framing the whole stream. |
| SseFraming.FindDataPayload | proxy/internal/proxy/obs.go:113-125 | The line loop finds the first `data: ` line of an event, and none exactly if there is none. |
| ObsScan.LookingBackIsNeedless | proxy/internal/proxy/obs.go:191-200 | If the previous delta has no tag and no suspicious tail, joining it with the next one reveals no tag that the next one alone does not show. |
| ObsScan.SuspiciousIsBeginning | proxy/internal/proxy/obs.go:191-200 | A text has a suspicious tail exactly if some continuation completes a tag that begins in it, or a tag ends it. |
| ObsScan.WrittenTextBeforeTag | proxy/internal/proxy/obs.go:221-245 | Whether or not an event is held and wherever the tag starts, what is sent at the tag carries exactly the text before it. |
| ObsScan.RunTracks | proxy/internal/proxy/obs.go:204-278 | After any items the scanner is where a scanner that always joined two whole deltas would be: same hit, text sent up to it, observation cut at the first close tag. |
| ObsStreaming.SearchingIsExact | proxy/internal/proxy/obs.go:191-278 | In every run searching ends at exactly the first delta that shows the tag together with the one before it; an event is held exactly while searching after a suspicious tail, and it holds no whole tag. |
| ObsStreaming.HitIsFirstTag | proxy/internal/proxy/obs.go:204-245 | The position the scanner finds is the first tag of the whole text if and only if there is none or it lies within two consecutive deltas. |
| ObsStreaming.WritesUpToHit | proxy/internal/proxy/obs.go:204-278 | In every run the events written carry the text up to the tag that was found and nothing after it, and the observation is what follows. |
| ObsStreaming.StripsFirstObservation | proxy/internal/proxy/obs.go:204-278 | The events written carry exactly the text before the first tag if and only if there is no tag or it lies within two consecutive deltas; then the observation is the trimmed text up to the first close tag, however body and close tag are fragmented. |
| ObsStreaming.TagInThreeDeltasLeaks | proxy/internal/proxy/obs.go:191-200 | Every cut of the tag itself into three deltas is written out whole, with an empty observation. |
| ObsEvents.EventsAreConserved | proxy/internal/proxy/obs.go:113-189 | In every run events without scanned text are written verbatim and in order; while searching, sent and held text events together are exactly those received, in order. |
| ObsEvents.WritesInOrder | proxy/internal/proxy/obs.go:113-189 | As long as no tag is found, the written events and then the held one are the received ones in an order in which each event without text overtakes the pending text event and nothing else changes places. |
| ObsEvents.NothingIsLostWithoutTag | proxy/internal/proxy/obs.go:446-461 | After `Finalize` of a response in which no tag was found every event has been written, text events in order too. |
| ObsEvents.ThinkingBlockHasNoText | proxy/internal/proxy/obs.go:170-189 | A whole thinking block contributes no scanned text, whatever events are in it. |
| ObsEvents.ThinkingBlocksAreInvisible | proxy/internal/proxy/obs.go:170-189 | Inserting a whole thinking block anywhere outside one changes neither the text written nor the observation. |
| ObsEvents.OpenAIDeltasAreNotEmpty | proxy/internal/proxy/obs.go:146-163 | Empty OpenAI deltas never reach the text scanner. |
| ObsWhole.OpenAIPathsAgree | proxy/internal/proxy/obs.go:337-357 | For any OpenAI content in any deltas, the unstreamed reply equals the text of the events written (trimmed of trailing newlines and spaces when there is a tag) if and only if the stream shows the tag within two deltas; then the observations are equal. |
| ObsWhole.BodyTexts | proxy/internal/proxy/obs.go:359-403 | In an Anthropic body only the first tagged text block changes, to its text before the tag, and the observation is taken from that block. |
| ObsWhole.CutTextsAgree | proxy/internal/proxy/obs.go:359-403 | Cutting one block gives the text before the first tag of all blocks together, up to trailing blanks, if and only if there is no tag or it lies in one block followed by blanks alone. |
| ObsWhole.AnthropicPathsAgree | proxy/internal/proxy/obs.go:337-403 | For any Anthropic response whose tag the stream shows, the body and the events written carry the same text up to trailing blanks under exactly that condition, and then the same observation. |
| ObsWhole.LaterBlocksAreKept | proxy/internal/proxy/obs.go:359-403 | With the observation in the first block and text in a second one, the body keeps the second block and the events written carry nothing. |
| ObsCapture.StreamedResponse | proxy/internal/proxy/obs.go:86-278 | For every byte stream: the text written and `Finalize`'s result are the two sides of the first tag exactly when the stream shows it within two deltas, and all other events are forwarded in order. |
| ObsCapture.HasSuspiciousTail | proxy/internal/proxy/obs.go:193-200 | The loop decides whether the text ends with a non-empty prefix of the open tag. |
| ObsCapture.StripObsAnthropicJSON | proxy/internal/proxy/obs.go:359-403 | The loop over the blocks cuts the first tagged text block and no other. |
| ObsCapture.ObsCapture.Write | proxy/internal/proxy/obs.go:86-95 | After every write the whole state is the function of all bytes written so far that `Valid` names: buffer, scanner, thinking flag and everything sent. |
| ObsCapture.ObsCapture.DrainSSE | proxy/internal/proxy/obs.go:97-111 | All complete events in the buffer are handled, in order, and the rest stays buffered. |
| ObsCapture.ObsCapture.HandleSSEEvent | proxy/internal/proxy/obs.go:113-168 | One event is classified and takes the scanner one step; undecodable events and empty OpenAI deltas are forwarded. |
| ObsCapture.ObsCapture.HandleAnthropicEvent | proxy/internal/proxy/obs.go:170-189 | Block starts and stops keep the thinking flag; text deltas outside thinking are scanned, everything else is forwarded. |
| ObsCapture.ObsCapture.HandleTextDelta | proxy/internal/proxy/obs.go:204-278 | One text delta takes the scanner from its state to the specified next state, with at most one event held. |
| ObsCapture.ObsCapture.Finalize | proxy/internal/proxy/obs.go:446-461 | Leftover bytes go out before the held event, and the result is the trimmed observation; bodies that were not streamed are cut whole. |
| ObsCapture.ObsCapture.FinalizeNonStreaming | proxy/internal/proxy/obs.go:337-357 | The unstreamed body is sent with its observation removed, or as it is when it cannot be decoded or has none. |
| ObsWire.RebuildSSEDataField | proxy/internal/proxy/obs.go:280-333 | The line loop gives every data line the new text where the payload can be rewritten, and ends every line, also the empty last one, with a newline. |
| ObsWire.RebuiltIsEvent | proxy/internal/proxy/obs.go:280-333 | Where text payloads can be rewritten, a rebuilt event is one event with the new text in its payload, followed by one extra newline. |
| ObsClient.EventsAreHeard | proxy/internal/proxy/obs.go:86-278 | After any events, framing the bytes written gives exactly the payloads of the writes, and a client that classifies these reads exactly the text written and is in the same thinking block. |
| ObsBytes.LinesAreRebuilt | proxy/internal/proxy/obs.go:280-333 | A rebuilt event has the lines of the event in their order; only data lines change, and only in their payload. |
| ObsBytes.UntaggedBytes | proxy/internal/proxy/obs.go:86-461 | If no tag is found, exactly the bytes of the events received are sent, in the order of `WriteOrder`, with leftover bytes before a text event that is still pending. |
| ObsBytes.OrdinaryStreamsPass | proxy/internal/proxy/obs.go:86-461 | A stream without a tag, in which no delta ends like the beginning of one, is sent byte for byte as it was received, also when it is cut off. |
| ObsReading.ClientReads | proxy/internal/proxy/obs.go:446-461 | For every byte stream the client reads, from the bytes sent, the text written before `Finalize` and then whatever text the last bytes have, leftover and held event run together. |
| ObsReading.ClientReadsTextBeforeTag | proxy/internal/proxy/obs.go:86-278 | For every byte stream the client reads, from the bytes sent, exactly the text before the first tag if and only if the tag, if any, lies within two consecutive deltas, and the last text, if there is no tag and it ends like the beginning of one, can still be read behind the leftover bytes; the observation is then what follows the tag. |
| ObsReading.IntactByPayloads | proxy/internal/proxy/obs.go:446-461 | That last text can be read if and only if it is the text of the payloads that `TailRead` names for the lines of the leftover bytes. |
| ObsWire.TailPayloads | proxy/internal/proxy/obs.go:97-125 | Behind leftover bytes, a text event is hidden by their first data line if they have one, and otherwise its first line is fused with their last one; only when an empty line comes between them are both payloads read. |
| ObsReading.WholeStreamIsIntact | proxy/internal/proxy/obs.go:446-461 | If the stream ends with a whole event and no thinking block is open, the held event arrives. |
| ObsReading.LeftoverGarblesText | proxy/internal/proxy/obs.go:446-461 | One text event with a suspicious tail and then an unfinished line: the client reads nothing, although there is no tag. |
| ObsReading.ClientReadsInOrder | proxy/internal/proxy/obs.go:127-189 | If no tag is found the client reads exactly the received payloads, each event without text before a text event that was pending when it came; only the last one may be garbled by leftover bytes. |
| ObsReading.DoneOvertakesHeldText | proxy/internal/proxy/obs.go:127-163 | A reader that stops at `[DONE]` has read the text before the first tag if and only if the tag is shown and, when there is none, the last text has no suspicious tail. |
| ObsReading.HeldTextIsBehindDone | proxy/internal/proxy/obs.go:127-163 | One chunk with a suspicious tail and then `[DONE]`: a reader that stops there reads the chunk from the upstream stream and nothing from the bytes sent. |
| ObsReading.OpenAIResponsesAgree | proxy/internal/proxy/obs.go:337-357 | For every byte stream of an OpenAI content, the client reads what it reads from the unstreamed body, up to blanks before the observation, if and only if the stream keeps the promise of `ClientReadsTextBeforeTag`; if the tag is shown, both paths extract the same observation. |
| ObsReading.AnthropicResponsesAgree | proxy/internal/proxy/obs.go:337-403 | For an Anthropic byte stream that keeps that promise, the client reads what it reads from the body, up to trailing blanks, if and only if there is no tag or it lies in one block followed by blanks alone; then the observations are equal. |
| ObsBlocks.TextDeltasAreScanned | proxy/internal/proxy/obs.go:170-189 | One more Anthropic event adds its text to what is scanned if it decodes to a `text_delta` and the last event that started or stopped a block did not start a thinking block; otherwise it adds nothing. |
| ObsBlocks.ReadsFirstChoices | proxy/internal/proxy/obs.go:146-163 | The text of an OpenAI stream is that of the first choices of its chunks, in order. |
| ObsBlocks.StreamReadsAsBody | proxy/internal/proxy/obs.go:170-189 | A stream of text, thinking and other blocks, in any fragments and with other events between them, reads as the text blocks of the body with these blocks. |
| ObsBlocks.StreamAndBodyAgree | proxy/internal/proxy/obs.go:170-189 | So for such a stream the two paths give the same text up to trailing blanks exactly under the condition of `AnthropicResponsesAgree`, and then the same observation. |
| ObsBlocks.OpenAIBodyIsCut | proxy/internal/proxy/obs.go:337-357 | An unstreamed OpenAI body is sent once, with its first choice cut at its first tag, trailing newlines and spaces removed, and the trimmed text up to the close tag is the observation; without a tag it is sent as it is. |
| ObsBlocks.AnthropicBodyIsCut | proxy/internal/proxy/obs.go:359-403 | The same for the first text block with a tag, and for no other block. |
| ObsClient.WritesComeFrom | proxy/internal/proxy/obs.go:204-278 | Every write is a received event, or one of them rebuilt with a beginning of its own text; while searching none is rebuilt. |
| GemmaParser.EndAfterStartIn | patches/basic_parsers.py:72-85 | The loop finds out whether an end token comes after a start token. |
| GemmaParser.IsReasoningEnd | patches/gemma4_reasoning_parser.py:76-97 | The backward scan finds out whether the last deciding token is an end or a tool call token. |
| GemmaParser.LastTokenDecides | patches/gemma4_reasoning_parser.py:76-97 | After an end or tool call token reasoning has ended, after a start, new turn or tool response token it has not, and any other token changes nothing. |
| GemmaParser.CountReasoningTokens | patches/basic_parsers.py:198-216 | The counter loop counts exactly the tokens, delimiters excluded, before which some stretch of tokens starts more spans than it ends, however spans are nested, repeated or stray. |
| GemmaParser.CountsWhatIsInside | patches/basic_parsers.py:198-216 | The running depth, which stray end tokens leave at zero, is positive exactly at such tokens. |
| GemmaAgreement.BaseAtEnd | patches/basic_parsers.py:113-170 | A delta that holds the end token among text is cut there into reasoning and content. |
| GemmaAgreement.EndTokenWithoutText | patches/basic_parsers.py:135-144 | If the id of the end token comes without its text, the last character is cut off the reasoning, and the text from its tenth character on is sent again as content. |
| GemmaAgreement.BaseInChannel | patches/basic_parsers.py:135-152 | Once the start token has been seen, text is reasoning until an end token has come after it, and content from then on. |
| GemmaAgreement.BaseAtSpan | patches/basic_parsers.py:113-170 | Of a delta that holds both tokens the text between them is reasoning and the text after them content; text before them is lost. |
| GemmaParser.Gemma4ReasoningParser.ExtractReasoningStreaming | patches/gemma4_reasoning_parser.py:123-230 | One call updates the prefix buffer and gives the message that stripping the role label from the base parser's message calls for. |
| GemmaAgreement.LabelDecided | patches/gemma4_reasoning_parser.py:233-241 | Once the text is no longer a proper prefix of the label, stripping commutes with more text. |
| GemmaAgreement.StreamOutput | patches/gemma4_reasoning_parser.py:123-230 | For every chunking of a response that opens with the channel, the state, the reasoning and the content after the last delta. |
| GemmaAgreement.ExtractsParts | patches/gemma4_reasoning_parser.py:103-117 | The unstreamed parser gives the reasoning without its label, and the content or nothing. |
| GemmaAgreement.ParsersAgree | patches/gemma4_reasoning_parser.py:103-230 | For every chunking of reasoning, end token and content, streamed and unstreamed results are equal (absent read as empty) if and only if the reasoning is no proper piece of the label, or it is empty and the content after the end token is undisturbed by the buffer. |
| GemmaAgreement.LabelIsRemoved | patches/gemma4_reasoning_parser.py:103-230 | Both parsers give reasoning `thought\n` and t as t, in any chunking. |
| GemmaAgreement.ExtractsWithoutStart | patches/basic_parsers.py:172-196 | Without a start token, the unstreamed parser takes all text before the end token as reasoning. |
| GemmaAgreement.CutOffParsersAgree | patches/gemma4_reasoning_parser.py:103-230 | For a response that is cut off before the end token, in any deltas, both parsers give the same reasoning if and only if it is empty or more than a proper piece of the label, and no content. |
| GemmaAgreement.PlainParsersAgree | patches/gemma4_reasoning_parser.py:103-230 | For a response without the channel, in any deltas, both parsers give the same content if and only if it is empty or neither a piece of the label nor starts with it, and no reasoning. |
| GemmaAgreement.PieceOfLabelIsLost | patches/gemma4_reasoning_parser.py:123-230 | Reasoning `th` is never sent by the streaming parser in any chunking; the unstreamed parser gives it. |
| GemmaAgreement.ScansAgree | patches/gemma4_reasoning_parser.py:76-97 | On the tokens of one response that opens with its only start token, before any new turn or tool call, the backward scan says that reasoning has ended exactly if the forward scan finds the end token after the start token. |
| Sorting.SortedEnumeration | proxy/internal/logger/parse.go:448-462 | Sorting the keys of a map, in whatever order the map yields them, lists them in ascending order. |
| SseLog.SortedToolCalls | proxy/internal/logger/parse.go:448-462 | The tool calls come out in ascending order of their indices. |
| SseLog.ParseOpenAISSE | proxy/internal/logger/parse.go:287-340 | The batch parser logs what the lines before `DoneIndex` add up to, which is the first line with payload `[DONE]`, or the end. |
| SseLog.LineOfData | proxy/internal/logger/parse.go:291-340 | A line counts with what follows `data: ` in it once trimmed, unless that is empty or `[DONE]`; an OpenAI chunk with its first choice. |
| SseLog.OtherLine | proxy/internal/logger/parse.go:291-297 | All other lines, such as blank ones, are skipped by both loggers. |
| SseLog.ParseAnthropicSSE | proxy/internal/logger/parse.go:385-444 | The batch parser logs what all data lines add up to. |
| SseLog.AccumOpenAIChunk | agent/internal/agent/executor.go:359-393 | One chunk adds its first choice's text, reasoning and tool call fragments to the accumulators. |
| SseLog.AccumAnthropicChunk | agent/internal/agent/executor.go:395-438 | One event starts a call, extends the last call, or adds text or thinking. |
| SseLog.LineOfPayload | agent/internal/agent/executor.go:338-357 | Skipping empty payloads and `[DONE]` makes no difference to what a line contributes. |
| StreamLogger.OneByte | agent/internal/agent/executor.go:318-336 | One more byte completes the unfinished line or extends it, and no complete line changes. |
| StreamLogger.StreamLogger.Read | agent/internal/agent/executor.go:318-336 | For any sizes of reads, the accumulators hold what the complete lines so far add up to; when the response ends, exactly one log is recorded, for all its lines including an unfinished last one. |
| StreamLogger.StreamLogger.ProcessLine | agent/internal/agent/executor.go:338-357 | One line adds its contribution to the accumulators. |
| StreamLogger.StreamLogger.FlushToLog | agent/internal/agent/executor.go:440-459 | The accumulated text, reasoning and sorted tool calls are logged. |
| StreamLogger.LinesSplit | agent/internal/agent/executor.go:318-336 | The lines joined by newlines are the stream, and no line contains a newline. |
| SseReassembly.OpenAILoggersAgree | proxy/internal/logger/parse.go:287-340 | On every OpenAI byte stream whose first `[DONE]` is line n (or that has none and n lines), the incremental logger and the batch parser log the same if and only if every chunk from line n on has no text and only empty fragments of tool calls with a fragment before it. |
| SseReassembly.WithoutDoneLoggersAgree | proxy/internal/logger/parse.go:287-340 | Without `[DONE]` both log the whole stream. |
| SseReassembly.TextAfterDone | proxy/internal/logger/parse.go:287-340 | The text of a chunk after `[DONE]` is in the log of the incremental logger and not in that of the batch parser. |
| SseReassembly.ToolsAreAssembled | proxy/internal/logger/parse.go:287-340 | However the indices are interleaved, the call at an index consists of the first fragment's id, type and name and of its own fragments' arguments in order. |
| SseReassembly.ParseOpenAIJSON | proxy/internal/logger/parse.go:252-285 | The unstreamed parser logs the first choice, and an empty log for an undecodable body or no choice. |
| SseReassembly.OpenAIReassembly | proxy/internal/logger/parse.go:252-340 | A stream with calls numbered 0..n-1 in any interleaving is logged like a message if and only if its text fragments concatenate to the message's texts and each call assembles from its own fragments. |
| AnthropicReassembly.CallsAreInStartOrder | proxy/internal/logger/parse.go:385-462 | For every event sequence the accumulator's keys are exactly 0..n-1 in start order, and the log is that of a list that is only appended to and whose last call is extended. |
| AnthropicReassembly.ParseAnthropicJSON | proxy/internal/logger/parse.go:344-383 | The unstreamed parser logs text, thinking and tool uses in block order, with `{}` for an absent input. |
| AnthropicReassembly.AnthropicStreamMatchesBody | proxy/internal/logger/parse.go:344-444 | Streaming the blocks of a response in any fragments is logged like the unstreamed response if and only if every tool call's input is non-empty. |
| AnthropicReassembly.CallWithoutFragments | proxy/internal/logger/parse.go:344-444 | A tool call streamed without fragments is logged with empty arguments, and with `{}` when it is not streamed. |
| AnthropicHistory.AnthropicToChatMessages | agent/internal/agent/anthropic.go:30-48 | The loop gives the system message, if any, and the conversion of each message in order. |
| AnthropicHistory.ConvertAnthropicUserMsg | agent/internal/agent/anthropic.go:53-81 | A user message becomes one tool message per result block and then one user message with the other blocks, if any. |
| AnthropicHistory.ConvertAnthropicAssistantMsg | agent/internal/agent/anthropic.go:85-120 | Tool uses become calls in order, invalid inputs `{}`; the other blocks stay as content. |
| AnthropicHistory.ChatMessagesToAnthropic | agent/internal/agent/anthropic.go:171-205 | The nested loops give the conversion in which each maximal run of tool messages is one user message, and the system texts joined. |
| AnthropicHistory.GroupTools | agent/internal/agent/anthropic.go:186-193 | The inner loop consumes exactly the maximal run of tool messages. |
| HistoryRoundTrip.RoundTripIsIdempotent | agent/internal/agent/anthropic.go:30-257 | Converting a conversation to chat form and back twice equals once, and changes nothing if and only if the history is in the normal form that conversion produces. |
| HistoryTexts.ItemsConvertAsBlocks | agent/internal/agent/anthropic.go:279-300 | Content decoded from JSON is converted, there and back, like the list of the blocks that its elements decode to. |
| HistoryTexts.UndecodedIsSkipped | agent/internal/agent/anthropic.go:279-300 | Elements that do not decode make no difference. |
| HistoryTexts.UserBlocks | agent/internal/agent/anthropic.go:53-81 | A user message becomes one tool message per result, with its id and text, in order, and then one user message with all other blocks in order, if there are any. |
| HistoryTexts.AssistantBlocks | agent/internal/agent/anthropic.go:85-120 | An assistant message keeps all blocks but the tool uses, in order, which become calls with id, name and valid input, in order. |
| HistoryTexts.TextOfBlocks | agent/internal/agent/anthropic.go:301-325 | The text of a list of blocks is that of its text blocks, separated by single spaces. |
| HistoryTexts.TextOfItems | agent/internal/agent/anthropic.go:301-325 | The text of a list decoded from JSON is that of the elements that have one. |
| HistoryTexts.SystemOfMore | agent/internal/agent/anthropic.go:167-205 | The system text is that of the system messages, one per line; other messages add nothing to it. |
| HistoryTexts.SystemComesBack | agent/internal/agent/anthropic.go:30-48 | The system text of a request comes back unchanged from chat form. |
| HistoryTexts.AssistantBack | agent/internal/agent/anthropic.go:215-257 | An assistant message becomes its content, text and typed blocks included, and then one tool use per call with id, name and valid input. |
| HistoryTexts.UserBack | agent/internal/agent/anthropic.go:259-277 | A user message keeps its content; typed text blocks become blocks with the same kind and text. |
| HistoryTexts.ToolsBack | agent/internal/agent/anthropic.go:186-193 | A run of tool messages becomes one user message with one result per message, with its id and text. |
| HistoryPairing.ToChatKeepsCalls | agent/internal/agent/anthropic.go:53-120 | Conversion to chat form keeps all calls (id, name, valid input) and all result ids in order. |
| HistoryPairing.BackKeepsCalls | agent/internal/agent/anthropic.go:171-257 | Conversion of a chat history with any roles, tool contents and arguments keeps every call, its arguments replaced by `{}` when invalid, and every result id, in order. |
| HistoryPairing.RoundTripKeepsCalls | agent/internal/agent/anthropic.go:30-257 | And so the way there and back. |
| HistoryPairing.PairingSurvivesBack | agent/internal/agent/anthropic.go:171-257 | If in a chat history, with any roles, tool contents and arguments, each assistant's calls are answered by exactly the next tool messages, then in the Anthropic history each assistant's tool uses are answered in order by the next user message. |
| HistoryPairing.PairingIsThatOfClosed | agent/internal/agent/anthropic.go:171-257 | For any roles, tool contents and arguments: the Anthropic history is well-paired if and only if the chat history is, once the messages that conversion drops directly after a call are left out; the chat history itself is well-paired if and only if there are none and that holds. |
| HistoryPairing.PairingComesFromChat | agent/internal/agent/anthropic.go:171-257 | So without such gaps the two histories are well-paired together. |
| HistoryPairing.DroppedMessageClosesGap | agent/internal/agent/anthropic.go:171-257 | A system message between a call and its result: ill-paired as a chat history, well-paired after conversion. |
| HistoryPairing.PairingSurvivesToChat | agent/internal/agent/anthropic.go:53-120 | A well-paired Anthropic history becomes a well-paired chat history. |
| CompactStore.HexRoundTrip | proxy/internal/logger/compact.go:98-106 | A hash survives its hexadecimal form. |
| CompactStore.HexDecodesBeginning | proxy/internal/logger/compact.go:98-106 | A hash followed by anything that is no pair of digits decodes to the hash alone. |
| CompactStore.HexPair | proxy/internal/logger/compact.go:102-106 | Each pair of digits, of either case, decodes to its byte. |
| CompactStore.JsonReadsBack | proxy/internal/logger/compact.go:108-128 | JSON text, which is never a zstd frame, reads back whether or not it was stored compressed. |
| CompactStore.StoresTheShorter | proxy/internal/logger/compact.go:108-118 | What is stored is the data or its compressed form, and no longer than either. |
| CompactStore.SecondWriterFails | proxy/internal/logger/compact.go:331-346 | Of two writers of one session that read the same maximum the second insert fails. |
| CompactStore.NewSessionIsEmpty | proxy/internal/logger/compact.go:275-302 | A session that could be inserted is new and has no messages, the tools it names exist, and every other session keeps its numbers. |
| CompactStore.CompactLogger.StoreMessage | proxy/internal/logger/compact.go:318-328 | A row is added under the body's hash if there is none; an existing row stays; the hash is returned. |
| CompactStore.CompactLogger.StoreTools | proxy/internal/logger/compact.go:305-315 | The same for tool definitions. |
| CompactStore.CompactLogger.AddMessageToSession | proxy/internal/logger/compact.go:331-346 | The link gets the number after the session's maximum, or the insert fails and nothing changes. |
| CompactStore.CompactLogger.GetSession | proxy/internal/logger/compact.go:358-405 | The session with its messages in sequence order, or nothing for an unknown id. |
| CompactStore.ToolsComeBack | proxy/internal/logger/compact.go:305-315 | Under the hash that storing tools returns, `GetTools` finds these tools, whether they are new or were stored before. |
| CompactLog.RunKeepsInv | proxy/internal/proxy/handlers.go:186-235 | From any consistent database, every interleaving of the requests' database calls keeps each session numbered 1..n with its own bodies, every pending insert at the right number, and all sessions apart. |
| CompactLog.SessionsAreLists | proxy/internal/proxy/handlers.go:186-235 | From any consistent database, at every moment of every interleaving `GetSession` lists exactly the bodies and durations that the request has added, in order and numbered from 1, and the messages table has a row for exactly the hashes it had and the distinct bodies stored. |
| CompactLog.SessionsHaveTools | proxy/internal/proxy/handlers.go:186-200 | In every interleaving a started session names the tools of its request, and they are found under that hash; without tools it names none. |
| CompactLog.EarlierSessionsStay | proxy/internal/proxy/handlers.go:186-235 | Sessions that were in the database before list what they did, whatever the requests do. |
| CompactLog.RowsAreNeverOverwritten | proxy/internal/logger/compact.go:305-328 | A stored message, tools or session row is the same after any further calls. |
| CompactLog.CreatedWhenStored | proxy/internal/logger/compact.go:318-328 | A message has the time of the call that stored it first. |
| CompactLog.RunKeepsReferences | proxy/internal/logger/compact.go:275-346 | In every interleaving each link names an existing session and message and each session existing tools, whatever the requests are about to do. |
| AgentTypes.StripIsExact | agent/internal/agent/history.go:22-85 | Stripping leaves no reasoning and no thinking block, and changes a message only if it had one. |
| AgentTypes.StripKeepsTheRest | agent/internal/agent/history.go:22-85 | Stripping keeps role, calls, ids, text and, in their order, all parts that are no thinking. |
| AgentTypes.WindowIsSuffix | agent/internal/agent/history.go:88-93 | The window is the last n messages, or all of them when n is not positive or not smaller than their number. |
| AgentExecutor.StripAllThinking | agent/internal/agent/history.go:14-20 | Every message is stripped, and the history is unchanged exactly if it had no thinking. |
| AgentExecutor.PipelineCtx.DeepCopy | agent/internal/agent/history.go:97-135 | A fresh object with the same fields but an empty backend URL, and empty headers where the original had none. |
| AgentExecutor.FindEdge | agent/internal/agent/executor.go:74-85 | The edge listed first among all that start at the node and whose condition, if any, holds; none exactly if there is none. |
| AgentExecutor.ExecuteTool | agent/internal/agent/executor.go:167-175 | The handler of the tool of that name, or an unknown-tool error. |
| AgentExecutor.AppendTurn | agent/internal/agent/executor.go:118-143 | A turn appends the answer with its text, reasoning and calls, and for each call, in order, a tool message with its id and name and the result of the tool, or the error that there was. |
| AgentExecutor.HistoryIsTurns | agent/internal/agent/executor.go:106-144 | In every iteration the working history is the stored messages followed by such turns, each the model's answer to the windowed history before it. |
| AgentExecutor.ModelIsAsked | agent/internal/agent/executor.go:706-711 | The model is asked with the last messages, as many as the agent's window says, or else the graph's, or all; without a backend URL it does not answer. |
| AgentExecutor.ToolLoop | agent/internal/agent/executor.go:106-144 | The loop goes on for as many turns as the model calls tools, and hands the model the windowed history of that turn. |
| AgentExecutor.RunChain | agent/internal/agent/executor.go:106-165 | A chain that ends commits exactly one assistant message, with the text of the final answer, no calls, and its reasoning unless the agent strips it; one that fails commits nothing; both are what the protocol does. |
| AgentExecutor.RunRoute | agent/internal/agent/executor.go:88-100 | One model call; the context is untouched, and the output is the upper-case answer without the white space around it. |
| AgentExecutor.RunScatter | agent/internal/agent/executor.go:179-214 | All branches run on their own contexts; if none fails the contexts are merged once, in branch order; otherwise the parent's context stays. |
| AgentExecutor.TakeEdge | agent/internal/agent/executor.go:54-71 | The output is recorded, and the transform of the first matching edge, if it has one, is applied to that context; without such an edge the run ends, well for chain and route nodes. |
| AgentExecutor.RunGraph | agent/internal/agent/executor.go:19-72 | If the run ends, complete executions exist, and every one of them, with branch steps in any order and siblings of failed branches cancelled at any moment, ends in the very state that it computes. |
| GraphSteps.LeaveTakesEdge | agent/internal/agent/executor.go:54-71 | Leaving a node in the protocol records the output and takes the first matching edge with its transform, or ends the run. |
| GraphSteps.TurnIsTaken | agent/internal/agent/executor.go:106-165 | One turn of a chain asks the model once; calls are answered in the working history, a final answer is committed and is the output, and without an answer the run fails. |
| GraphSteps.RouteAsksOnce | agent/internal/agent/executor.go:88-100 | A route node asks once about the windowed messages and leaves with the trimmed upper-case answer. |
| GraphSteps.ScatterStarts | agent/internal/agent/executor.go:179-206 | A scatter node starts every branch at its graph's entry with the branch's own context; without branches it is left at once. |
| GraphSteps.BranchTakesStep | agent/internal/agent/executor.go:186-206 | A running branch can always take its own next step, and one in another environment, as after cancellation, exactly if a sibling has failed; nothing else changes. |
| GraphSteps.JoinMerges | agent/internal/agent/executor.go:208-213 | One failed branch fails the node; otherwise the contexts of the branches, in branch order, are merged into the parent's. |
| GraphSteps.RespondEndsRun | agent/internal/agent/executor.go:50-52 | A respond node ends the run, well if and only if there is a backend and it responds. |
| GraphSteps.UnknownFails | agent/internal/agent/executor.go:24-29 | An unknown node, or a scatter node without configuration, ends the run with an error. |
| GraphConfluence.StepKeepsEnd | agent/internal/agent/executor.go:177-214 | No step that the runtime may take changes how a run ends. |
| GraphConfluence.SchedulesAgree | agent/internal/agent/executor.go:177-214 | Any two complete executions of a graph end in the same state: outcome, context and executed nodes. |
| GraphConfluence.ExecutionExists | agent/internal/agent/executor.go:177-214 | If all branches at every depth end on their own, there is a complete execution, and it ends where running the branches one after another ends. |
| GraphReach.ReachesJoin | agent/internal/agent/executor.go:186-213 | Branches that can end on their own can end inside their scatter node, and the node is then left with these very ends. |
| GraphScatter.BranchesRun | agent/internal/agent/executor.go:186-207 | While branches step the parent stays as it is; when all have halted, one fails on its own too or each has ended as it does on its own. |
| GraphScatter.MergesOnce | agent/internal/agent/executor.go:179-214 | If all branches succeed on their own then in every order of steps the parent waits unchanged and is merged once, with the contexts of the solo runs in branch order. |
| GraphScatter.FailurePreventsMerge | agent/internal/agent/executor.go:208-213 | If any branch fails on its own then every complete execution of the scatter fails and leaves the parent's context as it was. |
| GraphScatter.NoBackendFails | agent/internal/agent/llm.go:68-70 | A run without a backend URL fails at once unless its entry is a scatter node. |
| GraphScatter.UnsetBackendFails | agent/internal/agent/llm.go:68-70 | Without a backend URL every complete execution fails, if the entry is no scatter node, or, whatever the entry is, if no transform or merge of the graph sets the URL. |
| GraphScatter.HopelessBranchFails | agent/internal/agent/executor.go:186-213 | A branch without a URL that nothing will set fails its scatter node in every complete execution, also if the branch on its own would never end. |
| GraphScatter.CopyNeedsBackend | agent/internal/agent/history.go:97-135 | If the factory hands out a deep copy without setting the backend URL, every complete execution of the scatter node fails, unless that branch starts with a scatter node and some transform or merge of its graph sets the URL. |
| GraphScatter.LateURLIsInTime | agent/internal/agent/executor.go:54-71 | A branch without a URL that starts with a scatter node and sets the URL by a transform ends well. |
| GraphScatter.CanStep | agent/internal/agent/executor.go:179-214 | A run that has not halted can always take a step. |
| GraphSafety.CommitIsFree | agent/internal/agent/executor.go:151-159 | A committed message is free of thinking if and only if the agent strips it or the model sent none. |
| GraphSafety.NoThinkingIsStored | agent/internal/agent/executor.go:19-165 | If all chain nodes strip and transforms, factories and merges add no thinking, no schedule ever puts thinking into the stored history of the run or of any branch at any depth. |
| GraphSafety.ToolLoopsArePaired | agent/internal/agent/executor.go:106-144 | In every reachable state each tool loop's history is the stored messages followed by groups of one assistant message and one tool message per call with matching ids in call order. |
| GraphSafety.ChainsCommitOnce | agent/internal/agent/executor.go:88-165 | Where transforms and merges keep the messages, the history of the run, and of every branch at every depth, is its initial one followed by one assistant message for each completed chain node, with that node's output as text, and nothing else. |
| GraphOrder.NoNodeTwice | agent/internal/agent/executor.go:19-85 | If every edge decreases a rank then in every execution no node is entered twice, the one being executed included, at most rank(entry) + 1 are, each step follows the first matching edge for the recorded output, and outputs are recorded for exactly the executed nodes, each its own. |

## Left out

- HTTP forwarding, headers, flushing, status codes, token counts and model listing.
- JSON encoding and decoding: decoders, and the rewriting of a text payload, are parameters.
- ObsReading.ClientReadsTextBeforeTag: like the other theorems about the client's bytes, for decoders under which a payload with text can be rewritten (`ObsWire.Rewrites`). `RebuildSSEDataField` also has the branch for a payload that cannot, such as one whose keys match only when case is ignored; it is then sent with its old text.
- ObsReading.ClientReads: the client frames as the stripper does, at two line feeds, and reads the first data line of an event. A stream with CRLF line ends passes through as one unfinished event, in which neither side of the theorems finds any text.
- SHA-256, zstd and SQLite: the hash and the compression are parameters with the properties each theorem names, and tables are maps. Database errors, `StoreRawRequest`, `SetSessionSummary`, `ListSessions` and migrations are not modelled.
- CompactStore.NewSessionIsEmpty: foreign keys are always enforced, as in the rest of the log. The source turns them on for one connection of the pool only (proxy/internal/logger/compact.go:145), so on another one a row may name tools or a message that do not exist.
- Requests whose session could not be started: in the protocol `StartSession` is repeated until its id is unused, where the source goes on with an empty session id.
- The user, project, provider, summary and time columns of a session.
- Prompt texts and their injection, FLASH suffixes, routing rules, thinking budgets and URL attribution.
- The router's classification, memory search, dashboards and scripts.
- `Graph.Run` and `runScatter` as concurrent code: goroutines are modelled by the interleaved steps of `GraphRun`, on values. The methods of `AgentExecutor` run branches one after another.
- AgentExecutor.RunGraph: loops are bounded by `limit`, because neither the graph walk nor the tool loop of the source is; when the limit is reached nothing is claimed.
- AgentExecutor.ToolLoop: the same bound on the turns of one loop.
- Aliasing between branch contexts: a factory is a function that gives each branch its own context, and transforms and merges are functions of contexts. Nodes are keyed by their own ids.
- AgentExecutor.RunRoute: `strings.ToUpper` is a parameter.
- The text of a tool error: it is kept as a value that stands for `error: ` and the message, with the name unquoted.
- Agent fields that only shape the model's prompt (system prompt, model name, structured choices): the model is a parameter that sees the agent and the context.
- `runRespond` beyond its success: that it needs a backend URL and that the upstream may fail.
- HistoryRoundTrip.RoundTripIsIdempotent: for histories of user and assistant messages, as the design promises; other roles become empty by conversion back. Fields that conversion ignores (reasoning, tool names) are not part of the chat messages there.
- GemmaAgreement.ParsersAgree: for responses that open with the start token in a delta of its own and reach the end token; `CutOffParsersAgree` and `PlainParsersAgree` are for those that do not. A start token that shares a delta with text, nested channels and text before the channel are in `BaseExtractStreaming` but outside these statements.
- GemmaAgreement.ScansAgree: the scans are compared on the tokens of one response; a second start token, a new turn or a tool call decides the backward scan alone.
- Token ids and texts of Gemma deltas are independent parameters, as they are for the parser; detokenization is not modelled.
- `streamLogger` without a request log, which only prints debug lines.
