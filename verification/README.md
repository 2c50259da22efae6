# Chat-Dash-Suite core, modelled in Dafny

This project models the logic of a dashboard for building Gemini chatbots
and voice agents. The centre is the live voice session of `useLiveAgent`,
written as an event-driven state machine. Each hook callback is one atomic
step over an immutable session record:

- `startAgent`, with or without an API key;
- the channel's `onopen`, `onmessage`, `onclose` and `onerror`;
- a playback source's `onended`;
- `stopAgent`.

Around the session sit the pure data rules of the suite:

- the top-level list owner: add, update and delete, with knowledge-base deletion clearing references, and the view switch;
- the knowledge-base form with its count and size limits;
- the request construction and error fallback of the Gemini service;
- the chatbot and voice-agent forms;
- the chat send transition;
- the two stand-alone pages that look a record up by the id in the URL.

The wire format of the session's audio is modelled bit for bit:

- `btoa` is the base 64 encoding of section 4 of RFC 4648;
- `atob` is the forgiving base 64 decode of the HTML standard;
- 16-bit little-endian PCM, de-interleaved by channel.

Some inputs become parameters:

- the clock readings (`Date.now()`, the ISO timestamp, the output audio clock);
- the file text a `FileReader` produces;
- the generative service, as a function from request to `Option<string>`, where `None` is a call that throws;
- the presence of the API key.

Modules, one per source file of the core:

| module | file | models |
|---|---|---|
| `Wrappers`, `Text`, `Lists` | shared | `Option`/`Result`, JS `trim`, `length` in UTF-16 units, `Number.toString`, `join`, `map`/`filter`/`find` by id |
| `Types` | `types.ts` | the records (with `VoiceAgent.knowledgeBaseId`, which the list owner uses) |
| `Base64`, `AudioCodec` | `hooks/useLiveAgent.ts` | `btoa`/`atob`, `encode`/`decode`, the `Int16Array` view, `decodeAudioData`'s indexing, the capture blob |
| `LiveAgent` | `hooks/useLiveAgent.ts` | the session state machine |
| `App` | `App.tsx` | the three lists and `renderView` |
| `KnowledgeBaseView` | `components/KnowledgeBaseView.tsx` | the new-knowledge-base form |
| `GeminiService` | `services/geminiService.ts` | `formatHistory`, prompts, models, apologies |
| `ChatInterface` | `components/ChatInterface.tsx` | knowledge context and `handleSend` |
| `ChatbotsView` | `components/ChatbotsView.tsx` | form, save/merge, card label, embed snippet, Test chat |
| `VoiceAgentView` | `components/VoiceAgentView.tsx`, `components/AgentInterface.tsx` | agent form, voices, status label, Start/Stop rule |
| `PublicPage`, `ChatbotPublicPage`, `VoiceAgentPublicPage` | `components/ChatbotPublicPage.tsx`, `components/VoiceAgentPublicPage.tsx` | lookup effect, usage count, render precedence |

Five behaviours of the code, modelled as written:

- A barge-in (`interrupted`) stops playback and rewinds the clock. It does not clear the partial transcripts.
- A refused microphone leaves the session `connecting`: `onopen` throws before it sets `listening`.
- A channel error ends `idle`, not `error`, because `stopAgent` runs right after `setStatus('error')`.
- An `onended` that fires for a stopped source can still find the set empty and set `listening`. Both a barge-in and `stopAgent` stop every source and then clear the set, so after End Conversation such an `onended` turns the idle session back to `listening`.
- A file's source is written when its read finishes, from the sources captured when the file was chosen, so a source added in between is overwritten.

## Model

| member | source | states |
|---|---|---|
| Lists.Replace | App.tsx:41-43 | an update keeps the list's length and order, puts the new record at every position whose id matches, and leaves every other element unchanged |
| Lists.RemoveAll | App.tsx:45-46 | a delete keeps exactly the elements with another id: none with the id survives, every other one does, nothing new appears, and the length drops by the number of matches |
| Lists.RemoveAllConcat | App.tsx:62-64 | filtering distributes over concatenation, so the survivors keep their relative order |
| Lists.Find | components/ChatInterface.tsx:19 | `find` by id returns an element of the list with that id, the earliest one, and returns nothing exactly when no element has the id |
| Text.TrimEmptyIffBlank | components/KnowledgeBaseView.tsx:70 | `!s.trim()` holds exactly when every character of `s` is JS whitespace |
| Text.TrimStart | components/ChatbotsView.tsx:45 | trimming removes a whitespace-only prefix and stops at the first non-space |
| Text.TrimEnd | components/ChatbotsView.tsx:45 | trimming removes a whitespace-only suffix and stops at the last non-space |
| Text.Trim | components/ChatbotsView.tsx:45 | `trim()` is never longer than the string, and a non-empty result neither starts nor ends with whitespace |
| Text.TrimIsSlice | components/ChatbotsView.tsx:45 | the trimmed string is the slice of the original after its leading whitespace, and everything cut on either side is whitespace |
| Text.JsLength | components/KnowledgeBaseView.tsx:34 | `length` counts UTF-16 units: one for a character in the Basic Multilingual Plane and two (a surrogate pair) above it, so at least one and at most two per character and zero only for the empty string |
| Text.JsLengthAppend | components/KnowledgeBaseView.tsx:34 | the length of a concatenation is the sum of the lengths |
| Text.Digits | App.tsx:37 | `Date.now()` in decimal is all digits, parses back to the number, and has no leading zero unless it is 0 |
| Text.DigitsInjective | App.tsx:37 | different timestamps give different decimal strings |
| Text.JoinLength | components/ChatInterface.tsx:20 | a join is as long as its parts plus one separator between each neighbouring pair |
| Text.JoinSnoc | components/ChatInterface.tsx:20 | joining one more part adds exactly the separator and that part |
| Base64.LetterTable | hooks/useLiveAgent.ts:15 | the alphabet is the table of section 4 of RFC 4648 |
| Base64.SextetsRoundTrip | hooks/useLiveAgent.ts:9-15 | regrouping the sextets of any bytes gives the bytes back, including the one- and two-byte tails |
| Base64.Encode | hooks/useLiveAgent.ts:15 | the encoding is four characters per started group of three bytes, each an alphabet letter or `=` |
| Base64.Decode | hooks/useLiveAgent.ts:19 | a character outside the alphabet that is neither whitespace nor `=` makes `atob` throw |
| Base64.DecodeEncode | hooks/useLiveAgent.ts:9-26 | decoding undoes encoding for every byte sequence |
| Base64.Btoa | hooks/useLiveAgent.ts:15 | `btoa` succeeds exactly on binary strings and yields a multiple of four characters |
| Base64.Atob | hooks/useLiveAgent.ts:19 | `atob` succeeds exactly when the forgiving decode does, and yields one character per decoded byte, carrying that byte's value |
| Base64.AtobBtoa | hooks/useLiveAgent.ts:9-26 | `atob(btoa(s)) == s` for every binary string |
| AudioCodec.EncodeBytes | hooks/useLiveAgent.ts:9-16 | `encode` of the bytes, through `String.fromCharCode` and `btoa`, is their RFC 4648 encoding: four characters per started group of three |
| AudioCodec.DecodeBytes | hooks/useLiveAgent.ts:18-26 | `decode` returns the forgiving base 64 decoding of its input, and fails exactly where `atob` throws |
| AudioCodec.DecodeEncodeBytes | hooks/useLiveAgent.ts:9-26 | `decode(encode(bytes))` is the bytes |
| AudioCodec.Int16View | hooks/useLiveAgent.ts:34 | the `Int16Array` view exists exactly for an even byte count, has half as many samples, and its first sample is the first byte pair read little-endian |
| AudioCodec.Int16ViewReadsPairs | hooks/useLiveAgent.ts:34 | every sample `i` of the view is bytes `2i` (low) and `2i + 1` (high) read as a signed 16-bit value |
| AudioCodec.Int16ViewOfSampleBytes | hooks/useLiveAgent.ts:34 | viewing the bytes of samples as samples gives the samples back |
| AudioCodec.ChannelData | hooks/useLiveAgent.ts:35-43 | channel `c` of `n` has `len / n` frames (truncated), and frame `i` is sample `i * n + c`, always in range |
| AudioCodec.MonoChannelIsSamples | hooks/useLiveAgent.ts:38-42 | with one channel the buffer is the samples themselves |
| AudioCodec.DecodeAudioData | hooks/useLiveAgent.ts:28-45 | decoding succeeds exactly for an even byte count, at least one channel and at least one frame, and yields `n` channels, each its de-interleaved samples |
| AudioCodec.FrameDuration | hooks/useLiveAgent.ts:189 | a buffer's duration is its frame count divided by its sample rate: non-negative, and positive exactly when it has a frame |
| AudioCodec.CaptureBlob | hooks/useLiveAgent.ts:141-144 | the capture blob is tagged `audio/pcm;rate=16000` and carries the base 64 of two bytes per sample |
| AudioCodec.CapturedFramePlaysBack | hooks/useLiveAgent.ts:139-144 | a captured frame in the wire format, decoded as mono, is exactly the captured samples |
| LiveAgent.Teardown | hooks/useLiveAgent.ts:64-98 | `stopAgent` leaves the status `idle`, both buffers empty, no source in flight, the clock at 0, no session and no microphone, and keeps the history |
| LiveAgent.TeardownIdempotent | hooks/useLiveAgent.ts:64-98 | stopping twice is stopping once, and a close or error after a stop changes nothing |
| LiveAgent.ChannelErrorEndsIdle | hooks/useLiveAgent.ts:199-206 | a channel error acts exactly like a close or a stop: status `idle` and the history kept |
| LiveAgent.Step | hooks/useLiveAgent.ts:100-213 | no callback newly sets `processing`; every callback but a start keeps the history as a prefix; an accepted start empties it |
| LiveAgent.StartIgnoredUnlessIdle | hooks/useLiveAgent.ts:101 | a start outside `idle`, with or without a key, changes nothing |
| LiveAgent.StartConnects | hooks/useLiveAgent.ts:103-104 | an accepted start sets `connecting`, empties the history and opens a session with the given instruction and voice, and changes nothing else |
| LiveAgent.StartWithoutKeyErrs | hooks/useLiveAgent.ts:107-108 | without an API key the start empties the history and ends in `error` |
| LiveAgent.OpenListens | hooks/useLiveAgent.ts:127-153 | once the microphone is granted the agent listens; a refused microphone changes nothing |
| LiveAgent.NeverProcessing | hooks/useLiveAgent.ts:5 | from any state other than `processing`, no sequence of callbacks reaches `processing` |
| LiveAgent.InitNeverProcessing | hooks/useLiveAgent.ts:49 | from the first render `processing` is never reached |
| LiveAgent.StatusByEvent | hooks/useLiveAgent.ts:153-186 | `open` sets `listening`, audio sets `speaking`, a message without audio keeps the status, an `onended` that empties the set sets `listening`, and close, error and stop set `idle` |
| LiveAgent.Transcribe | hooks/useLiveAgent.ts:156-168 | each fragment is appended to its own buffer; a completed turn appends exactly the user line then the agent line, each with this message's fragment, and clears both buffers |
| LiveAgent.FragmentsAccumulate | hooks/useLiveAgent.ts:156-161 | within a turn each buffer is the concatenation of its fragments in arrival order, and the history is unchanged |
| LiveAgent.TurnComplete | hooks/useLiveAgent.ts:162-168 | a completing message appends `"You: "` + buffer + fragment and `"Agent: "` + buffer + fragment, even when empty, and clears both buffers |
| LiveAgent.WholeTurn | hooks/useLiveAgent.ts:156-168 | over a whole turn, every fragment of the turn ends up, in order, in the two new history lines |
| LiveAgent.HelloExample | hooks/useLiveAgent.ts:156-168 | "Hel" then "lo" with the turn complete gives the lines "You: Hello" and "Agent: " |
| LiveAgent.HistoryOnlyGrows | hooks/useLiveAgent.ts:165 | over any run without a start, the history only grows |
| LiveAgent.StepKeepsPaired | hooks/useLiveAgent.ts:165 | every callback keeps the history a sequence of whole turns, a user line then an agent line |
| LiveAgent.InitPaired | hooks/useLiveAgent.ts:52 | from the first render the history always alternates user and agent lines, starting with the user |
| LiveAgent.SegmentDuration | hooks/useLiveAgent.ts:176 | a payload yields a segment exactly when it decodes as 24 kHz mono PCM, and then the segment lasts a positive time |
| LiveAgent.Enqueue | hooks/useLiveAgent.ts:188-190 | scheduling a segment adds one source under a fresh identity and moves the clock forward |
| LiveAgent.Receive | hooks/useLiveAgent.ts:155-198 | a message updates the transcripts as `Transcribe` does, keeps the session and microphone, sets `speaking` exactly when it carries audio, and otherwise keeps the status |
| LiveAgent.EndSegment | hooks/useLiveAgent.ts:181-186 | `onended` forgets that source, and sets `listening` once none is left |
| LiveAgent.AudioSchedules | hooks/useLiveAgent.ts:174-190 | a decoded segment starts at `max(next, now)`, the clock moves to its end, and the agent is speaking |
| LiveAgent.ClockNeverRewinds | hooks/useLiveAgent.ts:174 | apart from a teardown or a barge-in, no callback moves the clock back |
| LiveAgent.RunClockNeverRewinds | hooks/useLiveAgent.ts:174-189 | over any run without a teardown or barge-in the clock never decreases |
| LiveAgent.ConsecutiveSegmentsDoNotOverlap | hooks/useLiveAgent.ts:188-189 | with no teardown or barge-in between them, a later segment starts no earlier than an earlier one ends |
| LiveAgent.StepKeepsGapless | hooks/useLiveAgent.ts:170-197 | every callback keeps the in-flight sources pairwise disjoint, each ending by the clock |
| LiveAgent.InitGapless | hooks/useLiveAgent.ts:61-62 | from the first render, in-flight sources never overlap |
| LiveAgent.Flush | hooks/useLiveAgent.ts:193-197 | a barge-in forgets every in-flight source and rewinds the clock to 0, and changes nothing else in the session |
| LiveAgent.BargeInFlushes | hooks/useLiveAgent.ts:193-197 | a barge-in leaves no source in flight and the clock at 0, and keeps the partial transcripts |
| LiveAgent.BargeInRestartsAtNow | hooks/useLiveAgent.ts:174 | after a barge-in, the next segment starts at the current output time |
| LiveAgent.LastSegmentEndListens | hooks/useLiveAgent.ts:181-186 | when the last in-flight source ends the agent listens again |
| LiveAgent.StoppedSourceEndingListens | hooks/useLiveAgent.ts:91-95 | after `stopAgent` leaves the session idle, the `onended` of a source it stopped sets listening again |
| LiveAgent.TranscribeAsWritten | hooks/useLiveAgent.ts:163-165 | the turn lines are built from the buffers the start's closure saw, not from the fragments received since |
| LiveAgent.StaleTurnDropsEarlierFragments | hooks/useLiveAgent.ts:163-165 | "Hel" then "lo" is finalised as "You: lo" through the closure, and as "You: Hello" from the current buffers |
| LiveAgent.MicrophoneHeldAfterStop | hooks/useLiveAgent.ts:127-128 | start, stop, close and then the microphone grant leaves the microphone held, with no session, and the agent listening |
| LiveAgent.GuardedStep | hooks/useLiveAgent.ts:127-153 | with `onopen` ignoring a session that is no longer pending, a step never holds the microphone without a session |
| LiveAgent.GuardedRunKeepsMicrophoneOwned | hooks/useLiveAgent.ts:127-153 | with that guard, no run holds the microphone without a session |
| LiveAgent.RestartingStep | hooks/useLiveAgent.ts:101 | with the guard admitting `error`, a start from `idle` or `error` connects, or fails without a key, and empties the history |
| App.RenderView | App.tsx:80-109 | each view string shows its own page, and anything else shows the dashboard |
| App.RenderViewIsInjectiveOnViews | App.tsx:80-106 | two views share a page exactly when they are the same view |
| App.NewIdInjective | App.tsx:37 | records created at different milliseconds get different ids |
| App.AddKnowledgeBase | App.tsx:36-39 | an add appends exactly one knowledge base, with id `kb` + timestamp, and keeps the earlier ones and the other lists |
| App.UpdateKnowledgeBase | App.tsx:41-43 | an update replaces exactly the knowledge bases with the id, in place |
| App.DetachChatbots | App.tsx:48 | every chatbot pointing at the id loses its reference, and every other chatbot and field is unchanged |
| App.DetachVoiceAgents | App.tsx:49 | every voice agent pointing at the id loses its reference, and every other agent and field is unchanged |
| App.DeleteKnowledgeBase | App.tsx:45-50 | after the delete, no knowledge base has the id and no bot or agent refers to it |
| App.DeleteKnowledgeBaseKeepsOthers | App.tsx:45-50 | the other knowledge bases stay in order, and bots and agents pointing elsewhere are unchanged |
| App.DeleteKnowledgeBaseKeepsReferences | App.tsx:45-50 | if every reference resolved before the delete, every reference resolves after it |
| App.UpdateKnowledgeBaseKeepsReferences | App.tsx:41-43 | an update keeps every reference resolving |
| App.DeleteUndoesAddKnowledgeBase | App.tsx:36-50 | adding a knowledge base with a fresh id and then deleting it restores the state |
| App.AddChatbot | App.tsx:53-56 | an add appends exactly one chatbot, with id `cb` + timestamp and usage 0, and keeps the earlier ones |
| App.UpdateChatbot | App.tsx:58-60 | an update replaces exactly the chatbots with the id, in place |
| App.DeleteChatbot | App.tsx:62-64 | a delete removes every chatbot with the id and keeps every other one |
| App.FindAfterUpdateChatbot | App.tsx:58-60 | after updating a stored chatbot, looking its id up finds the new record |
| App.FindAfterDeleteChatbot | App.tsx:62-64 | after a delete, looking the id up finds nothing |
| App.AddVoiceAgent | App.tsx:67-70 | an add appends exactly one voice agent, with id `va` + timestamp and no knowledge base, and keeps the earlier ones |
| App.UpdateVoiceAgent | App.tsx:72-74 | an update replaces exactly the voice agents with the id, in place |
| App.DeleteVoiceAgent | App.tsx:76-78 | a delete removes every voice agent with the id and keeps every other one |
| App.DeleteChatbotKeepsReferences | App.tsx:62-64 | deleting chatbots keeps every reference resolving |
| App.SeedDeleteExample | App.tsx:12-24 | the mock data's references resolve, and deleting `kb1` detaches the first bot and only that one |
| KnowledgeBaseView.TotalSize | components/KnowledgeBaseView.tsx:23 | the total of the sources' sizes is 0 exactly when every source has size 0 |
| KnowledgeBaseView.TotalSizeAppend | components/KnowledgeBaseView.tsx:23 | the total size of a concatenation is the sum of the totals |
| KnowledgeBaseView.SourceWithinTotal | components/KnowledgeBaseView.tsx:23 | every source's size counts towards the total |
| KnowledgeBaseView.AddRejection | components/KnowledgeBaseView.tsx:30-37 | a source may be added exactly when fewer than ten exist and the new total stays within 10 MB; a full form gives the count message |
| KnowledgeBaseView.HandleAddUrl | components/KnowledgeBaseView.tsx:25-43 | an empty URL or content sets the message and keeps the sources; a successful add appends one URL source whose size is the content's length, and clears the URL, content and error |
| KnowledgeBaseView.HandleFileChange | components/KnowledgeBaseView.tsx:45-67 | choosing a file never changes the sources; no file changes nothing; a read starts exactly when both limits leave room for the file, capturing the current sources and clearing the error; a rejected file sets a message |
| KnowledgeBaseView.FileLoaded | components/KnowledgeBaseView.tsx:60-62 | the read's `onload` sets the sources to the captured array plus one file source stamped with the load time, whatever the sources are by then, and changes nothing else |
| KnowledgeBaseView.AddUrlAcceptedIff | components/KnowledgeBaseView.tsx:25-43 | a URL source is added exactly when both fields are filled and both limits leave room |
| KnowledgeBaseView.FileAcceptedIff | components/KnowledgeBaseView.tsx:45-64 | a read starts exactly when a file is chosen and both limits leave room, and when nothing happens before its `onload` the file is appended to the sources |
| KnowledgeBaseView.FileLoadedWithinLimits | components/KnowledgeBaseView.tsx:47-62 | a read that passed both guards against its captured sources writes a list within ten sources and 10 MB |
| KnowledgeBaseView.ApplyKeepsLimits | components/KnowledgeBaseView.tsx:30-62 | every user action and every finished read keeps the form, and every read still in flight, within ten sources and 10 MB |
| KnowledgeBaseView.FormNeverExceedsLimits | components/KnowledgeBaseView.tsx:12-14 | no sequence of actions, with the reads finishing in any order, takes a form past either limit |
| KnowledgeBaseView.EmptyFormNeverExceedsLimits | components/KnowledgeBaseView.tsx:12-14 | a form built from scratch never holds more than 10 sources or 10485760 bytes |
| KnowledgeBaseView.HandleSave | components/KnowledgeBaseView.tsx:69-79 | a blank name or no sources is rejected with the matching message; otherwise the draft is the name as typed, the sources and their total |
| KnowledgeBaseView.BlankNameRejected | components/KnowledgeBaseView.tsx:70-72 | a whitespace-only name is rejected whatever the sources |
| KnowledgeBaseView.Submit | components/KnowledgeBaseView.tsx:69-79 | a rejected form keeps the dialog open and the lists unchanged; an accepted one adds the draft and closes the dialog |
| KnowledgeBaseView.UrlAddedDuringReadIsLost | components/KnowledgeBaseView.tsx:60-62 | a URL source added after a file is chosen and before its read finishes is gone afterwards, and only the file remains |
| KnowledgeBaseView.FileLoadedFresh | components/KnowledgeBaseView.tsx:60-62 | the corrected `onload` keeps every source already in the form, appends the file when both limits still leave room and otherwise sets the message, and keeps the form within both limits |
| KnowledgeBaseView.SavedKnowledgeBaseWithinLimits | components/KnowledgeBaseView.tsx:12-79 | a knowledge base saved from a form built from scratch has one to ten sources, and its recorded size is their total, at most 10 MB |
| GeminiService.FormatHistory | services/geminiService.ts:17-22 | formatting keeps length and order, and gives each entry the message's role and exactly one part carrying its text |
| GeminiService.UnformatFormatHistory | services/geminiService.ts:17-22 | reading the roles and texts back from the formatted history gives the messages' roles and texts |
| GeminiService.FormatHistoryAppend | services/geminiService.ts:17-22 | formatting distributes over concatenation |
| GeminiService.FullPrompt | services/geminiService.ts:32-34 | with a non-empty context the prompt is exactly `CONTEXT:\n`, the context, `\n\nQUESTION:\n` and the question, so the context and the question can be read back at fixed places; otherwise it is the question |
| GeminiService.FullPromptSeparatesContexts | services/geminiService.ts:32-34 | different non-empty contexts give different prompts for the same question |
| GeminiService.ConfigFor | services/geminiService.ts:36-37 | thinking mode selects `gemini-2.5-pro` with budget 32768; otherwise `gemini-2.5-flash` with no thinking configuration; the system instruction is always passed |
| GeminiService.ResponseRequest | services/geminiService.ts:39-46 | the contents are the formatted history followed by exactly one user entry carrying the full prompt |
| GeminiService.AssistantRequest | services/geminiService.ts:57-63 | the assistant asks `gemini-2.5-flash` with its fixed instruction, the formatted history and one user entry with the prompt |
| GeminiService.GetResponse | services/geminiService.ts:24-53 | the answer is the service's reply, or the fixed apology when the call fails |
| GeminiService.GetAssistantResponse | services/geminiService.ts:55-69 | the answer is the service's reply, or the assistant's own apology when the call fails |
| GeminiService.FailureGivesApology | services/geminiService.ts:49-52 | a failing service yields each function's apology rather than an error, and the two apologies differ |
| ChatInterface.KnowledgeContext | components/ChatInterface.tsx:19-20 | the context is the source contents, joined by a blank line, of the first knowledge base with the bot's id, as `find` returns it; it is absent exactly when the bot has no id or no knowledge base has it |
| ChatInterface.EmptyKnowledgeBaseAddsNoContext | components/ChatInterface.tsx:19-20 | a knowledge base without sources adds no context header to the question |
| ChatInterface.SingleSourceContext | components/ChatInterface.tsx:20 | one source's content is the whole context |
| ChatInterface.ContextGrowsBySource | components/ChatInterface.tsx:20 | each further source adds a blank line and its content to the context |
| ChatInterface.BeginSend | components/ChatInterface.tsx:28-37 | a blank input or a request in flight is ignored; a throwing `onInteraction` stops the send; otherwise one user message with the input as typed is appended, the input is cleared and loading is set |
| ChatInterface.FinishSend | components/ChatInterface.tsx:41-43 | the reply is appended as one model message and loading is cleared |
| ChatInterface.HandleSend | components/ChatInterface.tsx:28-44 | `onInteraction` is called exactly when the send passes the guard and a callback is given |
| ChatInterface.SendIgnored | components/ChatInterface.tsx:29 | a blank input or a request in flight makes a send do nothing |
| ChatInterface.SendAppendsExchange | components/ChatInterface.tsx:28-44 | an accepted send appends the user message and then the reply (or the apology), asks with the history from before the send, clears the input and ends not loading |
| ChatbotsView.InitForm | components/ChatbotsView.tsx:28-41 | the form shows the edited bot's fields, or resets to empty, no knowledge base and no thinking, and the error is cleared |
| ChatbotsView.SelectRoundTrip | components/ChatbotsView.tsx:56 | choosing the option shown keeps the id exactly when the id is neither empty nor "none"; "none" stands for no knowledge base |
| ChatbotsView.HandleSave | components/ChatbotsView.tsx:44-50 | a blank trimmed name or prompt is rejected with the message; otherwise the draft carries the name and prompt as typed, the knowledge-base id and the thinking flag |
| ChatbotsView.SaveAcceptedIff | components/ChatbotsView.tsx:45 | the form is accepted exactly when neither field is whitespace-only |
| ChatbotsView.Merge | components/ChatbotsView.tsx:105 | the merge keeps the edited bot's id, creation time and usage, and takes every form field |
| ChatbotsView.UntouchedEditKeepsBot | components/ChatbotsView.tsx:28-41 | saving an edit form left as it opened gives the bot back unchanged |
| ChatbotsView.SaveBot | components/ChatbotsView.tsx:103-110 | when editing, the merge replaces the bot; otherwise the draft is added; the dialog closes either way |
| ChatbotsView.Submit | components/ChatbotsView.tsx:44-50 | a rejected form shows the message and changes nothing else; an accepted one is saved |
| ChatbotsView.EditSaveKeepsIdentity | components/ChatbotsView.tsx:103-110 | saving an edit keeps the number of bots, and the bot under the id keeps its id, creation time and usage and takes the form's fields |
| ChatbotsView.CreateSaveAppends | components/ChatbotsView.tsx:103-110 | saving a new bot closes the dialog and adds it last, with no uses |
| ChatbotsView.KnowledgeBaseLabel | components/ChatbotsView.tsx:148 | the card shows the name of the first knowledge base with the bot's id, and "None" when the bot has no id, no knowledge base has it, or its name is empty; the label is never empty |
| ChatbotsView.DeletedKnowledgeBaseReadsNone | components/ChatbotsView.tsx:148 | after a knowledge base is deleted, the cards of the bots that used it read "None" |
| ChatbotsView.EmbedCode | components/ChatbotsView.tsx:74-81 | the snippet carries the bot's id at a fixed place in `botId: "…"`, from which it can be read back, and ends with the tag that loads `/chatbot-loader.js` |
| ChatbotsView.EmbedCodeInjective | components/ChatbotsView.tsx:74-81 | different bots get different snippets |
| ChatbotsView.TestSendAsWritten | App.tsx:92-98 | as mounted, a Test send changes neither the list owner's state nor the chat, whatever is typed |
| ChatbotsView.TestChatLosesEverySend | components/ChatbotsView.tsx:166 | an accepted send that, with the counter passed in, adds the user message and the reply, as mounted leaves the chat and the state unchanged |
| ChatbotsView.TestSend | components/ChatbotsView.tsx:166 | with the counter passed in, a Test send touches only the chatbots: the view, the knowledge bases and the voice agents stay as they were |
| ChatbotsView.TestSendIgnored | components/ChatbotsView.tsx:166 | with the counter passed in, a blank or overlapping send changes nothing |
| ChatbotsView.TestSendCountsAndAnswers | components/ChatbotsView.tsx:166 | with the counter passed in, an accepted send gets its exchange and adds one use per stored bot with the tested id |
| VoiceAgentView.VoicesOfferEveryVoiceOnce | components/VoiceAgentView.tsx:12-18 | the menu offers each of the five voices exactly once, and `Zephyr`, the default, comes first |
| VoiceAgentView.HandleSave | components/VoiceAgentView.tsx:21-27 | a blank trimmed name or instruction is rejected with the message; otherwise the draft is the name, instruction and voice as given |
| VoiceAgentView.SaveAcceptedIff | components/VoiceAgentView.tsx:22 | the form is accepted exactly when neither field is whitespace-only |
| VoiceAgentView.Submit | components/VoiceAgentView.tsx:81-84 | a rejected form shows the message and stays open; an accepted one is added and the dialog closes |
| VoiceAgentView.SubmittedAgentStored | components/VoiceAgentView.tsx:81-84 | a saved agent is stored last with the name, instruction and voice given and no knowledge base |
| VoiceAgentView.StatusLabel | components/VoiceAgentView.tsx:48-56 | the indicator reads "Idle" exactly for `idle` and for `processing`, which falls to the default case |
| VoiceAgentView.LabelsTellStatusesApart | components/VoiceAgentView.tsx:48-56 | two statuses share a label exactly when both are `idle` or `processing`, so `processing` reads "Idle" |
| VoiceAgentView.Press | components/VoiceAgentView.tsx:62-66 | the button stops exactly when Start is not shown, and when shown it starts with the agent's instruction and voice |
| VoiceAgentView.PressTogglesSession | components/VoiceAgentView.tsx:62-66 | from `idle` the button connects with the agent's configuration, or fails without a key; in an active state it tears the session down |
| VoiceAgentView.PressWithContext | components/AgentInterface.tsx:15-16 | the shared console computes the agent's knowledge context, but its press is the page-local press, which does not depend on the stored knowledge bases |
| VoiceAgentView.KnowledgeContextDropped | components/AgentInterface.tsx:41 | whatever knowledge bases are stored, the press and the session it opens are the same: the context never reaches the session |
| VoiceAgentView.HistoryStyledByTurn | components/VoiceAgentView.tsx:69 | in every session from the first render, finished lines alternate between the user's colour and the agent's, starting with the user's |
| VoiceAgentView.StuckInError | components/VoiceAgentView.tsx:62-63 | in `error` the console offers Start, yet any number of presses leaves the session as it is |
| VoiceAgentView.MissingKeyIsPermanent | components/VoiceAgentView.tsx:62-63 | after a start without a key, no later press connects, even with a key |
| VoiceAgentView.StartButtonAlwaysStarts | components/VoiceAgentView.tsx:62-63 | with the guard admitting `error`, every press of a shown Start button starts a session |
| PublicPage.NotFoundQuotesId | components/ChatbotPublicPage.tsx:32 | the not-found error quotes the id looked up |
| PublicPage.Lookup | components/ChatbotPublicPage.tsx:15-36 | a missing or empty id ends loading with the missing-id error; an empty list keeps the page loading; otherwise a found record is set, an unknown id sets the not-found error, and loading ends |
| PublicPage.Render | components/ChatbotPublicPage.tsx:43-61 | loading is shown first, then the error, then the missing record, then the record |
| PublicPage.FirstLookupNeverFallsBack | components/VoiceAgentPublicPage.tsx:15-54 | from a fresh page one lookup never reaches "could not load", and any record shown is the stored one with the requested id |
| ChatbotPublicPage.FindBot | components/ChatbotPublicPage.tsx:15-36 | no `botId` ends loading with its error, an empty list keeps loading, and a bot set is a stored bot with that id |
| ChatbotPublicPage.UnknownBotQuotesId | components/ChatbotPublicPage.tsx:28-34 | an unknown id ends loading with the error that quotes it |
| ChatbotPublicPage.StoredBotShown | components/ChatbotPublicPage.tsx:27-61 | once the list has loaded, a stored bot requested by its id is shown, and the one shown is the first stored bot with that id, as `find` returns it |
| ChatbotPublicPage.IncrementUsage | components/ChatbotPublicPage.tsx:38-41 | an interaction adds one use to exactly the bots with the page bot's id, leaves the others, and does nothing without a bot |
| ChatbotPublicPage.IncrementAddsOnePerMatch | components/ChatbotPublicPage.tsx:40 | the total usage grows by the number of bots with the id, so by exactly one when ids are unique |
| VoiceAgentPublicPage.FindAgent | components/VoiceAgentPublicPage.tsx:15-35 | no `agentId` ends loading with its error, an empty list keeps loading, and an agent set is a stored agent with that id |
| VoiceAgentPublicPage.UnknownAgentQuotesId | components/VoiceAgentPublicPage.tsx:26-32 | an unknown id ends loading with the error that quotes it |
| VoiceAgentPublicPage.StoredAgentShown | components/VoiceAgentPublicPage.tsx:26-54 | once the list has loaded, a stored agent requested by its id is shown, and the one shown is the first stored agent with that id, as `find` returns it |

## Left out

- Browser and SDK plumbing in the hook is abstracted to events. This covers `GoogleGenAI`, `ai.live.connect` and its configuration, `getUserMedia`, `AudioContext` and the script-processor wiring. Channel open, microphone grant, audio segment and segment end are events; the output clock reading comes with each message.
- Floating-point sample scaling is left out: `* 32768` with its Int16 wrap-around on capture, and `/ 32768.0` on playback. Samples are carried as Int16 values and only the index arithmetic is modelled.
- The interleavings across the hook's two `await`s and React's state batching are left out. Each handler is one atomic step. The file reader's `onload` is the one asynchronous completion modelled as a step of its own.
- The `startAgent` closure's stale buffers are modelled only as the finding below; the main model reads the current buffers.
- Sending captured frames to the session (`sendRealtimeInput`) is network output; only the blob's contents are modelled.
- `Date.now()`, `toISOString()`, the `FileReader` read, the API key and the generative service are parameters.
- When the service answers without text (`response.text` undefined), the model has a string reply.
- A transcription object without `text` would append the text "undefined". Fragments are modelled as optional strings instead.
- `window.confirm` before a chatbot delete is left out; the delete is modelled as confirmed.
- `hooks/useLocalStorage.ts` is left out: it is storage and JSON I/O. The public pages take the stored lists as inputs.
- The loader scripts, `SideNav`, the deployment guide, the modal, the spinner and the assistant panel's rendering are left out as pure rendering. The assistant's request and apology are modelled in `GeminiService`.
- `Dashboard` is left out, and it is not pure rendering. Each render sorts the list owner's chatbot array in place by usage, highest first, and later updates start from that order. The model keeps the lists in insertion order, which is their order only between dashboard renders. The order claims of `Lists.Replace`, `Lists.RemoveAll`, `App.AddChatbot` and `ChatbotsView.CreateSaveAppends` are about one update, whatever order it starts from.
- The partial transcript lines ("You: …" while a turn is open) and the chat's scroll are left out as rendering. Only the colour rule for finished lines is modelled.
- `VoiceAgentView`'s unused `knowledgeBases`, `updateVoiceAgent` and `deleteVoiceAgent` props are left out. The list owner passes them, but the page does not read them.
- LiveAgent.SegmentDuration: states that a decoded segment has positive length, not its exact value (frames divided by 24000).

## Findings

| source | as written | input that shows it | evidently intended | confidence | as-written member | corrected member |
|---|---|---|---|---|---|---|
| components/VoiceAgentView.tsx:62-63 | the console offers Start in `error`, but `startAgent` returns unless the status is `idle` | start without an API key, then press Start again with a key | a start from `error` is accepted | high; not executed | VoiceAgentView.StuckInError | VoiceAgentView.StartButtonAlwaysStarts |
| hooks/useLiveAgent.ts:163-165 | the turn lines read `userTranscript`/`agentTranscript` through the `startAgent` closure, so they hold the buffers as of the start | "Hel" then "lo" with the turn complete | the line "You: Hello" from the current buffers | high; not executed | LiveAgent.StaleTurnDropsEarlierFragments | LiveAgent.HelloExample |
| hooks/useLiveAgent.ts:127-128 | `onopen` acquires the microphone whatever happened since the start | start, stop, the close, then the microphone grant | a session that is no longer pending does not take the microphone | medium; not executed | LiveAgent.MicrophoneHeldAfterStop | LiveAgent.GuardedRunKeepsMicrophoneOwned |
| components/KnowledgeBaseView.tsx:60-62 | the `onload` writes `[...sources, file]` from the sources captured when the file was chosen | choose a file, then add a URL source before the read finishes | the file is appended to the sources as they are when the read finishes, with the limits checked again | medium; not executed | KnowledgeBaseView.UrlAddedDuringReadIsLost | KnowledgeBaseView.FileLoadedFresh |
| App.tsx:92-98 | `ChatbotsView` is mounted without `incrementChatbotUsage`, so the Test chat's `onInteraction` throws | any non-blank message sent from the Test chat | the list owner passes a counter, the send completes and the bot's usage grows | high; not executed | ChatbotsView.TestChatLosesEverySend | ChatbotsView.TestSendCountsAndAnswers |

The main session model follows the code for the first and third rows:
`LiveAgent.Step` ignores a start from `error` and lets `onopen` take the
microphone. `LiveAgent.RestartingStep` and `LiveAgent.GuardedStep` are the
corrected steps. For the second row, the main model's `LiveAgent.Transcribe`
reads the current buffers, and `LiveAgent.TranscribeAsWritten` is the code
as written. For the fourth row, `KnowledgeBaseView.Apply` follows the code
through `KnowledgeBaseView.FileLoaded`, and `KnowledgeBaseView.FileLoadedFresh`
is the corrected `onload`.
