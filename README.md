# Aurora: a verified model of the storytelling game's core

Aurora is a browser role-playing game. The player picks a theme, and then at
each turn one of several choices. A storyteller agent answers every turn with
a JSON story response: a narration, the next choices, an image prompt and the
characters in the scene. This project models the parts of the game that keep
state and make decisions, and proves what those parts promise:

- **The objective tracker** (`GameContext` and its four function tools). The
  quest state (not started, in progress, completed) follows the objective list.
  Objectives are numbered from a running counter. A status update marks
  objectives finished by id, counts the newly finished ones and reports the
  unknown ids. The scene roster is refreshed from the storyteller's answer.
- **The turn orchestrator** (`RPGSession` in the agent version). It covers:
  - the theme turn and the numbered turns up to the configured maximum;
  - the objectives reminder and the summary of the previous scene;
  - the conclusion when every objective is finished;
  - the ordered messages a turn sends to the client: objectives, narration,
    the scene image task, then choices;
  - game start;
  - reference-image bookkeeping for the initial image and for each scene.
- **The streaming session** (`RPGSession` in the server). It covers:
  - the token loop, which forwards tokens;
  - the early image prompt, found in the partial answer and started at most
    once;
  - the stop on a closed socket, which cancels every background task;
  - the final parse, with defaults for missing fields;
  - the registry of live sessions and the validation of incoming messages.
- **The client**. It covers:
  - the character-by-character narration extractor, with its 14-character
    sliding window;
  - the turn-id counter, which numbers the turn elements;
  - the choice buttons, each of which sends the id of the next turn element.

Modules:

- `ObjectiveSpec` holds the pure objective and roster functions.
- `AgentService` holds the `GameContext` class and the tools.
- `Session` models the agent-driven session.
- `StreamingSession` and `Registry` model the server's streaming session and
  its endpoint.
- `NarrationSpec` models the extractor as a state machine.
- `ClientView` models the client's mutable state.

The rest of the system appears only at its edges:

- The storyteller agent, the image service and the JSON decoder are
  parameters: a recorded run, a function, an oracle.
- The websocket is a `connected` flag, given per call or per streamed chunk.
- Messages sent to the client are appended to an `events` log.

## Model

| member | source | states |
|---|---|---|
| ObjectiveSpec.AllObjectivesCompleted | openai_agent_service.py:46-50 | true exactly when the list is non-empty and every objective is finished; an empty list is never complete |
| ObjectiveSpec.QuestStateAfterStatusUpdate | openai_agent_service.py:220-229 | completed iff all objectives are finished; with objectives, any other result is in progress (a completed quest re-opens) |
| ObjectiveSpec.QuestStateAfterReplace | openai_agent_service.py:102-115 | not started iff the list is empty, completed iff all are finished, in progress otherwise |
| ObjectiveSpec.InSceneNames | openai_agent_service.py:37-39 | a name is returned iff some roster character with that name is in the scene |
| ObjectiveSpec.WithSceneStatus | openai_agent_service.py:41-44 | same roster, names and descriptions unchanged, each character in scene iff its name is listed |
| ObjectiveSpec.InSceneAfterUpdate | openai_agent_service.py:37-44 | after a scene update, the in-scene query returns exactly the roster names that were listed, in roster order |
| ObjectiveSpec.NumberedIds | openai_agent_service.py:146-157 | created objectives get pairwise distinct ids from the counter's range, in input order |
| ObjectiveSpec.Numbered | openai_agent_service.py:146-157 | one objective per input, in input order: the k-th gets id first + k and keeps its input's text and flag |
| ObjectiveSpec.SameShapeUnique | openai_agent_service.py:204-218 | marking cannot make two objectives share an id: distinct ids stay distinct in a list of the same shape |
| ObjectiveSpec.FindFrom | openai_agent_service.py:206-215 | the found index is the first objective with the id; no index means no objective has it |
| ObjectiveSpec.UnknownIds | openai_agent_service.py:204-218 | an id is reported as not found iff it was requested and no objective has it |
| ObjectiveSpec.MarkAllShape | openai_agent_service.py:204-218 | marking keeps every id and text, and never turns a finished objective back to unfinished |
| ObjectiveSpec.MarkOneShape | openai_agent_service.py:206-213 | marking one id keeps ids and texts, and finishes exactly the first objective carrying it |
| ObjectiveSpec.MarkAll | openai_agent_service.py:204-218 | marking keeps the number of objectives |
| ObjectiveSpec.MarkAllUnique | openai_agent_service.py:204-218 | with distinct ids, an objective ends finished iff it was finished or its id was listed |
| ObjectiveSpec.MarkAllSnoc | openai_agent_service.py:204-218 | marking a list of ids is marking them one by one, in order |
| ObjectiveSpec.NewlyFinishedSet | openai_agent_service.py:207-213 | the updated count rises by one exactly when an unfinished objective is marked |
| ObjectiveSpec.UniqueFind | openai_agent_service.py:206-215 | with unique ids, looking up an objective's id finds that objective |
| AgentService.GameContext.UpdateCharacterSceneStatus | openai_agent_service.py:41-44 | the roster becomes the scene-status update of the old roster, and the in-scene query then returns the listed roster names |
| AgentService.GameContext.constructor | openai_agent_service.py:25-35 | a fresh context: quest not started, no objectives, ids from 1, empty roster, turn 0, no theme |
| AgentService.GameContext.CharactersInScene | openai_agent_service.py:37-39 | a name is returned iff some roster character with it is in the scene |
| AgentService.GameContext.CheckAllObjectivesCompleted | openai_agent_service.py:46-50 | true iff there are objectives and every one is finished |
| AgentService.GameContext.UpdateObjectiveStatus | openai_agent_service.py:52-55 | an in-range index sets that objective's flag and nothing else; an out-of-range index changes nothing |
| AgentService.GameContext.UpdateGameObjectivesTool | openai_agent_service.py:85-118 | the list is replaced and the quest state recomputed; it is consistent and not started iff the list is empty |
| AgentService.GameContext.CreateGameObjectivesTool | openai_agent_service.py:121-174 | refuses when already initialised or given nothing, changing nothing; otherwise numbers the inputs from the counter, advances it by their number, marks the list initialised and sets a consistent quest state |
| AgentService.GameContext.FindObjectiveIndex | openai_agent_service.py:206-215 | the scan returns the position of the first objective carrying the id, and none when no objective carries it |
| AgentService.GameContext.UpdateObjectiveStatusTool | openai_agent_service.py:177-235 | refuses when uninitialised or empty; otherwise the list is the marked list with the same shape and none re-opened; the count is the newly finished; the unknown ids are reported; the quest state is recomputed and consistent |
| AgentService.GameContext.GetObjectivesTool | openai_agent_service.py:238-268 | the objectives when initialised, none otherwise |
| AgentService.FindFirst | openai_agent_service.py:206-215 | the first objective carrying an id is the one the search returns |
| Session.PendingItems | rpg_session.py:119-123 | an item is listed iff it is an unfinished objective |
| Session.PendingItemsAppend | rpg_session.py:119-123 | the reminder keeps list order: the pending items of a concatenation are those of each part, one after the other |
| Session.ReminderFor | rpg_session.py:119-130 | not defined iff uninitialised; pending iff initialised with an unfinished objective, listing exactly the unfinished ones; otherwise all done |
| Session.SummaryFor | rpg_session.py:132-137 | no summary iff there is no previous answer; otherwise a prefix of its narration of at most 150 characters, the whole narration when shorter |
| Session.DirectiveFor | rpg_session.py:102-145 | the theme directive iff no theme is selected yet; the conclusion iff the new turn reaches the maximum; otherwise the continuation carrying the reminder, the summary and the choice |
| Session.Truncate | rpg_session.py:132-136 | the summary is a prefix of the narration of at most 150 characters, and the whole narration when shorter |
| Session.ObjectivesPayload | rpg_session.py:182-198 | one entry per objective, in order, carrying its id, text and finished flag |
| Session.ObjectivesPayloadAsWritten | rpg_session.py:182-190 | as written, a payload exists iff there is no objective, and then it is the intended payload |
| Session.AsWrittenPayloadFails | rpg_session.py:186-190 | as written, building the payload fails iff there is an objective, so it never equals the intended payload |
| Session.AsWrittenPayloadCounterexample | rpg_session.py:186-190 | one unfinished objective makes the as-written payload fail, while the intended one has a single entry |
| Session.AsWrittenTurnLosesStory | rpg_session.py:182-234 | with objectives and an open socket, the as-written turn sends only an error with the turn id, and never the narration the corrected turn sends |
| Session.TurnEvents | rpg_session.py:181-224 | the corrected sends of a successful turn (see Findings): nothing iff disconnected, and at most the four messages; order, content and turn ids in TurnEventsOrdered and TurnEventsContent |
| Session.TurnEventsAsWritten | rpg_session.py:182-234 | as written, nothing is sent iff the socket is closed, and no objectives message ever carries an objective |
| Session.TurnEventsContent | rpg_session.py:182-224 | a turn sends at most four messages, opens with the objectives when connected, and includes the choices iff connected, open and non-empty |
| Session.TurnConclusion | rpg_session.py:200-207 | concluded iff already concluded or the quest is completed; a newly concluded turn has no choices, otherwise they are kept |
| Session.TurnConclusionAsWritten | rpg_session.py:182-207 | with the socket closed or no objectives, the check runs as intended |
| Session.AsWrittenNeverConcludesOnCompletion | rpg_session.py:182-207 | as written, a connected turn with a completed quest keeps the flag and the choices, where the corrected check concludes and empties them |
| Session.TurnEventsOrdered | rpg_session.py:182-224 | a turn's messages come in the order objectives, narration, scene image, choices; there are no choices once concluded; all carry the turn id; nothing is sent with the socket closed |
| Session.RanksIncrease | rpg_session.py:182-224 | runs of at most one message each, of ranks 0 to 3 in turn, are in strictly increasing rank |
| Session.Portraits | rpg_session.py:407-440 | each attached portrait belongs to a listed character other than aurora whose non-empty known path loads |
| Session.PortraitsSnoc | rpg_session.py:407-440 | portraits follow the order of the characters in the scene |
| Session.CollectImages | rpg_session.py:390-440 | the inputs of a scene edit are the previous reference followed by the portraits of the characters in the scene |
| Session.ApplyTool | openai_agent_service.py:120-263 | creation numbers the inputs from the next id (see Numbered), advances the next id past them, sets the flag, and leaves the quest completed iff all are finished and in progress otherwise; it does nothing once initialised or for an empty list; a status update does nothing before creation or with no objectives, keeps the flag, next id and count, and leaves the quest completed iff all are finished; listing changes nothing; the flag is never cleared |
| Session.UpdateFinishingAllCompletes | openai_agent_service.py:176-235 | a status update that finishes every unfinished objective completes the quest |
| Session.ApplyToolsKeepsInvariant | openai_agent_service.py:120-263 | any sequence of tool calls keeps the quest state consistent with the objectives, and keeps the ids distinct |
| Session.ApplyToolsKeepsInitialized | openai_agent_service.py:120-263 | no sequence of tool calls clears the initialised flag; no calls change nothing |
| Session.RunTool | openai_agent_service.py:120-263 | each tool call on the context has exactly the effect ApplyTool gives it |
| Session.RunAgent | openai_agent_service.py:282-331 | the objectives, quest state, initialised flag and next id are those left by the storyteller's tool calls applied in order (ApplyTools); the ids stay distinct and the quest state consistent; the roster is updated only from a structured answer |
| Session.RPGSession.constructor | rpg_session.py:51-84 | a fresh game at turn 0 with no history, no reference image and aurora in the scene |
| Session.RPGSession.BeginTurn | rpg_session.py:102-145 | the first turn stores the theme and sets turn 1; later turns advance the counter and conclude at the maximum; the directive is the theme, continue or conclude directive |
| Session.RPGSession.RecordResponse | rpg_session.py:166-226 | the corrected turn (see Findings): the directive and the answer are appended to the history; the game concludes when the quest completes; the turn's messages are appended |
| Session.RPGSession.SendTurnMessages | rpg_session.py:182-224 | the corrected sends (see Findings): connected, the objectives, the narration when non-empty, the scene image task when there is a prompt, and the choices unless concluded, in that order; nothing when disconnected |
| Session.RPGSession.ProcessUserChoice | rpg_session.py:93-234 | the corrected turn (see Findings): a concluded game changes nothing; otherwise the turn advances, the context is what the tool calls leave, the current fields are cleared; a failed agent call sends one error and keeps the history; a successful one appends both messages, sets the current fields and choices from the answer (no choices once concluded), caches the turn-1 narration once, and appends the turn's ordered messages; the context object and the image state are untouched |
| Session.RPGSession.PlayTurn | rpg_session.py:99-234 | the corrected turn (see Findings): an open game advances its turn and concludes at the maximum even when the call fails; the context is what the tool calls leave; a failed call clears the current fields and sends one error keeping the history; an answer appends both messages, sets the current fields and choices, caches the turn-1 narration once and appends the ordered turn messages |
| Session.RPGSession.RunTurn | rpg_session.py:147-234 | the current fields are cleared and the tool calls applied in order; no answer sends one error and records nothing; an answer is recorded with its current fields, choices, narration cache, conclusion and ordered messages |
| Session.RPGSession.AnswerTurn | rpg_session.py:147-234 | the corrected turn (see Findings): the current fields are cleared; no answer gives one error with the turn id and changes nothing else; an answer appends both messages, sets the current fields and the choices of TurnConclusion, caches the turn-1 narration once, concludes on a completed quest and appends the ordered turn messages |
| Session.RPGSession.StoreResponse | rpg_session.py:163-179 | the history gains the directive then the answer; the current fields take the answer's; turn 1 caches its narration as the objectives explanation once |
| Session.RPGSession.ConcludeOnCompletion | rpg_session.py:200-207 | the flag and choices are those of TurnConclusion: a completed quest concludes the game and empties the turn's choices; otherwise nothing changes |
| Session.RPGSession.Reset | rpg_session.py:236-249 | the turn counters, flags, history and context are cleared, with aurora back in the scene |
| Session.RPGSession.StartGame | rpg_session.py:236-308 | the full reset (turn 0, flags, no stored answer or objectives narration, a fresh context with no objectives, not started, next id 1, aurora alone in the scene); then the intro, the placeholder or the initial image task, and the themes (fallbacks when the configured list does not decode); a missing placeholder stops with an error; a closed socket sends nothing |
| Session.RPGSession.GenerateScene | rpg_session.py:371-486 | without a reference image one error and no service call; otherwise the old reference then the portraits are sent, and the output becomes the new reference only on success |
| Session.RPGSession.GenerateImage | rpg_session.py:310-369 | an empty or unloadable base image gives one error; otherwise the base becomes the reference before the call and the output replaces it on success |
| StreamingSession.IndexOf | app.py:121-147 | the result is the first position at or after the start where the pattern occurs; none means it does not occur there |
| StreamingSession.EarlyPrompt | app.py:121-147 | a prompt is found exactly when the first image-prompt marker is followed by a quote; it is then the text between the marker and that quote, and contains no quote |
| StreamingSession.EarlyPromptNeedsMarker | app.py:121-147 | no marker, no prompt |
| StreamingSession.EarlyPromptNeedsClosingQuote | app.py:121-147 | a marker not yet followed by a quote gives no prompt |
| StreamingSession.EarlyPromptExtend | app.py:121-147 | once found, the early prompt is stable as more tokens arrive |
| StreamingSession.StepChunk | app.py:94-147 | one chunk aborts iff it carries a token while the socket is closed; the trigger, once set, stays; a new trigger is the non-empty early prompt of the buffer, set while connected |
| StreamingSession.RunStream | app.py:94-147 | with the socket open throughout the stream is never aborted |
| StreamingSession.StepChunkInv | app.py:94-147 | one chunk keeps the loop's invariant and, unless it aborts, appends its token to the buffer |
| StreamingSession.RunStreamInvariant | app.py:94-147 | unless aborted, the buffer is every token in order and exactly those were forwarded; at most one image task, whose prompt is the buffer's non-empty early prompt |
| StreamingSession.ConnectedStreamTriggers | app.py:94-147 | with the socket open throughout, nothing aborts and the image task starts iff the whole answer holds a non-empty early prompt |
| StreamingSession.AbortedStaysAborted | app.py:114-119 | after the socket closes mid-stream, later chunks change nothing |
| StreamingSession.ParseFinal | app.py:150-179 | fields iff the answer decodes to an object; not JSON iff it does not decode |
| StreamingSession.ParseFinalStoryJson | app.py:150-169 | a well-formed story answer parses back to its narration, choices and image prompt |
| StreamingSession.ParseFinalDefaults | app.py:150-154 | a missing field takes its default: empty narration, no choices, empty prompt |
| StreamingSession.FinalEvents | app.py:150-188 | at most one message, and one iff connected: the choices iff the answer is an object, otherwise an error with the turn id |
| StreamingSession.ChoiceMessages | app.py:62-170 | the choice is always the first entry; a second, the assistant's answer, only for a completed stream with the socket open |
| StreamingSession.ChoiceEvents | app.py:80-188 | a failed call sends at most one message; otherwise the stream's forwarded tokens and image trigger come first |
| StreamingSession.ChoiceTasks | app.py:94-147 | at most one task is added |
| StreamingSession.AllCancelled | app.py:111-118 | the same tasks in the same order, each with its cancelled flag set and nothing else changed |
| StreamingSession.RPGSession.constructor | app.py:42-52 | the history starts with the system prompt and the opening request; no tasks, no messages sent |
| StreamingSession.RPGSession.CancelBackgroundTasks | app.py:111-118 | every background task of the session is cancelled |
| StreamingSession.RPGSession.StreamTokens | app.py:94-147 | the loop's buffer, forwarded tokens and started tasks are those of the stream function; a closed socket cancels every task and stops |
| StreamingSession.RPGSession.StreamChunk | app.py:95-147 | one chunk moves the buffer, the sent messages, the trigger and the tasks as StepChunk does; a token on a closed socket cancels every task |
| StreamingSession.RPGSession.ProcessUserChoice | app.py:62-188 | the choice is appended first; a failed call sends one error without turn id; a completed stream is parsed and, while connected, the choices sent and the answer appended; a parse failure sends one error with the turn id; a stream that raises mid-way skips the parse and escapes iff it had not aborted; messages, events and tasks are those of ChoiceMessages, ChoiceEvents and ChoiceTasks |
| StreamingSession.RPGSession.ApplyFinal | app.py:150-188 | the answer parsed with defaults: while connected, the choices sent and the answer appended, or one error with the turn id; the current fields take the parsed ones only for an object |
| Registry.ClassifyInput | app.py:305-323 | undecodable text is invalid JSON; a non-object crashes the handler; an object is processed iff its choice is truthy and its turn id present and not null |
| Registry.EmptyChoiceIgnored | app.py:309-316 | a message without a choice, or with an empty one, is ignored |
| Registry.SessionRegistry.Connect | app.py:293-296 | a known id gets its existing session; a new id gets a fresh one, registered |
| Registry.SessionRegistry.Cleanup | app.py:324-336 | the session's tasks are cancelled and its entry removed; an unknown id changes nothing |
| Registry.SessionRegistry.HandleInput | app.py:303-346 | a dispatched choice appends exactly what the session call appends (the choice first, then its messages and tasks); the connection closes, with the session cleaned up and its tasks cancelled, iff the message is not an object or the stream raised mid-way; invalid JSON sends one error without turn id; ignored messages change nothing |
| NarrationSpec.Slide | static/script.js:179-182 | the window is a suffix of the old window plus the character, never longer than the 14-character pattern, and exactly that long once enough characters were seen |
| NarrationSpec.Step | static/script.js:160-191 | one character adds at most itself to the narration and never changes what was emitted; nothing is emitted outside narration mode |
| NarrationSpec.Feed | static/script.js:164-190 | the character loop over a token: the narration grows by at most one character per character fed |
| NarrationSpec.FeedNarrationGrows | static/script.js:164-190 | feeding a text never takes back emitted narration: what was emitted stays a prefix |
| NarrationSpec.StepCompletes | static/script.js:178-188 | the character completing the pattern enters narration mode with the window cleared |
| NarrationSpec.FeedEscapedChar | static/script.js:167-177 | in narration, one escaped character emits exactly that character |
| NarrationSpec.FeedAppend | static/script.js:160-191 | how the answer is split into tokens does not change what the extractor produces |
| NarrationSpec.WindowBounded | static/script.js:164-190 | the window never exceeds the pattern length, is empty in narration mode, and is a suffix of everything fed (which suffix: FeedOutsideNarration) |
| NarrationSpec.EnterNarration | static/script.js:178-188 | one step enters narration mode exactly when the window plus the character ends with the pattern, clearing the window and the escape flag |
| NarrationSpec.Recent | static/script.js:179-182 | the last 14 characters of a text, or all of it when shorter |
| NarrationSpec.FeedOutsideNarration | static/script.js:164-190 | outside narration, while the characters seen never complete the pattern, the parser only slides its window, which is then exactly the last 14 characters seen (all of them while fewer) |
| NarrationSpec.FeedEntersNarration | static/script.js:178-188 | over a text that has not completed the pattern, the next character enters narration mode, with the window cleared and nothing emitted, iff everything seen now ends with the pattern; otherwise the window is the last 14 characters |
| NarrationSpec.QuoteFreeNoEarlyMatch | static/script.js:178-188 | after a window without a double quote, no proper prefix of the pattern completes it |
| NarrationSpec.FeedPattern | static/script.js:178-188 | outside narration, with a quote-free window, the pattern enters narration mode with the window cleared and nothing emitted |
| NarrationSpec.EscapedCharacter | static/script.js:167-172 | in narration a backslash is dropped and the next character emitted verbatim |
| NarrationSpec.ClosingQuote | static/script.js:173-174 | in narration an unescaped quote ends the mode and is not emitted |
| NarrationSpec.FeedEscaped | static/script.js:167-177 | in narration, a text escaping only `"` and `\` emits exactly the original text |
| NarrationSpec.NarrationRoundTrip | static/script.js:164-190 | outside narration with a quote-free window (such as `{`), feeding a narration field whose value escapes only `"` and `\` emits exactly that value and leaves narration mode with the window cleared |
| NarrationSpec.AnswerNarrationRoundTrip | static/script.js:164-190 | a fresh parser fed an answer that opens with quote-free text such as `{` (as `json.dumps` writes at app.py:221-225), then the narration field, emits exactly the narration |
| ClientView.NarrationClient.constructor | static/script.js:7-27 | the counter starts at 0 with a cleared parser and nothing sent |
| ClientView.NarrationClient.ResetNarrationParsingState | static/script.js:150-157 | the raw text, the parser and the cursor are cleared |
| ClientView.NarrationClient.CreateNewTurnElement | static/script.js:100-147 | the new element's id is the counter, which then moves on by one |
| ClientView.NarrationClient.OnOpen | static/script.js:44-51 | the connection is up, the counter restarts, element 0 is created, the buttons, raw text, parser state and cursor are cleared |
| ClientView.NarrationClient.OnClose | static/script.js:53-61 | the history log is cleared |
| ClientView.NarrationClient.HandleTextMessage | static/script.js:160-191 | an empty token, or one with no turn element, changes nothing; otherwise the raw text grows by the token and the parser is the extractor fed with it |
| ClientView.NarrationClient.ConsumeChar | static/script.js:164-190 | one character is one extractor step |
| ClientView.NarrationClient.ConsumeToken | static/script.js:164-190 | the parser becomes the extractor fed with the token; the cursor shows iff it showed or narration was emitted |
| ClientView.NarrationClient.SlideWindow | static/script.js:178-188 | outside narration, one character is one extractor step on the window |
| ClientView.NarrationClient.AppendNarrationChar | static/script.js:167-177 | the character is appended to the narration and the cursor shows |
| ClientView.NarrationClient.HandleChoicesMessage | static/script.js:253-310 | parsing stops, the cursor goes, and one button per choice is rendered in order carrying the counter's current value |
| ClientView.NarrationClient.ClickChoice | static/script.js:284-305 | while connected the choice is sent with the id captured by its button, which is the id of the turn element created next; the counter moves on, the buttons, raw text, parser and cursor are cleared; while disconnected nothing changes |

## Left out

- Websocket I/O is reduced to a `connected` flag. Send failures other than a closed socket are not modelled.
- The asyncio scheduling is left out, and so are the tasks' done-callbacks and the running of background tasks. A task is a record whose `cancelled` flag is set.
- The agent framework, the OpenAI chat and image APIs and JSON decoding are inputs, not models. They appear as a recorded agent run, the streamed chunks of a call, an image-edit function and a decoding function.
- Base64, the image library and file loading are functions from a path to an optional image.
- The wording of directives, reminders, style guides and image prompts is left out. A directive is a datatype carrying the same information.
- The debug branch of `generate_scene` that repeats the previous image (rpg_session.py:373-378) is left out.
- The summary's fallback branches for a stored answer that is a dict or JSON text are left out. The stored answer is always a story response there.
- app.py's `start_game` and `generate_image` are left out. They stream a fixed greeting and make a foreign image call, with no logic beyond the parts modelled in `Session`.
- JSON numbers are integers. Floats are not modelled.
- Registry.SessionRegistry.HandleInput: a valid message whose choice is not a string, or whose turn id is not an integer, is accepted but not passed on. Python would pass it on as it is.
- Session.RPGSession.GenerateImage: the fixed prefix added to the prompt is not modelled.
- `update_game_objectives_tool` is not in the agent's tool list. It is modelled as a `GameContext` method all the same.
- AgentService.GameContext.UpdateObjectiveStatus: like the source, it does not recompute the quest state, so it does not keep the quest state consistent.
- NarrationSpec.Escape: only `"` and `\` are escaped. The extractor turns any other JSON escape (`\n`, `\t`, `\uXXXX`) into the bare letter after the backslash, so the round trip is stated for this escaping only.
- NarrationSpec.NarrationRoundTrip: stated for a window without a double quote, which covers an answer whose narration field comes first after `{`. A narration field that follows other quoted keys is not covered.
- Session.RunAgent: for a plain-text answer the scene roster is not updated, as in the source.
- The client's rendering is left out: markdown formatting, the final narration sync from the full JSON, images, errors and scrolling.
- JavaScript strings are UTF-16 code units, while the model's strings are sequences of Dafny characters.

## Findings

| source | as written | input that shows it | evidently intended | confidence | as-written member | corrected member |
|---|---|---|---|---|---|---|
| rpg_session.py:186-190 | the objectives message reads `target_count`, `current_count` and `partially_complete`, which `Objective` (openai_agent_service.py:15-18) does not declare, so the attribute access raises; the handler at rpg_session.py:229-234 then sends only an error, after the history was already appended | a connected turn with objectives `[Objective(1, "find the key", false)]` | one entry per objective with its id, text and finished flag, then the narration, the scene image and the choices | high, not executed | Session.TurnEventsAsWritten | Session.TurnEvents |
| rpg_session.py:182-207 | the conclusion check on a completed quest comes after the objectives message, which raises whenever there is an objective (see the row above); a completed quest always has objectives, so while connected the check never runs | a connected turn whose storyteller finishes the only objective `Objective(1, "find the key", true)` | the game concludes on the turn the quest completes and no choices are sent | high, not executed | Session.AsWrittenNeverConcludesOnCompletion | Session.TurnConclusion |
