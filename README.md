# Hospital voice agent: connection hook and connect relay

This project models the two halves of the hospital voice agent's call set-up and
live transcript.

**The browser hook `usePipecatConnection`** tracks who is talking: the bot, the user, or
nobody while a reply is awaited. It turns the bot's streamed LLM text into a word-by-word
transcript paced at 250 ms a word. Only the last 18 words are shown. When no LLM text
arrives, it falls back to the TTS text. It heals itself from audio energy when speaking
events are lost, and it clears stale state once a second.
- `PipecatState` holds every ref and state cell of the hook as one `EngineState` value,
  with one function per event handler.
- Each `setTimeout` becomes a pending `Timer` record, and `Fire` is the event loop running
  one of them.
- `PipecatConnection.Engine` is the same hook as a class. Its fields are updated in place,
  and each method is proved to move them exactly as the matching function says.
- `PipecatState.Inv` is the invariant every handler and every timer keeps. It covers the
  word ids, the display bound, the handles tracked by the timer refs, and the pacing of
  every pending reveal.
- `PipecatProperties` states what the transcript scheduler promises.

**The Express relay's `POST /api/connect`** does the following:
- It reads `voiceAgentName` from the query or the body.
- It builds the request key, `name-JSON(query)`.
- It drops duplicates of a request that is less than 2000 ms old by sharing its promise.
- It builds the upstream `customBody`.
- It normalizes the upstream answer to `room_url`/`token`.
- It deletes the key 2000 ms after a success, or at once after a failure.
- A 5-second sweep drops entries older than the window.

The relay's parts are split as follows:
- `Json` and `Relay` hold its pure parts: truthiness and `||`, `JSON.stringify` of the
  query with a parser proved to invert it, field selection and normalization.
- `RelayTable` is the `inFlightRequests` map and the promises stored in it, as a value. The
  async handler is cut at its `await`s into phases:
  - `Arrive`: the request comes in.
  - `Resume`: a duplicate continues after the promise it awaited settles.
  - `Complete`: the caller continues after its upstream call ends.
- `RelayServer.Server` is the same table as a class whose methods update the map in place.

Time is an explicit `now` parameter everywhere. The SDK's transport, the upstream `fetch`
and the audio analyser are parameters: a `TransportState`, an `Upstream` outcome, and an
integer `level`.

## Model

| member | source | states |
|---|---|---|
| Agents.AgentId | types.ts:1-9 | every agent travels under a non-empty name |
| Agents.AgentIdInjective | types.ts:1-9 | distinct agent types travel under distinct names |
| Words.SplitJoin | hooks/usePipecatConnection.ts:123-125 | splitting the space-joined display text gives back exactly the words joined |
| Words.SplitTrim | hooks/usePipecatConnection.ts:251-252 | trimming a fragment never changes the words it splits into |
| Words.SplitSeparated | hooks/usePipecatConnection.ts:93 | a whitespace character separates the words on its left from those on its right |
| Words.Window | hooks/usePipecatConnection.ts:123-124 | `slice(-18)` keeps the last min(18, n) items, as a suffix |
| Words.Numbered | hooks/usePipecatConnection.ts:111-114 | words numbered from the counter keep their order, and their ids run consecutively |
| Timers.EarliestDue | hooks/usePipecatConnection.ts:122-133 | the event loop runs the due timer with the smallest due time, and among equal ones the earliest created; it answers -1 exactly when nothing is due |
| Timers.EarliestDueUnique | hooks/usePipecatConnection.ts:122-133 | only one timer is the next to run |
| Timers.Cancel | hooks/usePipecatConnection.ts:78-79 | `clearTimeout(h)` removes exactly the pending timer with handle h |
| PipecatProperties.AppendLlmTextWords | hooks/usePipecatConnection.ts:255-262 | the words of the accumulated LLM text are the old words followed by the fragment's words, so counting processed words finds exactly the new ones |
| PipecatProperties.ProcessNewLlmWordsSchedules | hooks/usePipecatConnection.ts:92-139 | the words past the processed count are appended with a reveal timer each, paced from the speech start; the count becomes the word total; nothing happens when there are no new words |
| PipecatProperties.BatchSchedules | hooks/usePipecatConnection.ts:111-139 | the forEach over new words appends them in order, with one reveal timer each and handles in sequence |
| PipecatProperties.ProcessNewLlmWordsIdempotent | hooks/usePipecatConnection.ts:97-101 | processing the same text twice schedules nothing the second time |
| PipecatProperties.StreamStep | hooks/usePipecatConnection.ts:92-139 | when the scheduled words are a prefix of the text's words, processing the text schedules the rest after them, one reveal timer each, keeping the invariant |
| PipecatProperties.StreamingSchedulesEachWordOnce | hooks/usePipecatConnection.ts:92-139 | growing texts "a", "a b", "a b c" schedule each word exactly once (three timers in all) |
| PipecatProperties.HelloWorldTodayStream | hooks/usePipecatConnection.ts:92-139 | the stream "hello", "hello world", "hello world today" yields exactly those three words |
| PipecatProperties.WordTimersPaced | hooks/usePipecatConnection.ts:117-119 | word i's reveal fires at max(now, start + 250·i); the due times never decrease, and handles are consecutive |
| PipecatProperties.LlmTextSchedulesFragment | hooks/usePipecatConnection.ts:251-283 | while the bot speaks in LLM mode, a fragment schedules exactly its own words, after those already scheduled, and the word list stays in step with the accumulated text |
| PipecatProperties.BatchAppends | hooks/usePipecatConnection.ts:111-139 | scheduling a text that extends the scheduled words appends just the extension |
| PipecatProperties.LlmTextWhileSilent | hooks/usePipecatConnection.ts:255-265 | while the bot is silent, text only accumulates: no timer, word or display change |
| PipecatProperties.LlmTextLeavesFallback | hooks/usePipecatConnection.ts:266-282 | LLM text in TTS fallback mode leaves fallback, re-anchors timing at now, cancels the old reveals, keeps the other timers, and schedules the whole accumulated text |
| PipecatProperties.LlmTextFromScratch | hooks/usePipecatConnection.ts:92-139 | from an empty turn, the words scheduled are exactly the text's words |
| PipecatProperties.CumulativeAccumulation | hooks/usePipecatConnection.ts:255-262 | cumulative fragments "a", "a b", "a b c" accumulate to the words a a b a b c |
| PipecatProperties.CumulativeFragmentsRepeatWords | hooks/usePipecatConnection.ts:251-283 | if the LLM sends cumulative fragments while the bot speaks, the transcript schedules the repeated words a a b a b c |
| PipecatProperties.RevealShowsPrefix | hooks/usePipecatConnection.ts:122-133 | a firing reveal for word i shows the words up to i (at most the last 18, ending with word i) and removes its handle from the word-timer ref |
| PipecatProperties.FirstBatchShowsFirstWord | hooks/usePipecatConnection.ts:141-147 | the first batch shows its first word at once |
| PipecatProperties.BotStartedEffects | hooks/usePipecatConnection.ts:152-183 | bot-started sets speaking, clears user speaking and waiting, re-anchors at now, and cancels the clear and old reveal timers; with LLM text it schedules that text, otherwise it arms the 200 ms fallback timer |
| PipecatProperties.BotStartedWithText | hooks/usePipecatConnection.ts:165-170 | with text at speech start the transcript is in step with the text and no clear timer is pending |
| PipecatProperties.BotStoppedEffects | hooks/usePipecatConnection.ts:185-226 | bot-stopped sets waiting, leaves the reveal timers running, and replaces any clear timer by one due after the remaining word time plus 2000 ms, never before the last word's target |
| PipecatProperties.ClearTimerFires | hooks/usePipecatConnection.ts:216-225 | the deferred clear empties the transcript unless the bot speaks again, and always forgets its ref |
| PipecatProperties.ArmFallbackFires | hooks/usePipecatConnection.ts:175-181 | the fallback timer turns on TTS mode exactly when there is still no LLM text, the bot speaks, and nothing was scheduled |
| PipecatProperties.UserStartedEffects | hooks/usePipecatConnection.ts:330-357 | user-started sets user speaking, clears the transcript, the text, the word list and the counters, and cancels the reveal and clear timers, keeping the others |
| PipecatProperties.UserStoppedSettles | hooks/usePipecatConnection.ts:236-246 | user-stopped arms a 300 ms settle timer; fired with no event in between, it ends the user's turn unless the bot was speaking |
| PipecatProperties.SettleTimerFires | hooks/usePipecatConnection.ts:239-245 | whenever the settle timer fires, it ends the user's turn if the bot is not speaking at that moment and otherwise leaves the activity alone; nothing else but the timer queue changes |
| PipecatProperties.TtsTextIgnored | hooks/usePipecatConnection.ts:322-326 | outside fallback-while-speaking, TTS text changes nothing |
| PipecatProperties.TtsTextAppends | hooks/usePipecatConnection.ts:294-321 | in fallback while speaking, TTS words are appended (after a reset on a new response) and shown at once, the last 18 of them |
| PipecatProperties.LoudSampleForcesSpeaking | hooks/usePipecatConnection.ts:816-831 | audio above 12 while nobody speaks forces the bot-speaking state |
| PipecatProperties.SilenceForcesStop | hooks/usePipecatConnection.ts:833-852 | more than 3500 ms without bot audio while speaking forces bot-stopped and arms a 1500 ms clear unless one is pending |
| PipecatProperties.QuietSampleNoChange | hooks/usePipecatConnection.ts:816-852 | a quiet sample with no silence timeout changes nothing |
| PipecatProperties.JanitorClearsStale | hooks/usePipecatConnection.ts:930-956 | the janitor clears user speaking after 3000 ms without user activity, and clears a transcript untouched for 8000 ms while nobody speaks; nothing else changes |
| PipecatProperties.ConnectGuard | hooks/usePipecatConnection.ts:966-1021 | connect calls the SDK exactly when there is a client and it is neither connecting nor connected; failure records the message (or the default) and drops the connecting flag |
| PipecatProperties.ConnectNoDuplicate | hooks/usePipecatConnection.ts:973-983 | a second connect after a successful call makes no second SDK call |
| PipecatProperties.DisconnectResets | hooks/usePipecatConnection.ts:1023-1057 | a successful disconnect resets every flag, counter and timestamp, empties the transcript and cancels every reveal and clear timer, keeping the invariant |
| PipecatState.RemoveFirst | hooks/usePipecatConnection.ts:131-132 | indexOf and splice remove one occurrence of a present handle and leave an absent one alone |
| PipecatState.StepInv | hooks/usePipecatConnection.ts:152-357 | every event handler keeps the invariant: ids are positions, the display holds at most 18 consecutive ids, the timer refs hold exactly the pending reveal and clear handles, and every pending reveal is for a scheduled word and not earlier than its paced time |
| PipecatState.FireInv | hooks/usePipecatConnection.ts:122-133 | every timer callback keeps the invariant |
| PipecatState.TransportChangedInv | hooks/usePipecatConnection.ts:57-66 | a transport change keeps the invariant |
| PipecatProperties.TransportChangedEffects | hooks/usePipecatConnection.ts:398-417 | the transport is recorded; the connecting flag drops exactly for connected, ready, error and disconnected; the activity flags and timestamps are reset exactly when the transport leaves the connected states; transcript, display and timers are untouched |
| PipecatState.ConnectInv | hooks/usePipecatConnection.ts:966-1021 | connect keeps the invariant |
| PipecatState.DisconnectInv | hooks/usePipecatConnection.ts:1023-1062 | disconnect keeps the invariant |
| PipecatConnection.Engine.constructor | hooks/usePipecatConnection.ts:25-52 | the hook mounts in the initial state, which satisfies the invariant |
| PipecatConnection.Engine.ResetForNewResponse | hooks/usePipecatConnection.ts:73-88 | the fields end as the reset function says: word list, counters and reveal timers cleared, the clear timer cancelled, timing re-anchored |
| PipecatConnection.Engine.ProcessNewLlmWords | hooks/usePipecatConnection.ts:92-150 | the fields end as the scheduling function says |
| PipecatConnection.Engine.ScheduleNewWords | hooks/usePipecatConnection.ts:111-136 | the loop schedules word after word as the function says |
| PipecatConnection.Engine.BotStarted | hooks/usePipecatConnection.ts:152-183 | the fields end as the handler function says |
| PipecatConnection.Engine.BotStopped | hooks/usePipecatConnection.ts:185-226 | the fields end as the handler function says |
| PipecatConnection.Engine.UserStarted | hooks/usePipecatConnection.ts:330-357 | the fields end as the handler function says |
| PipecatConnection.Engine.UserStopped | hooks/usePipecatConnection.ts:236-246 | the fields end as the handler function says |
| PipecatConnection.Engine.LlmText | hooks/usePipecatConnection.ts:251-284 | the fields end as the handler function says |
| PipecatConnection.Engine.TtsText | hooks/usePipecatConnection.ts:286-327 | the fields end as the handler function says; the loop shows word after word |
| PipecatConnection.Engine.AudioSample | hooks/usePipecatConnection.ts:816-852 | the fields end as the self-heal function says |
| PipecatConnection.Engine.JanitorTick | hooks/usePipecatConnection.ts:930-956 | the fields end as the janitor function says |
| PipecatConnection.Engine.Dispatch | hooks/usePipecatConnection.ts:361-366 | each event reaches its handler, and the invariant is kept |
| PipecatConnection.Engine.IndexOf | hooks/usePipecatConnection.ts:131 | the first position of the handle, or -1 exactly when it is absent |
| PipecatConnection.Engine.FireNext | hooks/usePipecatConnection.ts:122-133 | runs the earliest due timer's callback, or nothing when none is due, and keeps the invariant |
| PipecatConnection.Engine.TransportChanged | hooks/usePipecatConnection.ts:57-66 | the fields change as TransportChanged says, whose effects TransportChangedEffects states: the connecting flag drops once the transport settles, and leaving the connected states resets the speaking flags |
| PipecatConnection.Engine.Connect | hooks/usePipecatConnection.ts:966-1021 | the guards as ConnectGuard states; when the SDK is called, it is called with the query voiceAgentName, systemInstruction, voiceName |
| PipecatConnection.Engine.Disconnect | hooks/usePipecatConnection.ts:1023-1062 | the fields end as the disconnect function says, and the invariant is kept |
| Json.Or | server/index.ts:148-153 | JavaScript `a or b` is truthy iff either is, and is a when a is truthy, b otherwise |
| Json.Get | server/index.ts:217-225 | a property read is present exactly for an object that has the key |
| Json.QueryJsonRoundTrip | server/index.ts:123 | the JSON text of a string-valued query parses back to the same query |
| Json.QueryJsonInjective | server/index.ts:123 | distinct queries give distinct JSON texts |
| Relay.QueryGet | server/index.ts:148-153 | a query parameter is present iff some pair has the key, and it is a string |
| Relay.AgentName | server/index.ts:106 | the agent name is truthy iff the query's or the body's is, and the query's wins when truthy |
| Relay.KeyInjective | server/index.ts:123 | for names without '-', equal request keys mean equal names and equal queries |
| Relay.TruthySelection | server/index.ts:170-174 | an optional property is present iff its selected value is truthy, and carries that value |
| Relay.UpstreamBody | server/index.ts:147-177 | customBody has the request's name, every body field except voiceAgentName, and each other optional field iff its query-or-body selection is truthy |
| Relay.BodyOverridesQuery | server/index.ts:167-177 | a body field overrides the query value selected for the same property |
| Relay.Normalize | server/index.ts:215-227 | room_url is room_url when truthy and otherwise dailyRoom, and token is token when truthy and otherwise dailyToken (JavaScript or); sessionId and the name are copied; a null answer fails |
| Relay.DailyFieldsNormalize | server/index.ts:215-218 | an answer with dailyRoom and dailyToken normalizes to the same credentials as one with room_url and token |
| Relay.NormalizeIdempotent | server/index.ts:215-227 | the relay's own answer normalizes to itself |
| Relay.ReplyJson | server/index.ts:275-286 | the status is 200 exactly for success, 400 exactly for a missing name and 500 otherwise; an error property is present exactly when not 200, with the missing-name message for 400 and "Failed to start agent" plus the failure message as details for 500 |
| Relay.OkBodyCarriesCredentials | server/index.ts:222-227 | the 200 body holds room_url, token, sessionId and voiceAgentName from the credentials, omits absent ones, and normalizes back to the same credentials |
| Relay.WidgetRequestRelayed | server/index.ts:147-177 | a widget request relays its agent's id, and its instruction and voice exactly when non-empty |
| Relay.WidgetFields | server/index.ts:147-153 | from a widget request the relay selects the instruction and the voice exactly when non-empty, and no phone, user name or order id |
| Relay.WidgetKeys | server/index.ts:123 | two widget requests share a key iff they have the same agent, instruction and voice |
| Relay.AgentIdNoDash | server/index.ts:123 | agent names hold no '-', so key splitting applies to them |
| RelayTable.Issue | server/index.ts:145-236 | a new call stores an entry with the current time and a new pending promise under the key, and sends the start payload |
| RelayTable.Arrive | server/index.ts:102-143 | 400 iff no truthy name; awaiting iff the key's entry is less than 2000 ms old; otherwise the entry is replaced by a fresh one, the deletion timers are untouched, and upstream is called with the request's name and start payload |
| RelayTable.Resume | server/index.ts:131-138 | a fulfilled promise answers 200 with its credentials; a rejected one deletes the key and calls upstream anew, leaving the deletion timers alone |
| RelayTable.Settle | server/index.ts:192-230 | the promise fulfils exactly when upstream answered with non-null data, with the normalized credentials |
| RelayTable.Complete | server/index.ts:239-287 | success answers 200 and arms a deletion 2000 ms later; failure deletes the key at once and answers 500 with the message; a truthy room URL that is not a string makes the success log throw, so the key is deleted at once and 500 is answered although the promise fulfilled |
| RelayTable.FireDeletion | server/index.ts:270-272 | a deletion removes the key's entry and its own timer |
| RelayTable.Unexpired | server/index.ts:82-89 | the sweep keeps a subset of the entries, unchanged |
| RelayTable.StepInv | server/index.ts:102-287 | every phase keeps the invariant: entries point at existing promises, and deletion handles are distinct, ascending and below the next handle |
| RelayTable.CancelAscending | server/index.ts:270-272 | removing a timer keeps the handles ascending |
| RelayProperties.DuplicateWithinWindow | server/index.ts:125-133 | a repeat of the same key within 2000 ms awaits the first call's promise and leaves the table alone |
| RelayProperties.RepeatAfterWindow | server/index.ts:139-142 | a repeat 2000 ms or more later calls upstream again with a new promise |
| RelayProperties.WidgetConnectDeduplicated | server/index.ts:123-133 | a double connect from the widget within 2000 ms makes one upstream call |
| RelayProperties.DuplicateSharesOutcome | server/index.ts:131-138 | a duplicate gets the caller's reply on success; after a 500 it calls upstream itself when the promise was rejected, and gets 200 with the credentials when only the success log threw |
| RelayProperties.NumericRoomUrlSplitsOutcome | server/index.ts:243-250 | for an answer whose room_url is the number 5 the caller gets 500 and loses its key, while an awaiting duplicate gets 200 |
| RelayProperties.RetriesNotShared | server/index.ts:134-138 | duplicates of a failed call each call upstream with their own promise |
| RelayProperties.SuccessEntryDeleted | server/index.ts:268-272 | after a success the key's deletion is due 2000 ms later, and running it removes the entry |
| RelayProperties.SweepDropsStale | server/index.ts:82-89 | the sweep deletes exactly the entries more than 2000 ms old |
| RelayProperties.SweepCommutes | server/index.ts:82-89 | sweeping before a later request equals handling it first and sweeping after |
| RelayProperties.SweepInvisible | server/index.ts:82-89 | a sweep never changes what a later request does |
| RelayServer.Server.constructor | server/index.ts:78 | the table starts empty, satisfying the invariant |
| RelayServer.Server.Connect | server/index.ts:102-143 | the map changes in place exactly as Arrive says, and the invariant is kept |
| RelayServer.Server.Resume | server/index.ts:131-138 | the map changes in place exactly as Resume says, and the invariant is kept |
| RelayServer.Server.Complete | server/index.ts:239-287 | the map changes in place exactly as Complete says, and the invariant is kept |
| RelayServer.Server.FireNext | server/index.ts:270-272 | runs the earliest due deletion, or nothing when none is due |
| RelayServer.Server.Sweep | server/index.ts:82-89 | the loop over the keys deletes exactly the stale entries, as Sweep says |

## Notes on the model

- **LLM fragments are appended, not replaced.** `botLlmText` appends every fragment to the
  accumulated text (hooks/usePipecatConnection.ts:255-262), as the code does. A design that
  expects each fragment to be the whole text so far therefore repeats words.
  `CumulativeFragmentsRepeatWords` shows this: "a", "a b", "a b c" schedule a a b a b c.
- **One field per ref-and-state pair.** The React state cells and their ref twins
  (`isSpeaking`/`isSpeakingRef`, and so on) are always set together in the modelled code, so
  each pair is one field.
- **Deletions remove whatever holds the key.** The deletion timer, the error path and a
  failed duplicate all delete by key, so they can remove a newer entry under the same key.
  The model keeps that behaviour.
- **The body's fields win.** The request body's own fields override the query-selected
  values in `customBody`, because `...otherData` comes last (`BodyOverridesQuery`).
- **The widget sends an empty body.** The SDK call carries `requestData: {}`, so a widget
  request is its query with an empty body (`WidgetRequest`).
- **The success log can fail a successful call.** The log at server/index.ts:247 calls
  `substring` on the room URL whenever it is truthy. A room URL that is a number, a boolean,
  an array or an object makes it throw after the stored promise has fulfilled. The caller
  then deletes its key and answers 500, while duplicates awaiting the promise answer 200
  (`NumericRoomUrlSplitsOutcome`).
- **Failures are not shared.** A duplicate whose awaited promise failed calls upstream with
  its own promise. Such retries are not deduplicated against each other (`RetriesNotShared`).

## Left out

- Query values: only strings are modelled. Arrays and nested objects from the query-string
  parser, repeated keys, and JavaScript's integer-like-keys-first property order are left
  out. The model keeps the query in arrival order.
- JSON numbers: only integers are modelled, not floating point. Lone surrogates in strings
  are not represented.
- `express.json()`: the request body is assumed to be an object.
- Upstream: `fetch`, the HTTP status check, reading the body and `JSON.parse` are one
  `Upstream` outcome parameter, either `Answered(data)` or `Unavailable(message)`.
- Express plumbing: CORS, dotenv, the health and test routes, logging, the 404 route, the
  headers and `API_BASE_URL` are not part of this model. Only the one log call that can throw is
  modelled, in `RelayTable.Complete`.
- `RelayTable.Complete`: a failed upstream call also rejects the promise stored in the table
  (server/index.ts:235). Unless a duplicate is awaiting it, nothing handles that rejection.
  Under Node's default for unhandled rejections the process would then end and lose the
  whole table. The model does not model the process ending: after the 500 it keeps serving
  with the key removed.
- `RelayServer.Server.Sweep`: the 5000 ms interval is the caller's schedule. The model
  covers one sweep run.
- Audio: the analyser, `requestAnimationFrame`, the AudioContext, the DOM audio elements
  and the fallback visualizer's random volume are left out.
  - The self-heal step takes an integer energy `level`.
  - `volume` is a float and is not modelled.
- The SDK: the client object and the transport are parameters. Event registration and
  cleanup are reduced to `Dispatch`. `hasClient` stands for `client` being set.
- Connect and disconnect outcomes: `startBotAndConnect` and `client.disconnect` are reduced
  to a `CallOutcome`. `Connect` returns the query the SDK is called with.
- Timer order: timers run earliest due first, and ties go in creation order. Clock
  granularity and the browser's timer clamping are left out.
- `RelayTable.Unexpired`: its contract says only that a subset is kept, unchanged. Exactly
  which entries stay is stated by `RelayProperties.SweepDropsStale`.
