/** The turn-state and transcript-scheduling engine of `usePipecatConnection`,
    as a value and one function per handler. Each handler takes the current
    time explicitly; every `setTimeout` becomes a pending timer record and the
    event loop running a due record is `Fire`. The class in
    pipecat_connection.dfy updates its fields exactly as these functions say. */
module PipecatState {
  import opened Wrappers
  import opened Words
  import opened Timers

  const MsPerWord := 250
  const MaxDisplayWords := 18
  const FallbackArmDelayMs := 200
  const UserSettleDelayMs := 300
  const ClearPauseMs := 2000
  const SilenceClearDelayMs := 1500
  const BotAudioThreshold := 12
  const BotSilenceLimitMs := 3500
  const UserStaleMs := 3000
  const TranscriptStaleMs := 8000

  /** The transport states the client SDK reports. */
  datatype TransportState =
    | Disconnected | Initializing | Initialized | Authenticating | Authenticated
    | Connecting | Connected | Ready | Disconnecting | Error

  predicate IsConnected(t: TransportState) {
    t == Connected || t == Ready
  }

  /** What a pending timer runs when it fires. */
  datatype Callback =
    | ShowWord(index: nat)   // reveal the transcript up to word `index`
    | ClearTranscript        // the deferred clear after the bot stops
    | ArmFallback            // switch to TTS text if no LLM text arrived
    | SettleUser             // end the user's turn after the settle delay

  /** The connection status: the transport state the SDK reports, the
      `isConnectingRef` guard and the `error` state cell. */
  datatype Status = Status(transport: TransportState, isConnecting: bool, error: Option<string>)

  /** Who is talking: the speaking flags (ref and state cell move together)
      and the last time each side was heard. */
  datatype Activity = Activity(isSpeaking: bool, isUserSpeaking: bool, isWaitingForResponse: bool,
                               lastBotAudioActivity: int, lastUserActivity: int)

  /** The refs that build the current bot response word by word. */
  datatype Turn = Turn(useTtsFallback: bool, isNewResponse: bool, wordIdCounter: nat,
                       processedWordCount: nat, wordsWithIds: seq<StreamedWord>, llmText: Option<string>,
                       speechStartTime: int)

  /** What the transcript shows and when it last changed. */
  datatype Display = Display(assistantText: Option<string>, assistantWords: seq<StreamedWord>,
                             lastTranscriptUpdate: int)

  /** Every ref and state cell of the hook, gathered by concern, plus the
      word and clear timer refs and the event loop's pending timers with the
      next handle it gives out. */
  datatype EngineState = EngineState(
    status: Status,
    activity: Activity,
    turn: Turn,
    display: Display,
    wordDisplayTimeouts: seq<nat>,
    transcriptClearTimeout: Option<nat>,
    pending: seq<Timer<Callback>>,
    nextHandle: nat)

  /** The state when the hook mounts. */
  function Initial(): EngineState {
    EngineState(Status(Disconnected, false, None), Activity(false, false, false, 0, 0),
                Turn(false, true, 0, 0, [], None, 0), Display(None, [], 0), [], None, [], 0)
  }

  /** JavaScript truthiness of a string that may be `null`. */
  predicate Truthy(o: Option<string>) {
    o.Some? && o.value != ""
  }

  function Max(a: int, b: int): int {
    if a < b then b else a
  }

  // ---------------------------------------------------------------------------
  // Timer bookkeeping

  function Elems(hs: seq<nat>): set<nat> {
    set h | h in hs
  }

  function OptSet(o: Option<nat>): set<nat> {
    if o.Some? then {o.value} else {}
  }

  function ShowHandles(p: seq<Timer<Callback>>): set<nat> {
    set t | t in p && t.kind.ShowWord? :: t.handle
  }

  function ClearHandles(p: seq<Timer<Callback>>): set<nat> {
    set t | t in p && t.kind.ClearTranscript? :: t.handle
  }

  /** `setTimeout(callback, delay)`: the new timer takes handle `s.nextHandle`. */
  function SetTimeout(s: EngineState, now: int, delay: int, kind: Callback): EngineState {
    s.(pending := s.pending + [Timer(s.nextHandle, now + delay, kind)], nextHandle := s.nextHandle + 1)
  }

  /** `wordDisplayTimeoutsRef.current.forEach(clearTimeout)` followed by `= []`. */
  function CancelWordTimers(s: EngineState): EngineState {
    s.(pending := WithoutHandles(s.pending, Elems(s.wordDisplayTimeouts)), wordDisplayTimeouts := [])
  }

  /** Clear and forget the pending transcript-clear timer, if any. */
  function CancelClearTimer(s: EngineState): EngineState {
    if s.transcriptClearTimeout.Some? then
      s.(pending := Cancel(s.pending, s.transcriptClearTimeout.value), transcriptClearTimeout := None)
    else s
  }

  /** `indexOf` followed by `splice(i, 1)`: drop the first occurrence, if any. */
  function RemoveFirst(hs: seq<nat>, h: nat): (r: seq<nat>)
    ensures h !in hs ==> r == hs
    ensures h in hs ==> |r| == |hs| - 1
    ensures forall x :: x in r ==> x in hs
  {
    if hs == [] then []
    else if hs[0] == h then hs[1..]
    else [hs[0]] + RemoveFirst(hs[1..], h)
  }

  // ---------------------------------------------------------------------------
  // Word scheduling

  /** How long after `now` the word at turn index `index` is revealed: its
      target time `index * 250` after the anchor, or at once when that is past. */
  function WordDelay(index: nat, now: int, anchor: int): int {
    Max(0, index * MsPerWord - (now - anchor))
  }

  /** The reveal timers `processNewLlmWords` creates for `n` new words whose
      turn indexes start at `first`, taking handles `h0`, `h0 + 1`, ... */
  function WordTimers(h0: nat, first: nat, n: nat, now: int, anchor: int): seq<Timer<Callback>> {
    seq(n, j requires 0 <= j < n => Timer(h0 + j, now + WordDelay(first + j, now, anchor), ShowWord(first + j)))
  }

  function HandleRange(h0: nat, n: nat): seq<nat> {
    seq(n, j requires 0 <= j < n => h0 + j)
  }

  lemma WordTimersSnoc(h0: nat, first: nat, n: nat, now: int, anchor: int)
    ensures WordTimers(h0, first, n + 1, now, anchor)
      == WordTimers(h0, first, n, now, anchor) + [Timer(h0 + n, now + WordDelay(first + n, now, anchor), ShowWord(first + n))]
    ensures HandleRange(h0, n + 1) == HandleRange(h0, n) + [h0 + n]
  {
  }

  /** `indexOf` finds the first occurrence at `i`; `splice(i, 1)` removes it. */
  lemma {:induction false} RemoveFirstSplice(hs: seq<nat>, h: nat, i: nat)
    requires i < |hs| && hs[i] == h && h !in hs[..i]
    ensures RemoveFirst(hs, h) == hs[..i] + hs[i + 1..]
  {
    if i > 0 {
      assert hs[0] in hs[..i];
      assert hs[1..][..i - 1] == hs[1..i];
      RemoveFirstSplice(hs[1..], h, i - 1);
      assert hs[..i] == [hs[0]] + hs[1..i];
    }
  }

  /** `processNewLlmWords(fullText)`: schedule the words of `fullText` past the
      ones already scheduled, and show the first word at once when this is the
      turn's first batch. */
  function ProcessNewLlmWords(s: EngineState, fullText: string, now: int): EngineState {
    ScheduleWords(s, Split(fullText), now)
  }

  /** `processNewLlmWords` once the text is split into `words`. */
  function ScheduleWords(s: EngineState, words: seq<string>, now: int): EngineState {
    var already := s.turn.processedWordCount;
    if |words| <= already then s
    else
      var s0 := ScheduleEach(s, words[already..], already, |words| - already, now);
      var s1 := s0.(turn := s0.turn.(processedWordCount := |words|));
      if already == 0 && |s1.turn.wordsWithIds| > 0 then
        s1.(display := s1.display.(assistantText := Some(s1.turn.wordsWithIds[0].word), assistantWords := [s1.turn.wordsWithIds[0]], lastTranscriptUpdate := now))
      else s1
  }

  /** `processNewLlmWords` in closed form: the words past the processed count
      are scheduled in one batch. */
  function ScheduledBatch(s: EngineState, words: seq<string>, now: int): EngineState {
    var already := s.turn.processedWordCount;
    if |words| <= already then s
    else
      var s0 := ScheduleProgress(s, words[already..], already, |words| - already, now);
      var s1 := s0.(turn := s0.turn.(processedWordCount := |words|));
      if already == 0 && |s1.turn.wordsWithIds| > 0 then
        s1.(display := s1.display.(assistantText := Some(s1.turn.wordsWithIds[0].word), assistantWords := [s1.turn.wordsWithIds[0]], lastTranscriptUpdate := now))
      else s1
  }

  /** The `forEach` over the new words `ws`, whose turn indexes start at
      `first`, once it has run its callback for the first `n` of them. */
  function ScheduleEach(s: EngineState, ws: seq<string>, first: nat, n: nat, now: int): EngineState
    requires n <= |ws|
  {
    if n == 0 then s else ScheduleWord(ScheduleEach(s, ws, first, n - 1, now), ws[n - 1], first + n - 1, now)
  }

  /** One more pass of the `forEach` callback. */
  lemma ScheduleEachNext(s: EngineState, ws: seq<string>, first: nat, n: nat, now: int)
    requires n < |ws|
    ensures ScheduleEach(s, ws, first, n + 1, now) == ScheduleWord(ScheduleEach(s, ws, first, n, now), ws[n], first + n, now)
  {
  }

  /** The same state in closed form: the words numbered on from the counter,
      one timer per word on fresh handles, each handle tracked. */
  function ScheduleProgress(s: EngineState, ws: seq<string>, first: nat, n: nat, now: int): EngineState
    requires n <= |ws|
  {
    s.(turn := s.turn.(wordsWithIds := s.turn.wordsWithIds + Numbered(ws[..n], s.turn.wordIdCounter), wordIdCounter := s.turn.wordIdCounter + n), pending := s.pending + WordTimers(s.nextHandle, first, n, now, s.turn.speechStartTime), wordDisplayTimeouts := s.wordDisplayTimeouts + HandleRange(s.nextHandle, n), nextHandle := s.nextHandle + n)
  }

  /** The `forEach` callback for the word with turn index `globalIdx`: it is
      numbered and pushed, and its reveal timer is set and tracked. */
  function ScheduleWord(s: EngineState, word: string, globalIdx: nat, now: int): EngineState {
    var s1 := s.(turn := s.turn.(wordIdCounter := s.turn.wordIdCounter + 1, wordsWithIds := s.turn.wordsWithIds + [StreamedWord(word, s.turn.wordIdCounter)]));
    var s2 := SetTimeout(s1, now, WordDelay(globalIdx, now, s.turn.speechStartTime), ShowWord(globalIdx));
    s2.(wordDisplayTimeouts := s2.wordDisplayTimeouts + [s1.nextHandle])
  }

  lemma ScheduleWordStep(s: EngineState, ws: seq<string>, first: nat, n: nat, now: int)
    requires n < |ws|
    ensures ScheduleWord(ScheduleProgress(s, ws, first, n, now), ws[n], first + n, now)
         == ScheduleProgress(s, ws, first, n + 1, now)
  {
    NumberedSnoc(ws, s.turn.wordIdCounter, n);
    WordTimersSnoc(s.nextHandle, first, n, now, s.turn.speechStartTime);
  }
  lemma {:induction false} ScheduleEachClosed(s: EngineState, ws: seq<string>, first: nat, n: nat, now: int)
    requires n <= |ws|
    ensures ScheduleEach(s, ws, first, n, now) == ScheduleProgress(s, ws, first, n, now)
  {
    if n == 0 {
      assert ws[..0] == [];
      assert Numbered([], s.turn.wordIdCounter) == [];
      assert WordTimers(s.nextHandle, first, 0, now, s.turn.speechStartTime) == [];
      assert HandleRange(s.nextHandle, 0) == [];
    } else {
      ScheduleEachClosed(s, ws, first, n - 1, now);
      ScheduleWordStep(s, ws, first, n - 1, now);
    }
  }


  /** `resetForNewResponse`. */
  function ResetForNewResponse(s: EngineState, now: int): EngineState {
    var s1 := CancelWordTimers(s.(turn := s.turn.(wordsWithIds := [], wordIdCounter := 0, processedWordCount := 0)));
    CancelClearTimer(s1.(turn := s1.turn.(isNewResponse := false, speechStartTime := now)))
  }

  /** The accumulation of a `botLlmText` fragment: the trimmed fragment is
      appended, separated by a space unless the text so far is empty or
      already ends in one. */
  function AppendLlmText(current: Option<string>, fragment: string): string {
    var text := Trim(fragment);
    var base := current.GetOr("");
    if base != "" && base[|base| - 1] != ' ' then base + " " + text else base + text
  }

  /** The deferred clear's delay after the bot stops: the time the scheduled
      words still need, and two more seconds. */
  function ClearDelay(processed: nat, now: int, anchor: int): int {
    Max(0, processed * MsPerWord - (now - anchor)) + ClearPauseMs
  }

  // ---------------------------------------------------------------------------
  // Handlers

  /** `handleBotStartedSpeaking`. */
  function BotStarted(s: EngineState, now: int): EngineState {
    var s1 := s.(activity := s.activity.(isSpeaking := true, isUserSpeaking := false, isWaitingForResponse := false, lastBotAudioActivity := now), display := s.display.(lastTranscriptUpdate := now));
    var s2 := ResetForNewResponse(s1, now);
    if Truthy(s2.turn.llmText) then ProcessNewLlmWords(s2.(turn := s2.turn.(useTtsFallback := false)), s2.turn.llmText.value, now)
    else SetTimeout(s2, now, FallbackArmDelayMs, ArmFallback)
  }

  /** `handleBotStoppedSpeaking`: word timers are left running; any clear
      timer is replaced by one after `ClearDelay`. */
  function BotStopped(s: EngineState, now: int): EngineState {
    var s1 := s.(activity := s.activity.(isSpeaking := false, isWaitingForResponse := true, isUserSpeaking := false, lastBotAudioActivity := now), turn := s.turn.(useTtsFallback := false));
    var delay := ClearDelay(s.turn.processedWordCount, now, s.turn.speechStartTime);
    var s2 := if s1.transcriptClearTimeout.Some? then s1.(pending := Cancel(s1.pending, s1.transcriptClearTimeout.value)) else s1;
    SetTimeout(s2, now, delay, ClearTranscript).(transcriptClearTimeout := Some(s2.nextHandle))
  }

  /** `handleUserStartedSpeakingWithTextClear`, the handler registered for
      `userStartedSpeaking`. */
  function UserStarted(s: EngineState, now: int): EngineState {
    var s1 := s.(activity := s.activity.(isWaitingForResponse := false, isUserSpeaking := true, lastUserActivity := now), display := s.display.(assistantText := None, assistantWords := []), turn := s.turn.(wordsWithIds := [], wordIdCounter := 0, processedWordCount := 0, isNewResponse := true, llmText := None, useTtsFallback := false, speechStartTime := 0));
    CancelClearTimer(CancelWordTimers(s1))
  }

  /** `handleUserStoppedSpeaking`: the turn ends 300 ms later (see `Fire`). */
  function UserStopped(s: EngineState, now: int): EngineState {
    SetTimeout(s.(activity := s.activity.(lastUserActivity := now)), now, UserSettleDelayMs, SettleUser)
  }

  /** `handleBotLlmText`. */
  function LlmText(s: EngineState, text: string, now: int): EngineState {
    var s1 := s.(turn := s.turn.(llmText := Some(AppendLlmText(s.turn.llmText, text))));
    if !s1.activity.isSpeaking then s1
    else
      var s2 :=
        if s1.turn.useTtsFallback then
          CancelWordTimers(s1.(turn := s1.turn.(useTtsFallback := false, wordsWithIds := [], wordIdCounter := 0,
                                                 processedWordCount := 0, speechStartTime := now)))
        else s1;
      ProcessNewLlmWords(s2, s1.turn.llmText.value, now)
  }

  /** `handleBotTtsText`: fragments count only in fallback mode while the bot
      speaks, and are shown at once. */
  function TtsText(s: EngineState, text: string, now: int): EngineState {
    ShowTtsWords(s, Split(Trim(text)), now)
  }

  /** `handleBotTtsText` once the trimmed fragment is split into `words`. */
  function ShowTtsWords(s: EngineState, words: seq<string>, now: int): EngineState {
    if !(s.turn.useTtsFallback && s.activity.isSpeaking) then s
    else
      var s1 := if s.turn.isNewResponse then s.(turn := s.turn.(isNewResponse := false, wordsWithIds := [], wordIdCounter := 0)) else s;
      ShowEach(s1, words, now)
  }

  /** The `forEach` over the words `ws` of a fallback fragment. */
  function ShowEach(s: EngineState, ws: seq<string>, now: int): EngineState {
    if ws == [] then s else ShowTtsWord(ShowEach(s, ws[..|ws| - 1], now), ws[|ws| - 1], now)
  }

  /** The `forEach` callback of `handleBotTtsText` for one word. */
  function ShowTtsWord(s: EngineState, word: string, now: int): EngineState {
    var all := s.turn.wordsWithIds + [StreamedWord(word, s.turn.wordIdCounter)];
    s.(turn := s.turn.(wordIdCounter := s.turn.wordIdCounter + 1, wordsWithIds := all), display := s.display.(assistantWords := Window(all, MaxDisplayWords), assistantText := Some(Join(Texts(all))), lastTranscriptUpdate := now))
  }

  /** The fallback words of one fragment, field by field: numbered on from
      the counter and appended, the whole turn shown once any word came, and
      nothing else touched. */
  lemma {:induction false} ShowEachFields(s: EngineState, ws: seq<string>, now: int)
    ensures var r := ShowEach(s, ws, now);
      var all := s.turn.wordsWithIds + Numbered(ws, s.turn.wordIdCounter);
      r.turn == s.turn.(wordsWithIds := all, wordIdCounter := s.turn.wordIdCounter + |ws|)
      && r.status == s.status && r.activity == s.activity && r.pending == s.pending
      && r.wordDisplayTimeouts == s.wordDisplayTimeouts && r.nextHandle == s.nextHandle
      && r.transcriptClearTimeout == s.transcriptClearTimeout
      && (ws == [] ==> r.display == s.display)
      && (ws != [] ==> r.display == Display(Some(Join(Texts(all))), Window(all, MaxDisplayWords), now))
  {
    if ws == [] {
      assert Numbered([], s.turn.wordIdCounter) == [];
      assert s.turn.wordsWithIds + [] == s.turn.wordsWithIds;
    } else {
      var init := ws[..|ws| - 1];
      var c := s.turn.wordIdCounter;
      ShowEachFields(s, init, now);
      NumberedSnoc(ws, c, |ws| - 1);
      assert ws[..|ws|] == ws;
      assert s.turn.wordsWithIds + Numbered(ws, c)
          == (s.turn.wordsWithIds + Numbered(init, c)) + [StreamedWord(ws[|ws| - 1], c + |init|)];
    }
  }



  /** What one batch appends: the new words numbered on from the counter and
      one reveal timer per new word. */
  lemma ScheduledBatchFields(s: EngineState, words: seq<string>, now: int)
    requires |words| > s.turn.processedWordCount
    ensures var r := ScheduledBatch(s, words, now);
      var k := s.turn.processedWordCount;
      r.turn.wordsWithIds == s.turn.wordsWithIds + Numbered(words[k..], s.turn.wordIdCounter)
      && r.pending == s.pending + WordTimers(s.nextHandle, k, |words| - k, now, s.turn.speechStartTime)
      && r.turn.processedWordCount == |words|
  {
    var k := s.turn.processedWordCount;
    assert words[k..][..|words| - k] == words[k..];
  }

  /** Running the callbacks one by one ends where the closed form says. */
  lemma ScheduleWordsIsBatch(s: EngineState, words: seq<string>, now: int)
    ensures ScheduleWords(s, words, now) == ScheduledBatch(s, words, now)
  {
    var already := s.turn.processedWordCount;
    if |words| > already {
      ScheduleEachClosed(s, words[already..], already, |words| - already, now);
    }
  }

  /** The fields a word batch never touches: the turn flags, the anchor of
      the pacing, the accumulated text and the clear timer. */
  predicate SameTurn(a: EngineState, b: EngineState) {
    a.activity.isSpeaking == b.activity.isSpeaking && a.activity.isUserSpeaking == b.activity.isUserSpeaking
    && a.activity.isWaitingForResponse == b.activity.isWaitingForResponse && a.turn.useTtsFallback == b.turn.useTtsFallback
    && a.turn.speechStartTime == b.turn.speechStartTime && a.turn.llmText == b.turn.llmText
    && a.transcriptClearTimeout == b.transcriptClearTimeout && a.status.transport == b.status.transport
  }

  lemma {:induction false} ScheduleEachFrame(s: EngineState, ws: seq<string>, first: nat, n: nat, now: int)
    requires n <= |ws|
    ensures SameTurn(ScheduleEach(s, ws, first, n, now), s)
  {
    if n > 0 {
      ScheduleEachFrame(s, ws, first, n - 1, now);
    }
  }

  /** Scheduling words touches only the word list, the timers and the first
      reveal. */
  lemma ScheduleWordsFrame(s: EngineState, words: seq<string>, now: int)
    ensures SameTurn(ScheduleWords(s, words, now), s)
  {
    var already := s.turn.processedWordCount;
    if |words| > already {
      ScheduleEachFrame(s, words[already..], already, |words| - already, now);
    }
  }



  /** The self-healing step the visualizer loop runs on each audio sample
      (`level` stands for the sample's average energy). */
  function AudioSample(s: EngineState, level: int, now: int): EngineState {
    var s1 := if level > BotAudioThreshold then s.(activity := s.activity.(lastBotAudioActivity := now)) else s;
    var s2 :=
      if !s1.activity.isSpeaking && !s1.activity.isUserSpeaking && level > BotAudioThreshold then
        s1.(activity := s1.activity.(isSpeaking := true, isWaitingForResponse := false, isUserSpeaking := false))
      else s1;
    if s2.activity.isSpeaking && now - s2.activity.lastBotAudioActivity > BotSilenceLimitMs then
      var s3 := s2.(activity := s2.activity.(isSpeaking := false, isWaitingForResponse := true, isUserSpeaking := false));
      if s3.transcriptClearTimeout.None? then
        SetTimeout(s3, now, SilenceClearDelayMs, ClearTranscript).(transcriptClearTimeout := Some(s3.nextHandle))
      else s3
    else s2
  }

  /** The once-a-second janitor interval. */
  function JanitorTick(s: EngineState, now: int): EngineState {
    var s1 :=
      if s.activity.isUserSpeaking && now - s.activity.lastUserActivity > UserStaleMs then
        s.(activity := s.activity.(isUserSpeaking := false, isWaitingForResponse := if !s.activity.isSpeaking then false else s.activity.isWaitingForResponse))
      else s;
    if !s1.activity.isSpeaking && !s1.activity.isUserSpeaking && |s1.display.assistantWords| > 0 && now - s1.display.lastTranscriptUpdate > TranscriptStaleMs then
      s1.(display := s1.display.(assistantText := None, assistantWords := [], lastTranscriptUpdate := now))
    else s1
  }

  /** The event loop runs pending timer `k`: it leaves the queue and its
      callback runs. */
  function Fire(s: EngineState, k: nat, now: int): EngineState
    requires k < |s.pending|
  {
    var t := s.pending[k];
    RunCallback(s.(pending := Cancel(s.pending, t.handle)), t.handle, t.kind, now)
  }

  /** The callback of the timer with handle `h`, run at `now`. */
  function RunCallback(s: EngineState, h: nat, kind: Callback, now: int): EngineState {
    match kind
    case ShowWord(i) => ShowWordCallback(s, h, i, now)
    case ClearTranscript => ClearCallback(s, now)
    case ArmFallback => ArmFallbackCallback(s)
    case SettleUser => SettleUserCallback(s)
  }

  /** A word's reveal: the words up to turn index `i`, the last 18 of them
      as the display; the timer's handle leaves the word-timer ref. */
  function ShowWordCallback(s: EngineState, h: nat, i: nat, now: int): EngineState {
    var shown := Prefix(s.turn.wordsWithIds, i + 1);
    s.(display := s.display.(assistantText := Some(Join(Texts(shown))), assistantWords := Window(shown, MaxDisplayWords), lastTranscriptUpdate := now), wordDisplayTimeouts := RemoveFirst(s.wordDisplayTimeouts, h))
  }

  /** The deferred clear: the display empties unless the bot speaks again. */
  function ClearCallback(s: EngineState, now: int): EngineState {
    (if !s.activity.isSpeaking then s.(display := s.display.(assistantText := None, assistantWords := [], lastTranscriptUpdate := now)) else s)
      .(transcriptClearTimeout := None)
  }

  /** The fallback switch 200 ms after the bot starts without LLM text. */
  function ArmFallbackCallback(s: EngineState): EngineState {
    if !Truthy(s.turn.llmText) && s.activity.isSpeaking && s.turn.processedWordCount == 0 then s.(turn := s.turn.(useTtsFallback := true)) else s
  }

  /** The end of the user's turn 300 ms after they stop. */
  function SettleUserCallback(s: EngineState): EngineState {
    if !s.activity.isSpeaking then s.(activity := s.activity.(isUserSpeaking := false, isWaitingForResponse := false)) else s
  }

  /** A transport-state change: the connecting flag drops once the transport
      settles, and leaving the connected states resets the speaking flags and
      the activity timestamps (the visualizer effect's cleanup). */
  function TransportChanged(s: EngineState, t: TransportState): EngineState {
    var s1 := s.(status := s.status.(transport := t, isConnecting := if IsConnected(t) || t == Error || t == Disconnected then false else s.status.isConnecting));
    if IsConnected(s.status.transport) && !IsConnected(t) then
      s1.(activity := s1.activity.(isSpeaking := false, isWaitingForResponse := false, isUserSpeaking := false, lastBotAudioActivity := 0, lastUserActivity := 0))
    else s1
  }

  /** The outcome of the SDK's `startBotAndConnect` or `disconnect` call; the
      message of a failure may be empty. */
  datatype CallOutcome = Succeeded | Failed(message: string)

  /** The part of `connect` this engine owns: the guards and the connecting
      flag; the result says whether the SDK call was made. */
  function Connect(s: EngineState, hasClient: bool, outcome: CallOutcome): (EngineState, bool) {
    if !hasClient then (s.(status := s.status.(error := Some("Pipecat client is not initialized"))), false)
    else if s.status.isConnecting || IsConnected(s.status.transport) then (s, false)
    else
      var s1 := s.(status := s.status.(isConnecting := true, error := None));
      match outcome
      case Succeeded => (s1, true)
      case Failed(m) => (s1.(status := s1.status.(error := Some(if m != "" then m else "Failed to connect to agent"), isConnecting := false)), true)
  }

  /** `disconnect`: on success every cell of the turn and transcript is reset
      and every tracked timer cancelled. */
  function Disconnect(s: EngineState, hasClient: bool, outcome: CallOutcome): EngineState {
    if !hasClient then s
    else
      var s1 := s.(status := s.status.(isConnecting := false));
      match outcome
      case Failed(m) => s1.(status := s1.status.(error := Some(if m != "" then m else "Failed to disconnect")))
      case Succeeded =>
        CancelClearTimer(CancelWordTimers(s1.(activity := s1.activity.(isSpeaking := false, isUserSpeaking := false, isWaitingForResponse := false, lastBotAudioActivity := 0, lastUserActivity := 0), status := s1.status.(error := None), display := s1.display.(assistantText := None, assistantWords := [], lastTranscriptUpdate := 0), turn := s1.turn.(wordsWithIds := [], wordIdCounter := 0, processedWordCount := 0, llmText := None, useTtsFallback := false, speechStartTime := 0))))
  }

  /** The events the hook reacts to between connect and disconnect: the RTVI
      callbacks it registers, a sample of the visualizer loop, a run of the
      janitor interval and a change of the transport state. */
  datatype Event =
    | BotStartedSpeaking(now: int)
    | BotStoppedSpeaking(now: int)
    | UserStartedSpeaking(now: int)
    | UserStoppedSpeaking(now: int)
    | BotLlmText(text: string, now: int)
    | BotTtsText(text: string, now: int)
    | AudioLevel(level: int, now: int)
    | JanitorRun(now: int)
    | TransportStateChanged(state: TransportState)

  /** The handler each event reaches. */
  function Step(s: EngineState, e: Event): EngineState {
    match e
    case BotStartedSpeaking(now) => BotStarted(s, now)
    case BotStoppedSpeaking(now) => BotStopped(s, now)
    case UserStartedSpeaking(now) => UserStarted(s, now)
    case UserStoppedSpeaking(now) => UserStopped(s, now)
    case BotLlmText(text, now) => LlmText(s, text, now)
    case BotTtsText(text, now) => TtsText(s, text, now)
    case AudioLevel(level, now) => AudioSample(s, level, now)
    case JanitorRun(now) => JanitorTick(s, now)
    case TransportStateChanged(t) => TransportChanged(s, t)
  }

  // ---------------------------------------------------------------------------
  // The invariant every handler keeps

  /** Timers are told apart by their handles: a handle names one record. */
  predicate HandlesIdentify(p: seq<Timer<Callback>>) {
    forall t1, t2 :: t1 in p && t2 in p && t1.handle == t2.handle ==> t1 == t2
  }

  predicate DistinctHandles(hs: seq<nat>) {
    forall i, j :: 0 <= i < j < |hs| ==> hs[i] != hs[j]
  }

  /** Every pending word reveal is for a scheduled word, and never earlier
      than that word's target time after the anchor. */
  predicate RevealsPaced(p: seq<Timer<Callback>>, processed: nat, anchor: int) {
    forall t :: t in p && t.kind.ShowWord? ==>
      t.kind.index < processed && t.fireAt >= anchor + t.kind.index * MsPerWord
  }

  /** The turn's word list: ids are positions, the counter is the length, and
      fallback mode never coexists with LLM-scheduled words. */
  predicate WordListInv(words: seq<StreamedWord>, counter: nat, processed: nat, fallback: bool) {
    IdsFrom(words, 0) && counter == |words| && processed <= |words|
    && (fallback ==> processed == 0)
  }

  /** The display shows at most 18 consecutively numbered words. */
  predicate DisplayInv(shown: seq<StreamedWord>) {
    |shown| <= MaxDisplayWords && (shown != [] ==> IdsFrom(shown, shown[0].id))
  }

  /** The refs track exactly the pending timers of their kind, and every
      pending reveal is paced from the anchor. */
  ghost predicate TimerInv(p: seq<Timer<Callback>>, next: nat, wordTimers: seq<nat>, clear: Option<nat>,
                           processed: nat, anchor: int) {
    (forall t :: t in p ==> t.handle < next)
    && HandlesIdentify(p)
    && DistinctHandles(wordTimers)
    && Elems(wordTimers) == ShowHandles(p)
    && ClearHandles(p) == OptSet(clear)
    && RevealsPaced(p, processed, anchor)
  }

  ghost predicate Inv(s: EngineState) {
    WordListInv(s.turn.wordsWithIds, s.turn.wordIdCounter, s.turn.processedWordCount, s.turn.useTtsFallback)
    && DisplayInv(s.display.assistantWords)
    && TimerInv(s.pending, s.nextHandle, s.wordDisplayTimeouts, s.transcriptClearTimeout,
                s.turn.processedWordCount, s.turn.speechStartTime)
  }

  // ---------------------------------------------------------------------------
  // Lemmas on the timer bookkeeping

  /** With handles identifying records, cancelling a pending timer's handle
      removes that record and nothing else. */
  lemma CancelOne(p: seq<Timer<Callback>>, y: Timer<Callback>)
    requires y in p && HandlesIdentify(p)
    ensures forall x :: x in Cancel(p, y.handle) <==> x in p && x != y
    ensures HandlesIdentify(Cancel(p, y.handle))
    ensures ShowHandles(Cancel(p, y.handle)) == ShowHandles(p) - (if y.kind.ShowWord? then {y.handle} else {})
    ensures ClearHandles(Cancel(p, y.handle)) == ClearHandles(p) - (if y.kind.ClearTranscript? then {y.handle} else {})
  {
    var q := Cancel(p, y.handle);
    forall x | x in p && x != y ensures x.handle != y.handle {
    }
    forall h | h in ShowHandles(p) - (if y.kind.ShowWord? then {y.handle} else {}) ensures h in ShowHandles(q) {
      var x :| x in p && x.kind.ShowWord? && x.handle == h;
      assert x in q;
    }
    forall h | h in ClearHandles(p) - (if y.kind.ClearTranscript? then {y.handle} else {}) ensures h in ClearHandles(q) {
      var x :| x in p && x.kind.ClearTranscript? && x.handle == h;
      assert x in q;
    }
  }

  /** A larger processed count keeps every pending reveal paced. */
  lemma TimerInvMoreProcessed(p: seq<Timer<Callback>>, next: nat, wt: seq<nat>, clear: Option<nat>,
                              processed: nat, processed': nat, anchor: int)
    requires TimerInv(p, next, wt, clear, processed, anchor) && processed <= processed'
    ensures TimerInv(p, next, wt, clear, processed', anchor)
  {
  }

  /** `setTimeout` of a callback no ref tracks. */
  lemma TimerInvAppendUntracked(p: seq<Timer<Callback>>, next: nat, wt: seq<nat>, clear: Option<nat>,
                                processed: nat, anchor: int, x: Timer<Callback>)
    requires TimerInv(p, next, wt, clear, processed, anchor)
    requires x.handle == next && (x.kind.ArmFallback? || x.kind.SettleUser?)
    ensures TimerInv(p + [x], next + 1, wt, clear, processed, anchor)
  {
    assert ShowHandles(p + [x]) == ShowHandles(p);
    assert ClearHandles(p + [x]) == ClearHandles(p);
  }

  /** `setTimeout` of a transcript clear, recorded in the clear ref. */
  lemma TimerInvAppendClear(p: seq<Timer<Callback>>, next: nat, wt: seq<nat>, processed: nat, anchor: int,
                            fireAt: int)
    requires TimerInv(p, next, wt, None, processed, anchor)
    ensures TimerInv(p + [Timer(next, fireAt, ClearTranscript)], next + 1, wt, Some(next), processed, anchor)
  {
    var x := Timer(next, fireAt, ClearTranscript);
    HandleSetsAppend(p, [x]);
    assert ClearHandles([x]) == {next} by {
      assert x in [x];
    }
  }

  /** Cancelling every word timer empties the word-timer ref and every reveal;
      the anchor and the processed count may then change freely. */
  lemma TimerInvCancelWords(p: seq<Timer<Callback>>, next: nat, wt: seq<nat>, clear: Option<nat>,
                            processed: nat, anchor: int, processed': nat, anchor': int)
    requires TimerInv(p, next, wt, clear, processed, anchor)
    ensures var q := WithoutHandles(p, Elems(wt));
      TimerInv(q, next, [], clear, processed', anchor')
      && ShowHandles(q) == {}
      && (forall x :: x in q <==> x in p && !x.kind.ShowWord?)
  {
    var q := WithoutHandles(p, Elems(wt));
    forall x | x in p && x.kind.ShowWord? ensures x.handle in Elems(wt) {
      assert x.handle in ShowHandles(p);
    }
    assert ShowHandles(q) == {};
    forall h | h in ClearHandles(p) ensures h in ClearHandles(q) {
      var x :| x in p && x.kind.ClearTranscript? && x.handle == h;
      assert x in q;
    }
    assert ClearHandles(q) == ClearHandles(p);
  }

  /** Cancelling the transcript-clear timer empties the clear ref and leaves
      every other timer pending. */
  lemma TimerInvCancelClear(p: seq<Timer<Callback>>, next: nat, wt: seq<nat>, clear: Option<nat>,
                            processed: nat, anchor: int)
    requires TimerInv(p, next, wt, clear, processed, anchor)
    ensures var q := if clear.Some? then Cancel(p, clear.value) else p;
      TimerInv(q, next, wt, None, processed, anchor)
      && (forall x :: x in q <==> x in p && !x.kind.ClearTranscript?)
  {
    HandleSetsMembers(p);
    if clear.Some? {
      assert clear.value in ClearHandles(p);
      var y :| y in p && y.kind.ClearTranscript? && y.handle == clear.value;
      CancelOne(p, y);
      forall x | x in p && x.kind.ClearTranscript? ensures x == y {
        assert x.handle in ClearHandles(p);
      }
    }
  }

  /** A batch of reveal timers: fresh consecutive handles, one per new word,
      each at or after its word's target time. */
  lemma WordTimersFacts(h0: nat, first: nat, n: nat, now: int, anchor: int)
    ensures var w := WordTimers(h0, first, n, now, anchor);
      ShowHandles(w) == Elems(HandleRange(h0, n)) && ClearHandles(w) == {}
      && HandlesIdentify(w)
      && (forall t :: t in w ==>
            (h0 <= t.handle < h0 + n && t.kind.ShowWord?
             && t.kind.index < first + n && t.fireAt >= anchor + t.kind.index * MsPerWord))
  {
    var w := WordTimers(h0, first, n, now, anchor);
    forall t | t in w
      ensures h0 <= t.handle < h0 + n && t.kind == ShowWord(first + (t.handle - h0))
      ensures t.fireAt >= anchor + t.kind.index * MsPerWord
      ensures t.handle in Elems(HandleRange(h0, n))
    {
      var j :| 0 <= j < n && w[j] == t;
      assert w[j] == Timer(h0 + j, now + WordDelay(first + j, now, anchor), ShowWord(first + j));
      assert HandleRange(h0, n)[j] == t.handle;
    }
    forall h | h in Elems(HandleRange(h0, n)) ensures h in ShowHandles(w) {
      assert w[h - h0] in w;
    }
  }

  /** Scheduling a batch of reveals keeps the timer invariant. */
  lemma TimerInvBatch(p: seq<Timer<Callback>>, next: nat, wt: seq<nat>, clear: Option<nat>,
                      processed: nat, anchor: int, n: nat, now: int)
    requires TimerInv(p, next, wt, clear, processed, anchor)
    ensures TimerInv(p + WordTimers(next, processed, n, now, anchor), next + n, wt + HandleRange(next, n),
                     clear, processed + n, anchor)
  {
    var w := WordTimers(next, processed, n, now, anchor);
    var rg := HandleRange(next, n);
    WordTimersFacts(next, processed, n, now, anchor);
    HandleSetsAppend(p, w);
    forall x | x in wt ensures x < next {
      assert x in ShowHandles(p);
    }
    forall i, j | 0 <= i < j < |wt + rg| ensures (wt + rg)[i] != (wt + rg)[j] {
      if j < |wt| {
      } else if i < |wt| {
        assert wt[i] in wt;
      }
    }
    assert Elems(wt + rg) == Elems(wt) + Elems(rg);
    forall t1, t2 | t1 in p + w && t2 in p + w && t1.handle == t2.handle ensures t1 == t2 {
    }
  }

  lemma HandleSetsMembers(p: seq<Timer<Callback>>)
    ensures forall x :: x in p && x.kind.ShowWord? ==> x.handle in ShowHandles(p)
    ensures forall x :: x in p && x.kind.ClearTranscript? ==> x.handle in ClearHandles(p)
  {
  }

  lemma HandleSetsAppend(p: seq<Timer<Callback>>, q: seq<Timer<Callback>>)
    ensures ShowHandles(p + q) == ShowHandles(p) + ShowHandles(q)
    ensures ClearHandles(p + q) == ClearHandles(p) + ClearHandles(q)
  {
  }

  lemma RemoveFirstDistinct(hs: seq<nat>, h: nat)
    requires DistinctHandles(hs)
    ensures DistinctHandles(RemoveFirst(hs, h)) && Elems(RemoveFirst(hs, h)) == Elems(hs) - {h}
  {
    if hs != [] {
      assert hs == [hs[0]] + hs[1..];
      assert hs[0] !in hs[1..];
      assert Elems(hs) == {hs[0]} + Elems(hs[1..]);
      if hs[0] != h {
        RemoveFirstDistinct(hs[1..], h);
        var r := RemoveFirst(hs[1..], h);
        assert RemoveFirst(hs, h) == [hs[0]] + r;
        assert Elems([hs[0]] + r) == {hs[0]} + Elems(r);
        forall i, j | 0 <= i < j < |[hs[0]] + r| ensures ([hs[0]] + r)[i] != ([hs[0]] + r)[j] {
          if i == 0 { assert r[j - 1] in r; }
        }
      }
    }
  }

  /** Running a pending timer removes it, and its handle from the ref that
      tracked it. */
  lemma TimerInvFire(p: seq<Timer<Callback>>, next: nat, wt: seq<nat>, clear: Option<nat>,
                     processed: nat, anchor: int, k: nat)
    requires TimerInv(p, next, wt, clear, processed, anchor) && k < |p|
    ensures var y := p[k];
      var q := Cancel(p, y.handle);
      (y.kind.ShowWord? ==> TimerInv(q, next, RemoveFirst(wt, y.handle), clear, processed, anchor))
      && (y.kind.ClearTranscript? ==> clear == Some(y.handle) && TimerInv(q, next, wt, None, processed, anchor))
      && (!y.kind.ShowWord? && !y.kind.ClearTranscript? ==> TimerInv(q, next, wt, clear, processed, anchor))
  {
    var y := p[k];
    CancelOne(p, y);
    if y.kind.ShowWord? {
      RemoveFirstDistinct(wt, y.handle);
    }
    if y.kind.ClearTranscript? {
      assert y.handle in ClearHandles(p);
    }
  }

  lemma InitialInv()
    ensures Inv(Initial())
  {
  }

  // ---------------------------------------------------------------------------
  // Every handler keeps the invariant

  lemma ScheduleWordsInv(s: EngineState, words: seq<string>, now: int)
    requires Inv(s) && !s.turn.useTtsFallback
    ensures Inv(ScheduleWords(s, words, now))
  {
    ScheduleWordsIsBatch(s, words, now);
    ScheduledBatchInv(s, words, now);
  }

  lemma ScheduledBatchInv(s: EngineState, words: seq<string>, now: int)
    requires Inv(s) && !s.turn.useTtsFallback
    ensures Inv(ScheduledBatch(s, words, now))
  {
    var already := s.turn.processedWordCount;
    if |words| > already {
      var n := |words| - already;
      TimerInvBatch(s.pending, s.nextHandle, s.wordDisplayTimeouts, s.transcriptClearTimeout,
                    already, s.turn.speechStartTime, n, now);
      var all := s.turn.wordsWithIds + Numbered(words[already..], s.turn.wordIdCounter);
      assert IdsFrom(all, 0);
      var r := ScheduledBatch(s, words, now);
      assert r.turn.wordsWithIds == all && r.turn.wordIdCounter == |all| && r.turn.processedWordCount == |words| <= |all|;
      assert r.pending == s.pending + WordTimers(s.nextHandle, already, n, now, s.turn.speechStartTime);
      assert r.wordDisplayTimeouts == s.wordDisplayTimeouts + HandleRange(s.nextHandle, n);
      assert r.nextHandle == s.nextHandle + n && r.transcriptClearTimeout == s.transcriptClearTimeout;
      assert r.turn.speechStartTime == s.turn.speechStartTime && !r.turn.useTtsFallback;
      assert DisplayInv(r.display.assistantWords);
    }
  }

  lemma ProcessNewLlmWordsInv(s: EngineState, fullText: string, now: int)
    requires Inv(s) && !s.turn.useTtsFallback
    ensures Inv(ProcessNewLlmWords(s, fullText, now))
  {
    ScheduleWordsInv(s, Split(fullText), now);
  }

  lemma ResetForNewResponseInv(s: EngineState, now: int)
    requires Inv(s)
    ensures var t := ResetForNewResponse(s, now);
      Inv(t) && t.turn.wordsWithIds == [] && t.turn.processedWordCount == 0 && t.turn.speechStartTime == now
      && t.wordDisplayTimeouts == [] && t.transcriptClearTimeout == None
      && ShowHandles(t.pending) == {} && ClearHandles(t.pending) == {}
      && (forall x :: x in t.pending <==> x in s.pending && !x.kind.ShowWord? && !x.kind.ClearTranscript?)
      && t.nextHandle == s.nextHandle && t.turn.llmText == s.turn.llmText
  {
    TimerInvCancelWords(s.pending, s.nextHandle, s.wordDisplayTimeouts, s.transcriptClearTimeout,
                        s.turn.processedWordCount, s.turn.speechStartTime, 0, now);
    var q := WithoutHandles(s.pending, Elems(s.wordDisplayTimeouts));
    TimerInvCancelClear(q, s.nextHandle, [], s.transcriptClearTimeout, 0, now);
  }

  lemma BotStartedInv(s: EngineState, now: int)
    requires Inv(s)
    ensures Inv(BotStarted(s, now))
  {
    var s1 := s.(activity := s.activity.(isSpeaking := true, isUserSpeaking := false, isWaitingForResponse := false, lastBotAudioActivity := now), display := s.display.(lastTranscriptUpdate := now));
    ResetForNewResponseInv(s1, now);
    var s2 := ResetForNewResponse(s1, now);
    if Truthy(s2.turn.llmText) {
      ProcessNewLlmWordsInv(s2.(turn := s2.turn.(useTtsFallback := false)), s2.turn.llmText.value, now);
    } else {
      TimerInvAppendUntracked(s2.pending, s2.nextHandle, s2.wordDisplayTimeouts, s2.transcriptClearTimeout,
                              s2.turn.processedWordCount, s2.turn.speechStartTime,
                              Timer(s2.nextHandle, now + FallbackArmDelayMs, ArmFallback));
    }
  }

  lemma BotStoppedInv(s: EngineState, now: int)
    requires Inv(s)
    ensures Inv(BotStopped(s, now))
  {
    TimerInvCancelClear(s.pending, s.nextHandle, s.wordDisplayTimeouts, s.transcriptClearTimeout,
                        s.turn.processedWordCount, s.turn.speechStartTime);
    var q := if s.transcriptClearTimeout.Some? then Cancel(s.pending, s.transcriptClearTimeout.value) else s.pending;
    var delay := ClearDelay(s.turn.processedWordCount, now, s.turn.speechStartTime);
    TimerInvAppendClear(q, s.nextHandle, s.wordDisplayTimeouts, s.turn.processedWordCount, s.turn.speechStartTime,
                        now + delay);
    var r := BotStopped(s, now);
    assert r.pending == q + [Timer(s.nextHandle, now + delay, ClearTranscript)];
    assert r.nextHandle == s.nextHandle + 1 && r.transcriptClearTimeout == Some(s.nextHandle);
    assert r.wordDisplayTimeouts == s.wordDisplayTimeouts && r.turn.processedWordCount == s.turn.processedWordCount;
    assert r.turn.speechStartTime == s.turn.speechStartTime && r.turn.useTtsFallback == false;
    assert r.turn.wordsWithIds == s.turn.wordsWithIds && r.turn.wordIdCounter == s.turn.wordIdCounter;
    assert r.display.assistantWords == s.display.assistantWords;
  }

  lemma UserStartedInv(s: EngineState, now: int)
    requires Inv(s)
    ensures Inv(UserStarted(s, now))
  {
    TimerInvCancelWords(s.pending, s.nextHandle, s.wordDisplayTimeouts, s.transcriptClearTimeout,
                        s.turn.processedWordCount, s.turn.speechStartTime, 0, 0);
    var q := WithoutHandles(s.pending, Elems(s.wordDisplayTimeouts));
    TimerInvCancelClear(q, s.nextHandle, [], s.transcriptClearTimeout, 0, 0);
  }

  lemma UserStoppedInv(s: EngineState, now: int)
    requires Inv(s)
    ensures Inv(UserStopped(s, now))
  {
    TimerInvAppendUntracked(s.pending, s.nextHandle, s.wordDisplayTimeouts, s.transcriptClearTimeout,
                            s.turn.processedWordCount, s.turn.speechStartTime,
                            Timer(s.nextHandle, now + UserSettleDelayMs, SettleUser));
  }

  lemma LlmTextInv(s: EngineState, text: string, now: int)
    requires Inv(s)
    ensures Inv(LlmText(s, text, now))
  {
    var s1 := s.(turn := s.turn.(llmText := Some(AppendLlmText(s.turn.llmText, text))));
    if s1.activity.isSpeaking {
      if s1.turn.useTtsFallback {
        TimerInvCancelWords(s.pending, s.nextHandle, s.wordDisplayTimeouts, s.transcriptClearTimeout,
                            s.turn.processedWordCount, s.turn.speechStartTime, 0, now);
        var s0 := s1.(turn := s1.turn.(useTtsFallback := false, wordsWithIds := [], wordIdCounter := 0,
                                       processedWordCount := 0, speechStartTime := now));
        ProcessNewLlmWordsInv(CancelWordTimers(s0), s1.turn.llmText.value, now);
      } else {
        ProcessNewLlmWordsInv(s1, s1.turn.llmText.value, now);
      }
    }
  }

  /** Words numbered on from the counter extend a consecutively numbered
      list, and any window of it is numbered consecutively too. */
  lemma AppendNumbered(ws: seq<StreamedWord>, words: seq<string>)
    requires IdsFrom(ws, 0)
    ensures var all := ws + Numbered(words, |ws|);
      IdsFrom(all, 0) && DisplayInv(Window(all, MaxDisplayWords))
  {
    var all := ws + Numbered(words, |ws|);
    assert IdsFrom(all, 0);
    var win := Window(all, MaxDisplayWords);
    IdsFromSlice(all, 0, |all| - |win|, |all|);
  }

  lemma TtsTextInv(s: EngineState, text: string, now: int)
    requires Inv(s)
    ensures Inv(TtsText(s, text, now))
  {
    if s.turn.useTtsFallback && s.activity.isSpeaking {
      var s1 := if s.turn.isNewResponse then s.(turn := s.turn.(isNewResponse := false, wordsWithIds := [], wordIdCounter := 0)) else s;
      var words := Split(Trim(text));
      ShowEachFields(s1, words, now);
      if words != [] {
        AppendNumbered(s1.turn.wordsWithIds, words);
        var r := TtsText(s, text, now);
        assert r.pending == s.pending && r.nextHandle == s.nextHandle;
        assert r.wordDisplayTimeouts == s.wordDisplayTimeouts && r.transcriptClearTimeout == s.transcriptClearTimeout;
        assert r.turn.processedWordCount == s.turn.processedWordCount && r.turn.speechStartTime == s.turn.speechStartTime;
      }
    }
  }

  lemma AudioSampleInv(s: EngineState, level: int, now: int)
    requires Inv(s)
    ensures Inv(AudioSample(s, level, now))
  {
    var s1 := if level > BotAudioThreshold then s.(activity := s.activity.(lastBotAudioActivity := now)) else s;
    var s2 :=
      if !s1.activity.isSpeaking && !s1.activity.isUserSpeaking && level > BotAudioThreshold then
        s1.(activity := s1.activity.(isSpeaking := true, isWaitingForResponse := false, isUserSpeaking := false))
      else s1;
    if s2.activity.isSpeaking && now - s2.activity.lastBotAudioActivity > BotSilenceLimitMs && s2.transcriptClearTimeout.None? {
      TimerInvAppendClear(s.pending, s.nextHandle, s.wordDisplayTimeouts, s.turn.processedWordCount,
                          s.turn.speechStartTime, now + SilenceClearDelayMs);
    }
  }

  lemma JanitorTickInv(s: EngineState, now: int)
    requires Inv(s)
    ensures Inv(JanitorTick(s, now))
  {
  }

  lemma FireInv(s: EngineState, k: nat, now: int)
    requires Inv(s) && k < |s.pending|
    ensures Inv(Fire(s, k, now))
  {
    if s.pending[k].kind.ShowWord? {
      FireShowWordInv(s, k, now);
    } else {
      FireOtherInv(s, k, now);
    }
  }

  lemma FireShowWordInv(s: EngineState, k: nat, now: int)
    requires Inv(s) && k < |s.pending| && s.pending[k].kind.ShowWord?
    ensures Inv(Fire(s, k, now))
  {
    var t := s.pending[k];
    TimerInvFire(s.pending, s.nextHandle, s.wordDisplayTimeouts, s.transcriptClearTimeout,
                 s.turn.processedWordCount, s.turn.speechStartTime, k);
    var shown := Prefix(s.turn.wordsWithIds, t.kind.index + 1);
    IdsFromSlice(s.turn.wordsWithIds, 0, 0, |shown|);
    assert shown == s.turn.wordsWithIds[0..|shown|];
    var win := Window(shown, MaxDisplayWords);
    IdsFromSlice(shown, 0, |shown| - |win|, |shown|);
    assert DisplayInv(win);
  }

  lemma FireOtherInv(s: EngineState, k: nat, now: int)
    requires Inv(s) && k < |s.pending| && !s.pending[k].kind.ShowWord?
    ensures Inv(Fire(s, k, now))
  {
    TimerInvFire(s.pending, s.nextHandle, s.wordDisplayTimeouts, s.transcriptClearTimeout,
                 s.turn.processedWordCount, s.turn.speechStartTime, k);
    var t := s.pending[k];
    var s1 := s.(pending := Cancel(s.pending, t.handle));
    if t.kind.ClearTranscript? {
      assert Fire(s, k, now) == ClearCallback(s1, now);
    } else if t.kind.ArmFallback? {
      assert Fire(s, k, now) == ArmFallbackCallback(s1);
    } else {
      assert Fire(s, k, now) == SettleUserCallback(s1);
    }
  }

  lemma TransportChangedInv(s: EngineState, t: TransportState)
    requires Inv(s)
    ensures Inv(TransportChanged(s, t))
  {
  }

  lemma ConnectInv(s: EngineState, hasClient: bool, outcome: CallOutcome)
    requires Inv(s)
    ensures Inv(Connect(s, hasClient, outcome).0)
  {
  }

  lemma DisconnectInv(s: EngineState, hasClient: bool, outcome: CallOutcome)
    requires Inv(s)
    ensures Inv(Disconnect(s, hasClient, outcome))
  {
    if hasClient && outcome.Succeeded? {
      TimerInvCancelWords(s.pending, s.nextHandle, s.wordDisplayTimeouts, s.transcriptClearTimeout,
                          s.turn.processedWordCount, s.turn.speechStartTime, 0, 0);
      var q := WithoutHandles(s.pending, Elems(s.wordDisplayTimeouts));
      TimerInvCancelClear(q, s.nextHandle, [], s.transcriptClearTimeout, 0, 0);
    }
  }

  /** Whatever event arrives, the invariant survives it. */
  lemma StepInv(s: EngineState, e: Event)
    requires Inv(s)
    ensures Inv(Step(s, e))
  {
    match e
    case BotStartedSpeaking(now) => BotStartedInv(s, now);
    case BotStoppedSpeaking(now) => BotStoppedInv(s, now);
    case UserStartedSpeaking(now) => UserStartedInv(s, now);
    case UserStoppedSpeaking(now) => UserStoppedInv(s, now);
    case BotLlmText(text, now) => LlmTextInv(s, text, now);
    case BotTtsText(text, now) => TtsTextInv(s, text, now);
    case AudioLevel(level, now) => AudioSampleInv(s, level, now);
    case JanitorRun(now) => JanitorTickInv(s, now);
    case TransportStateChanged(t) => TransportChangedInv(s, t);
  }
}
