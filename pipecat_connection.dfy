/** The connection hook as the object it is at run time: its refs and state
    cells, gathered by concern into a few records, the timer refs, the
    pending timers of the event loop, and one method per event. Each method
    updates the fields in place, step by step as the hook does, and is proved
    to end in the state the matching `PipecatState` handler describes, so
    every property proved there holds of the object. */
module PipecatConnection {
  import opened Wrappers
  import opened Words
  import opened Timers
  import opened Agents
  import S = PipecatState

  class Engine {
    var status: S.Status
    var activity: S.Activity
    var turn: S.Turn
    var display: S.Display
    var wordDisplayTimeouts: seq<nat>
    var transcriptClearTimeout: Option<nat>
    /** The event loop's pending timers and the next handle it gives out. */
    var pending: seq<Timer<S.Callback>>
    var nextHandle: nat

    /** The fields, read as one value. */
    function State(): S.EngineState
      reads this
    {
      S.EngineState(status, activity, turn, display, wordDisplayTimeouts, transcriptClearTimeout, pending, nextHandle)
    }

    ghost predicate Valid()
      reads this
    {
      S.Inv(State())
    }

    /** The hook mounts: every ref at its initial value, no timer pending. */
    constructor ()
      ensures State() == S.Initial() && Valid()
    {
      status := S.Status(S.Disconnected, false, None);
      activity := S.Activity(false, false, false, 0, 0);
      turn := S.Turn(false, true, 0, 0, [], None, 0);
      display := S.Display(None, [], 0);
      wordDisplayTimeouts := [];
      transcriptClearTimeout := None;
      pending := [];
      nextHandle := 0;
      S.InitialInv();
    }

    /** `setTimeout(callback, delay)`: the handle of the new timer. */
    method SetTimeout(now: int, delay: int, kind: S.Callback) returns (handle: nat)
      modifies this
      ensures handle == old(nextHandle)
      ensures State() == S.SetTimeout(old(State()), now, delay, kind)
    {
      handle := nextHandle;
      pending := pending + [Timer(handle, now + delay, kind)];
      nextHandle := nextHandle + 1;
    }

    /** `wordDisplayTimeoutsRef.current.forEach(t => clearTimeout(t))`, then
        `wordDisplayTimeoutsRef.current = []`. */
    method CancelWordTimers()
      modifies this
      ensures State() == S.CancelWordTimers(old(State()))
    {
      var hs := wordDisplayTimeouts;
      WithoutNoHandles(pending);
      assert S.Elems(hs[..0]) == {};
      for i := 0 to |hs|
        invariant pending == WithoutHandles(old(pending), S.Elems(hs[..i]))
        invariant wordDisplayTimeouts == hs
        invariant status == old(status) && activity == old(activity) && turn == old(turn)
        invariant display == old(display) && transcriptClearTimeout == old(transcriptClearTimeout)
        invariant nextHandle == old(nextHandle)
      {
        CancelAfterCancel(old(pending), S.Elems(hs[..i]), hs[i]);
        assert S.Elems(hs[..i + 1]) == S.Elems(hs[..i]) + {hs[i]} by {
          assert hs[..i + 1] == hs[..i] + [hs[i]];
        }
        pending := Cancel(pending, hs[i]);
      }
      assert hs[..|hs|] == hs;
      wordDisplayTimeouts := [];
    }

    /** Clear and forget the pending transcript-clear timer, if any. */
    method CancelClearTimer()
      modifies this
      ensures State() == S.CancelClearTimer(old(State()))
    {
      if transcriptClearTimeout.Some? {
        pending := Cancel(pending, transcriptClearTimeout.value);
        transcriptClearTimeout := None;
      }
    }

    /** `resetForNewResponse`. */
    method ResetForNewResponse(now: int)
      modifies this
      ensures State() == S.ResetForNewResponse(old(State()), now)
    {
      turn := turn.(wordsWithIds := [], wordIdCounter := 0, processedWordCount := 0);
      CancelWordTimers();
      turn := turn.(isNewResponse := false, speechStartTime := now);
      CancelClearTimer();
    }

    /** `processNewLlmWords(fullText)`. */
    method ProcessNewLlmWords(fullText: string, now: int)
      modifies this
      ensures State() == S.ProcessNewLlmWords(old(State()), fullText, now)
    {
      var words := Split(fullText);
      ScheduleWords(words, now);
    }

    /** The body of `processNewLlmWords` once the text is split: each word past
        the processed count is numbered, pushed and given a reveal timer, in
        order; the first batch of a turn shows its first word at once. */
    method ScheduleWords(words: seq<string>, now: int)
      modifies this
      ensures State() == S.ScheduleWords(old(State()), words, now)
    {
      var alreadyProcessed := turn.processedWordCount;
      if |words| <= alreadyProcessed {
        return;
      }
      var newWords := words[alreadyProcessed..];
      ScheduleNewWords(newWords, alreadyProcessed, now);
      turn := turn.(processedWordCount := |words|);
      if alreadyProcessed == 0 && |turn.wordsWithIds| > 0 {
        var firstWord := turn.wordsWithIds[0];
        display := display.(assistantText := Some(firstWord.word), assistantWords := [firstWord],
                            lastTranscriptUpdate := now);
      }
    }

    /** The `newWords.forEach` loop of `processNewLlmWords`; the words' turn
        indexes start at `alreadyProcessed`. */
    method ScheduleNewWords(newWords: seq<string>, alreadyProcessed: nat, now: int)
      modifies this
      ensures State() == S.ScheduleEach(old(State()), newWords, alreadyProcessed, |newWords|, now)
    {
      ghost var s0 := State();
      for idx := 0 to |newWords|
        invariant State() == S.ScheduleEach(s0, newWords, alreadyProcessed, idx, now)
      {
        S.ScheduleEachNext(s0, newWords, alreadyProcessed, idx, now);
        ScheduleWord(newWords[idx], alreadyProcessed + idx, now);
      }
    }

    /** One pass of the `newWords.forEach` callback of `processNewLlmWords`:
        the word is numbered and pushed, and its reveal is scheduled
        `globalIdx * 250` ms after speech started. */
    method ScheduleWord(word: string, globalIdx: nat, now: int)
      modifies this
      ensures State() == S.ScheduleWord(old(State()), word, globalIdx, now)
    {
      var wordData := StreamedWord(word, turn.wordIdCounter);
      turn := turn.(wordIdCounter := turn.wordIdCounter + 1);
      turn := turn.(wordsWithIds := turn.wordsWithIds + [wordData]);
      var delay := S.Max(0, globalIdx * S.MsPerWord - (now - turn.speechStartTime));
      var timeout := SetTimeout(now, delay, S.ShowWord(globalIdx));
      wordDisplayTimeouts := wordDisplayTimeouts + [timeout];
    }

    /** `handleBotStartedSpeaking`. */
    method BotStarted(now: int)
      modifies this
      ensures State() == S.BotStarted(old(State()), now)
    {
      activity := activity.(isSpeaking := true, isUserSpeaking := false, isWaitingForResponse := false,
                            lastBotAudioActivity := now);
      display := display.(lastTranscriptUpdate := now);
      ResetForNewResponse(now);
      if S.Truthy(turn.llmText) {
        turn := turn.(useTtsFallback := false);
        ProcessNewLlmWords(turn.llmText.value, now);
      } else {
        var _ := SetTimeout(now, S.FallbackArmDelayMs, S.ArmFallback);
      }
    }

    /** `handleBotStoppedSpeaking`: word timers keep running; the clear timer
        is replaced. */
    method BotStopped(now: int)
      modifies this
      ensures State() == S.BotStopped(old(State()), now)
    {
      activity := activity.(isSpeaking := false, isWaitingForResponse := true, isUserSpeaking := false,
                            lastBotAudioActivity := now);
      turn := turn.(useTtsFallback := false);
      var delayBeforeClear := S.ClearDelay(turn.processedWordCount, now, turn.speechStartTime);
      if transcriptClearTimeout.Some? {
        pending := Cancel(pending, transcriptClearTimeout.value);
      }
      var handle := SetTimeout(now, delayBeforeClear, S.ClearTranscript);
      transcriptClearTimeout := Some(handle);
    }

    /** `handleUserStartedSpeakingWithTextClear`. */
    method UserStarted(now: int)
      modifies this
      ensures State() == S.UserStarted(old(State()), now)
    {
      activity := activity.(isWaitingForResponse := false, isUserSpeaking := true, lastUserActivity := now);
      display := display.(assistantText := None, assistantWords := []);
      turn := turn.(wordsWithIds := [], wordIdCounter := 0, processedWordCount := 0, isNewResponse := true,
                    llmText := None, useTtsFallback := false, speechStartTime := 0);
      CancelWordTimers();
      CancelClearTimer();
    }

    /** `handleUserStoppedSpeaking`. */
    method UserStopped(now: int)
      modifies this
      ensures State() == S.UserStopped(old(State()), now)
    {
      activity := activity.(lastUserActivity := now);
      var _ := SetTimeout(now, S.UserSettleDelayMs, S.SettleUser);
    }

    /** `handleBotLlmText`. */
    method LlmText(text: string, now: int)
      modifies this
      ensures State() == S.LlmText(old(State()), text, now)
    {
      turn := turn.(llmText := Some(S.AppendLlmText(turn.llmText, text)));
      if activity.isSpeaking {
        if turn.useTtsFallback {
          turn := turn.(useTtsFallback := false, wordsWithIds := [], wordIdCounter := 0, processedWordCount := 0);
          CancelWordTimers();
          turn := turn.(speechStartTime := now);
        }
        ProcessNewLlmWords(turn.llmText.value, now);
      }
    }

    /** `handleBotTtsText`. */
    method TtsText(text: string, now: int)
      modifies this
      ensures State() == S.TtsText(old(State()), text, now)
    {
      var ttsText := Trim(text);
      ShowTtsWords(Split(ttsText), now);
    }

    /** The body of `handleBotTtsText` once the fragment is split: in fallback
        mode while speaking, each word is numbered, pushed and shown at once. */
    method ShowTtsWords(words: seq<string>, now: int)
      modifies this
      ensures State() == S.ShowTtsWords(old(State()), words, now)
    {
      if turn.useTtsFallback && activity.isSpeaking {
        if turn.isNewResponse {
          turn := turn.(isNewResponse := false, wordsWithIds := [], wordIdCounter := 0);
        }
        ghost var s1 := State();
        for j := 0 to |words|
          invariant State() == S.ShowEach(s1, words[..j], now)
        {
          assert words[..j + 1][..j] == words[..j];
          ShowTtsWord(words[j], now);
        }
        assert words[..|words|] == words;
      }
    }

    /** One pass of the `words.forEach` callback of `handleBotTtsText`: the
        word is numbered, pushed and the whole turn shown at once. */
    method ShowTtsWord(word: string, now: int)
      modifies this
      ensures State() == S.ShowTtsWord(old(State()), word, now)
    {
      var wordData := StreamedWord(word, turn.wordIdCounter);
      turn := turn.(wordIdCounter := turn.wordIdCounter + 1);
      turn := turn.(wordsWithIds := turn.wordsWithIds + [wordData]);
      var displayWordsWithIds := Window(turn.wordsWithIds, S.MaxDisplayWords);
      var fullTextDisplay := Join(Texts(turn.wordsWithIds));
      display := display.(assistantText := Some(fullTextDisplay));
      display := display.(assistantWords := displayWordsWithIds);
      display := display.(lastTranscriptUpdate := now);
    }

    /** The self-healing step of the visualizer loop for one audio sample. */
    method AudioSample(level: int, now: int)
      modifies this
      ensures State() == S.AudioSample(old(State()), level, now)
    {
      if level > S.BotAudioThreshold {
        activity := activity.(lastBotAudioActivity := now);
      }
      if !activity.isSpeaking && !activity.isUserSpeaking && level > S.BotAudioThreshold {
        activity := activity.(isSpeaking := true, isWaitingForResponse := false, isUserSpeaking := false);
      }
      var silenceDuration := now - activity.lastBotAudioActivity;
      if activity.isSpeaking && silenceDuration > S.BotSilenceLimitMs {
        activity := activity.(isSpeaking := false, isWaitingForResponse := true, isUserSpeaking := false);
        if transcriptClearTimeout.None? {
          var handle := SetTimeout(now, S.SilenceClearDelayMs, S.ClearTranscript);
          transcriptClearTimeout := Some(handle);
        }
      }
    }

    /** One run of the once-a-second janitor interval. */
    method JanitorTick(now: int)
      modifies this
      ensures State() == S.JanitorTick(old(State()), now)
    {
      if activity.isUserSpeaking && now - activity.lastUserActivity > S.UserStaleMs {
        activity := activity.(isUserSpeaking := false);
        if !activity.isSpeaking {
          activity := activity.(isWaitingForResponse := false);
        }
      }
      if !activity.isSpeaking && !activity.isUserSpeaking && |display.assistantWords| > 0
         && now - display.lastTranscriptUpdate > S.TranscriptStaleMs
      {
        display := display.(assistantText := None, assistantWords := [], lastTranscriptUpdate := now);
      }
    }

    /** The SDK delivers one event to the handler registered for it. */
    method Dispatch(e: S.Event)
      modifies this
      ensures State() == S.Step(old(State()), e)
      ensures old(Valid()) ==> Valid()
    {
      ghost var s0 := State();
      match e {
        case BotStartedSpeaking(now) => BotStarted(now);
        case BotStoppedSpeaking(now) => BotStopped(now);
        case UserStartedSpeaking(now) => UserStarted(now);
        case UserStoppedSpeaking(now) => UserStopped(now);
        case BotLlmText(text, now) => LlmText(text, now);
        case BotTtsText(text, now) => TtsText(text, now);
        case AudioLevel(level, now) => AudioSample(level, now);
        case JanitorRun(now) => JanitorTick(now);
        case TransportStateChanged(t) => TransportChanged(t);
      }
      if S.Inv(s0) {
        S.StepInv(s0, e);
      }
    }

    /** `wordDisplayTimeoutsRef.current.indexOf(h)`. */
    static method IndexOf(hs: seq<nat>, h: nat) returns (i: int)
      ensures -1 <= i < |hs|
      ensures i == -1 <==> h !in hs
      ensures i >= 0 ==> hs[i] == h && h !in hs[..i]
    {
      i := 0;
      while i < |hs|
        invariant 0 <= i <= |hs| && h !in hs[..i]
      {
        if hs[i] == h {
          return;
        }
        assert hs[..i + 1] == hs[..i] + [hs[i]];
        i := i + 1;
      }
      assert hs[..i] == hs;
      i := -1;
    }

    /** The event loop takes the earliest due timer off the queue and runs its
        callback; `k` is its position, or -1 when nothing is due. */
    method FireNext(now: int) returns (k: int)
      modifies this
      ensures -1 <= k < |old(pending)|
      ensures k == -1 <==> NoneDue(old(pending), now)
      ensures k == -1 ==> State() == old(State())
      ensures k >= 0 ==> IsEarliestDue(old(pending), now, k) && State() == S.Fire(old(State()), k, now)
      ensures old(Valid()) ==> Valid()
    {
      ghost var s0 := State();
      k := EarliestDue(pending, now);
      if k >= 0 {
        var t := pending[k];
        pending := Cancel(pending, t.handle);
        RunCallback(t.handle, t.kind, now);
        if S.Inv(s0) {
          S.FireInv(s0, k, now);
        }
      }
    }

    /** The callback of the timer with handle `h`, as each `setTimeout` call
        site of the hook writes it. */
    method RunCallback(h: nat, kind: S.Callback, now: int)
      modifies this
      ensures State() == S.RunCallback(old(State()), h, kind, now)
    {
      match kind
      case ShowWord(capturedGlobalIdx) => ShowWordCallback(h, capturedGlobalIdx, now);
      case ClearTranscript => ClearCallback(now);
      case ArmFallback => ArmFallbackCallback();
      case SettleUser => SettleUserCallback();
    }

    /** The reveal scheduled by `processNewLlmWords` for turn index
        `capturedGlobalIdx`; `h` is its own handle. */
    method ShowWordCallback(h: nat, capturedGlobalIdx: nat, now: int)
      modifies this
      ensures State() == S.ShowWordCallback(old(State()), h, capturedGlobalIdx, now)
    {
      var wordsToShow := Prefix(turn.wordsWithIds, capturedGlobalIdx + 1);
      display := display.(assistantText := Some(Join(Texts(wordsToShow))),
                          assistantWords := Window(wordsToShow, S.MaxDisplayWords),
                          lastTranscriptUpdate := now);
      var i := IndexOf(wordDisplayTimeouts, h);
      if i > -1 {
        S.RemoveFirstSplice(wordDisplayTimeouts, h, i);
        wordDisplayTimeouts := wordDisplayTimeouts[..i] + wordDisplayTimeouts[i + 1..];
      }
    }

    /** The clear scheduled by `handleBotStoppedSpeaking` or the silence
        check. */
    method ClearCallback(now: int)
      modifies this
      ensures State() == S.ClearCallback(old(State()), now)
    {
      if !activity.isSpeaking {
        display := display.(assistantText := None, assistantWords := [], lastTranscriptUpdate := now);
      }
      transcriptClearTimeout := None;
    }

    /** The fallback switch scheduled by `handleBotStartedSpeaking`. */
    method ArmFallbackCallback()
      modifies this
      ensures State() == S.ArmFallbackCallback(old(State()))
    {
      if !S.Truthy(turn.llmText) && activity.isSpeaking && turn.processedWordCount == 0 {
        turn := turn.(useTtsFallback := true);
      }
    }

    /** The settle scheduled by `handleUserStoppedSpeaking`. */
    method SettleUserCallback()
      modifies this
      ensures State() == S.SettleUserCallback(old(State()))
    {
      if !activity.isSpeaking {
        activity := activity.(isUserSpeaking := false, isWaitingForResponse := false);
      }
    }

    /** A change of the transport state. */
    method TransportChanged(t: S.TransportState)
      modifies this
      ensures State() == S.TransportChanged(old(State()), t)
    {
      var wasConnected := S.IsConnected(status.transport);
      status := status.(transport := t);
      if S.IsConnected(t) || t == S.Error || t == S.Disconnected {
        status := status.(isConnecting := false);
      }
      if wasConnected && !S.IsConnected(t) {
        activity := S.Activity(false, false, false, 0, 0);
      }
    }

    /** `connect(agent)`: the query parameters sent to the relay when the SDK
        call is made, `None` when a guard returns first. */
    method Connect(hasClient: bool, agent: AgentProfile, outcome: S.CallOutcome)
      returns (query: Option<seq<(string, string)>>)
      modifies this
      ensures State() == S.Connect(old(State()), hasClient, outcome).0
      ensures query.Some? == S.Connect(old(State()), hasClient, outcome).1
      ensures query.Some? ==> query.value == ConnectQuery(agent)
      ensures old(Valid()) ==> Valid()
    {
      ghost var s0 := State();
      query := None;
      if !hasClient {
        status := status.(error := Some("Pipecat client is not initialized"));
      } else if !(status.isConnecting || S.IsConnected(status.transport)) {
        status := status.(isConnecting := true, error := None);
        query := Some(ConnectQuery(agent));
        match outcome
        case Succeeded =>
        case Failed(message) =>
          status := status.(error := Some(if message != "" then message else "Failed to connect to agent"));
          status := status.(isConnecting := false);
      }
      if S.Inv(s0) {
        S.ConnectInv(s0, hasClient, outcome);
      }
    }

    /** `disconnect()`. */
    method Disconnect(hasClient: bool, outcome: S.CallOutcome)
      modifies this
      ensures State() == S.Disconnect(old(State()), hasClient, outcome)
      ensures old(Valid()) ==> Valid()
    {
      ghost var s0 := State();
      if hasClient {
        status := status.(isConnecting := false);
        match outcome
        case Failed(message) =>
          status := status.(error := Some(if message != "" then message else "Failed to disconnect"));
        case Succeeded =>
          activity := S.Activity(false, false, false, 0, 0);
          status := status.(error := None);
          display := S.Display(None, [], 0);
          turn := turn.(wordsWithIds := [], wordIdCounter := 0, processedWordCount := 0, llmText := None,
                        useTtsFallback := false, speechStartTime := 0);
          CancelWordTimers();
          CancelClearTimer();
      }
      if S.Inv(s0) {
        S.DisconnectInv(s0, hasClient, outcome);
      }
    }
  }
}
