/** What the transcript scheduler promises, stated over the handler functions
    of `PipecatState`: streaming without rescheduling, paced reveals, the
    18-word window, and the effect of every turn event. */
module PipecatProperties {
  import opened Wrappers
  import opened Words
  import opened Timers
  import opened PipecatState

  // ---------------------------------------------------------------------------
  // Accumulating LLM text

  /** The accumulated LLM text has exactly the words seen so far followed by
      the fragment's words: the separating space never glues two words. */
  lemma AppendLlmTextWords(current: Option<string>, fragment: string)
    ensures Split(AppendLlmText(current, fragment)) == Split(current.GetOr("")) + Split(fragment)
  {
    var base := current.GetOr("");
    if base == "" {
      AppendToEmpty(current, fragment);
    } else if base[|base| - 1] != ' ' {
      AppendWithSpace(current, fragment);
    } else {
      AppendAfterSpace(current, fragment);
    }
  }

  /** The first fragment becomes the text. */
  lemma AppendToEmpty(current: Option<string>, fragment: string)
    requires current.GetOr("") == ""
    ensures Split(AppendLlmText(current, fragment)) == Split(current.GetOr("")) + Split(fragment)
  {
    assert AppendLlmText(current, fragment) == Trim(fragment);
    assert Split(current.GetOr("")) == [];
    SplitTrim(fragment);
  }

  /** A fragment after text that does not end in a space is joined by one. */
  lemma AppendWithSpace(current: Option<string>, fragment: string)
    requires current.GetOr("") != "" && current.GetOr("")[|current.GetOr("")| - 1] != ' '
    ensures Split(AppendLlmText(current, fragment)) == Split(current.GetOr("")) + Split(fragment)
  {
    var base, text := current.GetOr(""), Trim(fragment);
    assert AppendLlmText(current, fragment) == base + " " + text;
    SplitAroundSpace(base, text);
    SplitTrim(fragment);
  }

  /** A fragment after text that ends in a space is appended as it is. */
  lemma AppendAfterSpace(current: Option<string>, fragment: string)
    requires current.GetOr("") != "" && current.GetOr("")[|current.GetOr("")| - 1] == ' '
    ensures Split(AppendLlmText(current, fragment)) == Split(current.GetOr("")) + Split(fragment)
  {
    var base, text := current.GetOr(""), Trim(fragment);
    assert AppendLlmText(current, fragment) == base + text;
    SplitAfterSpace(base, text);
    SplitTrim(fragment);
  }

  // ---------------------------------------------------------------------------
  // Scheduling LLM words

  /** `processNewLlmWords` schedules exactly the words past the processed
      count, one reveal timer each, and afterwards the count is the larger of
      the old count and the number of words in the text. */
  lemma ProcessNewLlmWordsSchedules(s: EngineState, text: string, now: int)
    requires Inv(s) && !s.turn.useTtsFallback
    ensures var r := ProcessNewLlmWords(s, text, now);
      var n := |r.turn.wordsWithIds| - |s.turn.wordsWithIds|;
      r.turn.processedWordCount == Max(s.turn.processedWordCount, |Split(text)|)
      && n == r.turn.processedWordCount - s.turn.processedWordCount
      && r.pending == s.pending + WordTimers(s.nextHandle, s.turn.processedWordCount, n, now, s.turn.speechStartTime)
      && r.turn.wordsWithIds[..|s.turn.wordsWithIds|] == s.turn.wordsWithIds
      && (|Split(text)| <= s.turn.processedWordCount ==> r == s)
      && (|Split(text)| > s.turn.processedWordCount ==>
            Texts(r.turn.wordsWithIds[|s.turn.wordsWithIds|..]) == Split(text)[s.turn.processedWordCount..])
  {
    ScheduleWordsIsBatch(s, Split(text), now);
    BatchSchedules(s, Split(text), now);
  }

  lemma BatchSchedules(s: EngineState, words: seq<string>, now: int)
    ensures var r := ScheduledBatch(s, words, now);
      var n := |r.turn.wordsWithIds| - |s.turn.wordsWithIds|;
      r.turn.processedWordCount == Max(s.turn.processedWordCount, |words|)
      && n == r.turn.processedWordCount - s.turn.processedWordCount
      && r.pending == s.pending + WordTimers(s.nextHandle, s.turn.processedWordCount, n, now, s.turn.speechStartTime)
      && r.turn.wordsWithIds[..|s.turn.wordsWithIds|] == s.turn.wordsWithIds
      && (|words| <= s.turn.processedWordCount ==> r == s)
      && (|words| > s.turn.processedWordCount ==>
            Texts(r.turn.wordsWithIds[|s.turn.wordsWithIds|..]) == words[s.turn.processedWordCount..])
  {
    var r := ScheduledBatch(s, words, now);
    if |words| <= s.turn.processedWordCount {
      assert WordTimers(s.nextHandle, s.turn.processedWordCount, 0, now, s.turn.speechStartTime) == [];
      assert s.pending + [] == s.pending;
    } else {
      ScheduledBatchFields(s, words, now);
      var added := Numbered(words[s.turn.processedWordCount..], s.turn.wordIdCounter);
      TextsAppendNumbered(s.turn.wordsWithIds, words[s.turn.processedWordCount..], s.turn.wordIdCounter);
      assert r.turn.wordsWithIds[|s.turn.wordsWithIds|..] == added;
    }
  }

  /** Feeding the same cumulative text twice schedules nothing the second
      time and changes no cell. */
  lemma ProcessNewLlmWordsIdempotent(s: EngineState, text: string, now: int, later: int)
    requires Inv(s) && !s.turn.useTtsFallback
    ensures var r := ProcessNewLlmWords(s, text, now);
      ProcessNewLlmWords(r, text, later) == r
  {
    ProcessNewLlmWordsSchedules(s, text, now);
  }

  lemma SplitThreeWords(a: string, b: string, c: string)
    requires IsWord(a) && IsWord(b) && IsWord(c)
    ensures Split(a) == [a]
    ensures Split(a + " " + b) == [a, b]
    ensures Split(a + " " + b + " " + c) == [a, b, c]
  {
    SplitWord(a);
    SplitWord(b);
    SplitWord(c);
    SplitAroundSpace(a, b);
    SplitAroundSpace(a + " " + b, c);
  }

  /** One step of a stream: when the words scheduled so far are a prefix of
      the text's words, the text's remaining words are scheduled after them,
      one reveal timer each. */
  lemma StreamStep(s: EngineState, text: string, now: int)
    requires Inv(s) && !s.turn.useTtsFallback
    requires s.turn.processedWordCount == |s.turn.wordsWithIds| && |s.turn.wordsWithIds| <= |Split(text)|
    requires Texts(s.turn.wordsWithIds) == Split(text)[..|s.turn.wordsWithIds|]
    ensures var r := ProcessNewLlmWords(s, text, now);
      && Inv(r) && !r.turn.useTtsFallback
      && r.turn.processedWordCount == |Split(text)| && |r.turn.wordsWithIds| == |Split(text)|
      && Texts(r.turn.wordsWithIds) == Split(text)
      && |r.pending| == |s.pending| + |Split(text)| - |s.turn.wordsWithIds|
  {
    var r := ProcessNewLlmWords(s, text, now);
    var ws, k := Split(text), |s.turn.wordsWithIds|;
    ProcessNewLlmWordsSchedules(s, text, now);
    ProcessNewLlmWordsInv(s, text, now);
    ScheduleWordsFrame(s, ws, now);
    WordTimersPaced(s.nextHandle, k, |ws| - k, now, s.turn.speechStartTime);
    Cut(ws, k);
    if |ws| > k {
      TextsCut(r.turn.wordsWithIds, k);
    }
  }

  /** Streaming a growing cumulative text `a`, `a b`, `a b c` schedules each
      word exactly once: three words and three reveal timers in all. */
  lemma StreamingSchedulesEachWordOnce(s: EngineState, a: string, b: string, c: string,
                                       t1: int, t2: int, t3: int)
    requires Inv(s) && !s.turn.useTtsFallback && s.turn.wordsWithIds == []
    requires IsWord(a) && IsWord(b) && IsWord(c)
    ensures var r1 := ProcessNewLlmWords(s, a, t1);
      var r2 := ProcessNewLlmWords(r1, a + " " + b, t2);
      var r3 := ProcessNewLlmWords(r2, a + " " + b + " " + c, t3);
      r3.turn.processedWordCount == 3 && Texts(r3.turn.wordsWithIds) == [a, b, c]
      && |r3.pending| == |s.pending| + 3
  {
    SplitThreeWords(a, b, c);
    var r1 := ProcessNewLlmWords(s, a, t1);
    StreamStep(s, a, t1);
    var r2 := ProcessNewLlmWords(r1, a + " " + b, t2);
    assert [a, b][..1] == [a];
    StreamStep(r1, a + " " + b, t2);
    assert [a, b, c][..2] == [a, b];
    StreamStep(r2, a + " " + b + " " + c, t3);
  }

  /** The concrete stream `hello`, `hello world`, `hello world today`. */
  lemma HelloWorldTodayStream(s: EngineState, t1: int, t2: int, t3: int)
    requires Inv(s) && !s.turn.useTtsFallback && s.turn.wordsWithIds == []
    ensures var r1 := ProcessNewLlmWords(s, "hello", t1);
      var r2 := ProcessNewLlmWords(r1, "hello world", t2);
      var r3 := ProcessNewLlmWords(r2, "hello world today", t3);
      r3.turn.processedWordCount == 3 && Texts(r3.turn.wordsWithIds) == ["hello", "world", "today"]
  {
    assert IsWord("hello");
    assert IsWord("world");
    assert IsWord("today");
    assert "hello" + " " + "world" == "hello world";
    assert "hello" + " " + "world" + " " + "today" == "hello world today";
    StreamingSchedulesEachWordOnce(s, "hello", "world", "today", t1, t2, t3);
  }

  /** The reveal of the word at turn index `first + j` is due
      `max(0, (first + j) * 250 - (now - anchor))` after `now`: never before
      `now`, never before the word's target time, and never before the
      reveal of an earlier word of the batch. */
  lemma WordTimersPaced(h0: nat, first: nat, n: nat, now: int, anchor: int)
    ensures var w := WordTimers(h0, first, n, now, anchor);
      |w| == n
      && (forall j :: 0 <= j < n ==>
            w[j].handle == h0 + j && w[j].kind == ShowWord(first + j)
            && w[j].fireAt == now + Max(0, (first + j) * MsPerWord - (now - anchor))
            && w[j].fireAt >= now && w[j].fireAt >= anchor + (first + j) * MsPerWord)
      && (forall i, j :: 0 <= i <= j < n ==> w[i].fireAt <= w[j].fireAt)
  {
    var w := WordTimers(h0, first, n, now, anchor);
    forall j | 0 <= j < n
      ensures w[j] == Timer(h0 + j, now + Max(0, (first + j) * MsPerWord - (now - anchor)), ShowWord(first + j))
    {
      assert w[j] == Timer(h0 + j, now + WordDelay(first + j, now, anchor), ShowWord(first + j));
    }
    forall i, j | 0 <= i <= j < n ensures w[i].fireAt <= w[j].fireAt {
      assert (first + i) * MsPerWord <= (first + j) * MsPerWord;
    }
  }

  // ---------------------------------------------------------------------------
  // LLM text while the bot speaks

  /** In LLM mode the scheduled words are exactly the words of the
      accumulated LLM text, each scheduled once. */
  predicate InSync(s: EngineState) {
    Texts(s.turn.wordsWithIds) == Split(s.turn.llmText.GetOr("")) && s.turn.processedWordCount == |s.turn.wordsWithIds|
  }

  /** A fragment arriving while the bot speaks in LLM mode schedules exactly
      the fragment's words, after the ones already scheduled, and keeps the
      word list in step with the accumulated text. */
  lemma LlmTextSchedulesFragment(s: EngineState, text: string, now: int)
    requires Inv(s) && InSync(s) && s.activity.isSpeaking && !s.turn.useTtsFallback
    ensures var r := LlmText(s, text, now);
      InSync(r) && r.activity.isSpeaking && !r.turn.useTtsFallback
      && r.turn.llmText == Some(AppendLlmText(s.turn.llmText, text))
      && r.turn.wordsWithIds[..|s.turn.wordsWithIds|] == s.turn.wordsWithIds
      && r.pending == s.pending + WordTimers(s.nextHandle, |s.turn.wordsWithIds|, |Split(text)|, now, s.turn.speechStartTime)
  {
    var llm := AppendLlmText(s.turn.llmText, text);
    AppendLlmTextWords(s.turn.llmText, text);
    var s1 := s.(turn := s.turn.(llmText := Some(llm)));
    assert LlmText(s, text, now) == ProcessNewLlmWords(s1, llm, now);
    ScheduleWordsIsBatch(s1, Split(llm), now);
    BatchAppends(s1, Split(s.turn.llmText.GetOr("")), Split(text), now);
  }

  /** Scheduling a text that extends the one already scheduled adds exactly
      the extension's words, each with its reveal timer. */
  lemma BatchAppends(s: EngineState, words: seq<string>, extra: seq<string>, now: int)
    requires Texts(s.turn.wordsWithIds) == words && s.turn.processedWordCount == |s.turn.wordsWithIds|
    ensures var r := ScheduledBatch(s, words + extra, now);
      Texts(r.turn.wordsWithIds) == words + extra && r.turn.processedWordCount == |r.turn.wordsWithIds|
      && r.turn.wordsWithIds[..|s.turn.wordsWithIds|] == s.turn.wordsWithIds
      && r.pending == s.pending + WordTimers(s.nextHandle, |s.turn.wordsWithIds|, |extra|, now, s.turn.speechStartTime)
      && r.activity.isSpeaking == s.activity.isSpeaking && r.turn.useTtsFallback == s.turn.useTtsFallback && r.turn.llmText == s.turn.llmText
  {
    BatchSchedules(s, words + extra, now);
    var r := ScheduledBatch(s, words + extra, now);
    var m := |s.turn.wordsWithIds|;
    assert |Texts(s.turn.wordsWithIds)| == m;
    if extra == [] {
      assert words + extra == words;
      assert WordTimers(s.nextHandle, m, 0, now, s.turn.speechStartTime) == [];
    } else {
      assert r.turn.wordsWithIds == r.turn.wordsWithIds[..m] + r.turn.wordsWithIds[m..];
      TextsAppend(r.turn.wordsWithIds[..m], r.turn.wordsWithIds[m..]);
      assert (words + extra)[m..] == extra;
    }
  }

  /** While the bot is silent a fragment only accumulates: nothing is
      scheduled or shown. */
  lemma LlmTextWhileSilent(s: EngineState, text: string, now: int)
    requires !s.activity.isSpeaking
    ensures var r := LlmText(s, text, now);
      Split(r.turn.llmText.GetOr("")) == Split(s.turn.llmText.GetOr("")) + Split(text)
      && r.pending == s.pending && r.turn.wordsWithIds == s.turn.wordsWithIds && r.display.assistantWords == s.display.assistantWords
  {
    AppendLlmTextWords(s.turn.llmText, text);
  }

  /** LLM text arriving in fallback mode leaves fallback, drops the TTS words
      and their reveal timers, re-anchors the turn at `now` and schedules the
      whole accumulated text afresh. */
  lemma LlmTextLeavesFallback(s: EngineState, text: string, now: int)
    requires Inv(s) && s.activity.isSpeaking && s.turn.useTtsFallback
    ensures var r := LlmText(s, text, now);
      !r.turn.useTtsFallback && r.turn.speechStartTime == now && InSync(r)
      && (forall t :: t in r.pending && t.kind.ShowWord? ==> t.handle >= s.nextHandle)
      && (forall t :: t in s.pending && !t.kind.ShowWord? ==> t in r.pending)
  {
    var llm := AppendLlmText(s.turn.llmText, text);
    TimerInvCancelWords(s.pending, s.nextHandle, s.wordDisplayTimeouts, s.transcriptClearTimeout,
                        s.turn.processedWordCount, s.turn.speechStartTime, 0, now);
    var q := WithoutHandles(s.pending, Elems(s.wordDisplayTimeouts));
    var s2 := s.(turn := s.turn.(llmText := Some(llm), useTtsFallback := false, wordsWithIds := [], wordIdCounter := 0, processedWordCount := 0, speechStartTime := now), pending := q, wordDisplayTimeouts := []);
    assert Inv(s2);
    var r := LlmText(s, text, now);
    assert r == ProcessNewLlmWords(s2, llm, now);
    LlmTextFromScratch(s2, llm, now);
  }

  /** Scheduling a whole text from an empty word list: the words are exactly
      the text's, and every reveal timer is fresh. */
  lemma LlmTextFromScratch(s: EngineState, llm: string, now: int)
    requires Inv(s) && !s.turn.useTtsFallback && s.turn.wordsWithIds == [] && s.turn.processedWordCount == 0
    requires forall t :: t in s.pending ==> !t.kind.ShowWord?
    ensures var r := ProcessNewLlmWords(s, llm, now);
      Texts(r.turn.wordsWithIds) == Split(llm) && r.turn.processedWordCount == |r.turn.wordsWithIds|
      && r.turn.speechStartTime == s.turn.speechStartTime && r.turn.useTtsFallback == s.turn.useTtsFallback
      && r.turn.llmText == s.turn.llmText
      && (forall t :: t in r.pending && t.kind.ShowWord? ==> t.handle >= s.nextHandle)
      && (forall t :: t in s.pending ==> t in r.pending)
  {
    ProcessNewLlmWordsSchedules(s, llm, now);
    ScheduleWordsIsBatch(s, Split(llm), now);
    var r := ProcessNewLlmWords(s, llm, now);
    assert r.turn.wordsWithIds[0..] == r.turn.wordsWithIds;
    WordTimersFacts(s.nextHandle, 0, |r.turn.wordsWithIds|, now, s.turn.speechStartTime);
  }

  lemma AppendStep(current: string, fragment: string, ws: seq<string>, fs: seq<string>)
    requires Split(current) == ws && Split(fragment) == fs
    ensures Split(AppendLlmText(Some(current), fragment)) == ws + fs
  {
    AppendLlmTextWords(Some(current), fragment);
  }

  lemma FirstFragment(start: Option<string>, a: string)
    requires start.GetOr("") == "" && IsWord(a)
    ensures Split(AppendLlmText(start, a)) == [a]
  {
    AppendLlmTextWords(start, a);
    SplitWord(a);
    assert Split(start.GetOr("")) == [] by {
      assert start.GetOr("") == [];
    }
  }

  /** The words of three appended fragments `a`, `a b`, `a b c`. */
  lemma CumulativeAccumulation(start: Option<string>, a: string, b: string, c: string,
                               l1: string, l2: string, l3: string)
    requires start.GetOr("") == ""
    requires IsWord(a) && IsWord(b) && IsWord(c)
    requires l1 == AppendLlmText(start, a)
    requires l2 == AppendLlmText(Some(l1), a + " " + b)
    requires l3 == AppendLlmText(Some(l2), a + " " + b + " " + c)
    ensures Split(l3) == [a, a, b, a, b, c]
  {
    SplitThreeWords(a, b, c);
    FirstFragment(start, a);
    RepeatedPrefixes(a, b, c);
    AppendStep(l1, a + " " + b, [a], [a, b]);
    AppendStep(l2, a + " " + b + " " + c, [a, a, b], [a, b, c]);
  }

  lemma RepeatedPrefixes<T>(a: T, b: T, c: T)
    ensures [a] + [a, b] == [a, a, b]
    ensures [a, a, b] + [a, b, c] == [a, a, b, a, b, c]
  {
  }

  /** The code appends every `botLlmText` fragment. A source that sends the
      cumulative text so far, `a`, `a b`, `a b c`, therefore accumulates six
      words, and six reveals are scheduled while the bot speaks. */
  lemma CumulativeFragmentsRepeatWords(s: EngineState, a: string, b: string, c: string,
                                       t1: int, t2: int, t3: int)
    requires Inv(s) && InSync(s) && s.activity.isSpeaking && !s.turn.useTtsFallback && s.turn.llmText.GetOr("") == ""
    requires IsWord(a) && IsWord(b) && IsWord(c)
    ensures var r1 := LlmText(s, a, t1);
      var r2 := LlmText(r1, a + " " + b, t2);
      var r3 := LlmText(r2, a + " " + b + " " + c, t3);
      Texts(r3.turn.wordsWithIds) == [a, a, b, a, b, c] && r3.turn.processedWordCount == 6
  {
    var r1 := LlmText(s, a, t1);
    LlmTextSchedulesFragment(s, a, t1);
    LlmTextInv(s, a, t1);
    var r2 := LlmText(r1, a + " " + b, t2);
    LlmTextSchedulesFragment(r1, a + " " + b, t2);
    LlmTextInv(r1, a + " " + b, t2);
    var r3 := LlmText(r2, a + " " + b + " " + c, t3);
    LlmTextSchedulesFragment(r2, a + " " + b + " " + c, t3);
    CumulativeAccumulation(s.turn.llmText, a, b, c, r1.turn.llmText.value, r2.turn.llmText.value, r3.turn.llmText.value);
  }

  // ---------------------------------------------------------------------------
  // The display

  /** A reveal firing for turn index `i` shows the last (at most 18) words of
      the first `i + 1`, ending with word `i` itself, and the text of the
      whole prefix; the timer leaves the word-timer ref. */
  lemma RevealShowsPrefix(s: EngineState, k: nat, now: int)
    requires Inv(s) && k < |s.pending| && s.pending[k].kind.ShowWord?
    ensures var i := s.pending[k].kind.index;
      var r := Fire(s, k, now);
      i < |s.turn.wordsWithIds|
      && r.display.assistantWords == Window(s.turn.wordsWithIds[..i + 1], MaxDisplayWords)
      && r.display.assistantText == Some(Join(Texts(s.turn.wordsWithIds[..i + 1])))
      && 0 < |r.display.assistantWords| <= MaxDisplayWords
      && r.display.assistantWords[|r.display.assistantWords| - 1] == s.turn.wordsWithIds[i]
      && r.display.assistantWords[|r.display.assistantWords| - 1].id == i
      && s.pending[k].handle !in r.wordDisplayTimeouts
  {
    var t := s.pending[k];
    assert t in s.pending;
    var i := t.kind.index;
    assert Prefix(s.turn.wordsWithIds, i + 1) == s.turn.wordsWithIds[..i + 1];
    TimerInvFire(s.pending, s.nextHandle, s.wordDisplayTimeouts, s.transcriptClearTimeout,
                 s.turn.processedWordCount, s.turn.speechStartTime, k);
    RemoveFirstDistinct(s.wordDisplayTimeouts, t.handle);
  }

  /** The first batch of a turn shows its first word at once. */
  lemma FirstBatchShowsFirstWord(s: EngineState, text: string, now: int)
    requires Inv(s) && !s.turn.useTtsFallback && s.turn.processedWordCount == 0 && s.turn.wordsWithIds == []
    requires Split(text) != []
    ensures var r := ProcessNewLlmWords(s, text, now);
      r.display.assistantWords == [StreamedWord(Split(text)[0], 0)]
      && r.display.assistantText == Some(Split(text)[0]) && r.display.lastTranscriptUpdate == now
  {
    var words := Split(text);
    ScheduleWordsIsBatch(s, words, now);
    var s1 := ScheduleProgress(s, words[0..], 0, |words|, now);
    assert words[0..][..|words|] == words;
    assert s1.turn.wordsWithIds == Numbered(words, 0);
    assert s1.turn.wordsWithIds[0] == StreamedWord(words[0], 0);
  }

  // ---------------------------------------------------------------------------
  // Bot turn events

  /** Bot start: the bot speaks and nobody waits; the previous turn's word
      timers and clear timer are cancelled and the turn is re-anchored at
      `now`. With LLM text at hand its words are scheduled (and stay in step
      with it); without, the fallback check is set for 200 ms later. */
  lemma BotStartedEffects(s: EngineState, now: int)
    requires Inv(s)
    ensures var r := BotStarted(s, now);
      r.activity.isSpeaking && !r.activity.isUserSpeaking && !r.activity.isWaitingForResponse
      && r.turn.speechStartTime == now && r.transcriptClearTimeout == None
      && (forall t :: t in r.pending ==> !t.kind.ClearTranscript?)
      && (forall t :: t in r.pending && t.kind.ShowWord? ==> t.handle >= s.nextHandle)
      && (forall t :: t in s.pending && (t.kind.ArmFallback? || t.kind.SettleUser?) ==> t in r.pending)
      && (Truthy(s.turn.llmText) ==> !r.turn.useTtsFallback && InSync(r))
      && (!Truthy(s.turn.llmText) ==>
            r.turn.wordsWithIds == [] && r.turn.processedWordCount == 0
            && Timer(s.nextHandle, now + FallbackArmDelayMs, ArmFallback) in r.pending)
  {
    var s1 := s.(activity := s.activity.(isSpeaking := true, isUserSpeaking := false, isWaitingForResponse := false, lastBotAudioActivity := now), display := s.display.(lastTranscriptUpdate := now));
    ResetForNewResponseInv(s1, now);
    var s2 := ResetForNewResponse(s1, now);
    if Truthy(s2.turn.llmText) {
      ScheduleWordsFrame(s2.(turn := s2.turn.(useTtsFallback := false)), Split(s2.turn.llmText.value), now);
      LlmTextFromScratch(s2.(turn := s2.turn.(useTtsFallback := false)), s2.turn.llmText.value, now);
      BotStartedWithText(s2.(turn := s2.turn.(useTtsFallback := false)), now);
    } else {
      var x := Timer(s.nextHandle, now + FallbackArmDelayMs, ArmFallback);
      assert BotStarted(s, now).pending == s2.pending + [x];
      assert x in s2.pending + [x];
    }
  }

  lemma BotStartedWithText(s: EngineState, now: int)
    requires Inv(s) && !s.turn.useTtsFallback && Truthy(s.turn.llmText) && s.turn.wordsWithIds == []
    requires s.turn.processedWordCount == 0 && s.transcriptClearTimeout == None
    requires forall t :: t in s.pending ==> !t.kind.ShowWord? && !t.kind.ClearTranscript?
    ensures var r := ProcessNewLlmWords(s, s.turn.llmText.value, now);
      (forall t :: t in r.pending ==> !t.kind.ClearTranscript?)
      && InSync(r) && r.transcriptClearTimeout == None
  {
    var r := ProcessNewLlmWords(s, s.turn.llmText.value, now);
    ScheduleWordsIsBatch(s, Split(s.turn.llmText.value), now);
    LlmTextFromScratch(s, s.turn.llmText.value, now);
    ProcessNewLlmWordsInv(s, s.turn.llmText.value, now);
    HandleSetsMembers(r.pending);
  }

  /** Bot stop: the bot is silent and the user is awaited; the pending word
      timers run on untouched, and any clear timer is replaced by exactly one
      that fires once the scheduled words have had their time, plus two
      seconds. */
  lemma BotStoppedEffects(s: EngineState, now: int)
    requires Inv(s)
    ensures var r := BotStopped(s, now);
      var delay := ClearDelay(s.turn.processedWordCount, now, s.turn.speechStartTime);
      !r.activity.isSpeaking && r.activity.isWaitingForResponse && !r.activity.isUserSpeaking && !r.turn.useTtsFallback
      && r.wordDisplayTimeouts == s.wordDisplayTimeouts && r.turn.wordsWithIds == s.turn.wordsWithIds
      && (forall t: Timer<Callback> :: t.kind.ShowWord? ==> (t in r.pending <==> t in s.pending))
      && r.transcriptClearTimeout == Some(s.nextHandle)
      && Timer(s.nextHandle, now + delay, ClearTranscript) in r.pending
      && (forall t :: t in r.pending && t.kind.ClearTranscript? ==> t == Timer(s.nextHandle, now + delay, ClearTranscript))
      && delay >= ClearPauseMs
      && now + delay >= s.turn.speechStartTime + s.turn.processedWordCount * MsPerWord
  {
    TimerInvCancelClear(s.pending, s.nextHandle, s.wordDisplayTimeouts, s.transcriptClearTimeout,
                        s.turn.processedWordCount, s.turn.speechStartTime);
    var q := if s.transcriptClearTimeout.Some? then Cancel(s.pending, s.transcriptClearTimeout.value) else s.pending;
    var delay := ClearDelay(s.turn.processedWordCount, now, s.turn.speechStartTime);
    var x := Timer(s.nextHandle, now + delay, ClearTranscript);
    var r := BotStopped(s, now);
    assert r.pending == q + [x];
    assert x in q + [x];
  }

  /** The clear timer fires: the transcript is cleared unless the bot has
      started speaking again, and the clear ref is emptied. */
  lemma ClearTimerFires(s: EngineState, k: nat, now: int)
    requires Inv(s) && k < |s.pending| && s.pending[k].kind.ClearTranscript?
    ensures var r := Fire(s, k, now);
      r.transcriptClearTimeout == None
      && (forall t :: t in r.pending ==> !t.kind.ClearTranscript?)
      && (!s.activity.isSpeaking ==> r.display.assistantWords == [] && r.display.assistantText == None)
      && (s.activity.isSpeaking ==> r.display.assistantWords == s.display.assistantWords && r.display.assistantText == s.display.assistantText)
      && r.turn.wordsWithIds == s.turn.wordsWithIds
  {
    TimerInvFire(s.pending, s.nextHandle, s.wordDisplayTimeouts, s.transcriptClearTimeout,
                 s.turn.processedWordCount, s.turn.speechStartTime, k);
    var q := Cancel(s.pending, s.pending[k].handle);
    HandleSetsMembers(q);
  }

  /** The fallback check 200 ms after a start without LLM text: TTS fallback
      is switched on exactly when there is still no LLM text, the bot still
      speaks and no word has been scheduled. */
  lemma ArmFallbackFires(s: EngineState, k: nat, now: int)
    requires k < |s.pending| && s.pending[k].kind.ArmFallback?
    ensures var r := Fire(s, k, now);
      r.turn.useTtsFallback == (s.turn.useTtsFallback || (!Truthy(s.turn.llmText) && s.activity.isSpeaking && s.turn.processedWordCount == 0))
      && r.turn.wordsWithIds == s.turn.wordsWithIds && r.display.assistantWords == s.display.assistantWords
  {
  }

  // ---------------------------------------------------------------------------
  // User turn events

  /** User start: the user speaks and nobody waits; the displayed transcript,
      the LLM text, the word list and counters and fallback mode are cleared,
      the anchor is reset to 0, and every word timer and the clear timer are
      cancelled while other timers stay pending. */
  lemma UserStartedEffects(s: EngineState, now: int)
    requires Inv(s)
    ensures var r := UserStarted(s, now);
      r.activity.isUserSpeaking && !r.activity.isWaitingForResponse && r.activity.lastUserActivity == now
      && r.display.assistantWords == [] && r.display.assistantText == None && r.turn.llmText == None
      && r.turn.wordsWithIds == [] && r.turn.wordIdCounter == 0 && r.turn.processedWordCount == 0
      && r.turn.isNewResponse && !r.turn.useTtsFallback && r.turn.speechStartTime == 0
      && r.wordDisplayTimeouts == [] && r.transcriptClearTimeout == None
      && (forall t :: t in r.pending <==> t in s.pending && !t.kind.ShowWord? && !t.kind.ClearTranscript?)
  {
    TimerInvCancelWords(s.pending, s.nextHandle, s.wordDisplayTimeouts, s.transcriptClearTimeout,
                        s.turn.processedWordCount, s.turn.speechStartTime, 0, 0);
    var q := WithoutHandles(s.pending, Elems(s.wordDisplayTimeouts));
    TimerInvCancelClear(q, s.nextHandle, [], s.transcriptClearTimeout, 0, 0);
  }

  /** User stop: 300 ms later the user is taken to have finished, unless the
      bot is speaking by then. */
  lemma UserStoppedSettles(s: EngineState, now: int, later: int)
    requires Inv(s)
    ensures var r := UserStopped(s, now);
      var k := |r.pending| - 1;
      r.pending[k] == Timer(s.nextHandle, now + UserSettleDelayMs, SettleUser)
      && var f := Fire(r, k, later);
      (!s.activity.isSpeaking ==> !f.activity.isUserSpeaking && !f.activity.isWaitingForResponse)
      && (s.activity.isSpeaking ==> f.activity.isUserSpeaking == s.activity.isUserSpeaking && f.activity.isWaitingForResponse == s.activity.isWaitingForResponse)
  {
  }

  /** The user-settle timer fires, whatever happened since it was armed: the
      user's turn ends unless the bot is speaking at that moment, in which
      case the activity flags are left alone; only the timer itself leaves
      the queue. */
  lemma SettleTimerFires(s: EngineState, k: nat, now: int)
    requires k < |s.pending| && s.pending[k].kind.SettleUser?
    ensures var r := Fire(s, k, now);
      && (!s.activity.isSpeaking ==> r.activity == s.activity.(isUserSpeaking := false, isWaitingForResponse := false))
      && (s.activity.isSpeaking ==> r.activity == s.activity)
      && r == s.(pending := Cancel(s.pending, s.pending[k].handle), activity := r.activity)
  {
  }

  /** A transport change: the connecting flag drops exactly when the new
      state is connected, ready, an error or disconnected; the activity is
      reset exactly when the transport leaves the connected states; the
      transcript, the display and the timers are untouched. */
  lemma TransportChangedEffects(s: EngineState, t: TransportState)
    ensures var r := TransportChanged(s, t);
      && r.status.transport == t
      && (t in {Connected, Ready, Error, Disconnected} ==> !r.status.isConnecting)
      && (t !in {Connected, Ready, Error, Disconnected} ==> r.status.isConnecting == s.status.isConnecting)
      && (IsConnected(s.status.transport) && !IsConnected(t) ==>
            && !r.activity.isSpeaking && !r.activity.isWaitingForResponse && !r.activity.isUserSpeaking
            && r.activity.lastBotAudioActivity == 0 && r.activity.lastUserActivity == 0)
      && (!(IsConnected(s.status.transport) && !IsConnected(t)) ==> r.activity == s.activity)
      && r.turn == s.turn && r.display == s.display && r.pending == s.pending
      && r.wordDisplayTimeouts == s.wordDisplayTimeouts && r.transcriptClearTimeout == s.transcriptClearTimeout
      && r.nextHandle == s.nextHandle
  {
  }

  // ---------------------------------------------------------------------------
  // TTS fallback

  /** TTS text is ignored unless the hook is in fallback mode and the bot
      speaks. */
  lemma TtsTextIgnored(s: EngineState, text: string, now: int)
    requires !(s.turn.useTtsFallback && s.activity.isSpeaking)
    ensures TtsText(s, text, now) == s
  {
  }

  /** In fallback mode while speaking, the fragment's words are appended (to
      an empty list at the turn's first fragment) and shown at once: the last
      18 in the word display, all of them in the text. */
  lemma TtsTextAppends(s: EngineState, text: string, now: int)
    requires Inv(s) && s.turn.useTtsFallback && s.activity.isSpeaking && Split(text) != []
    ensures var r := TtsText(s, text, now);
      var before := if s.turn.isNewResponse then [] else s.turn.wordsWithIds;
      Texts(r.turn.wordsWithIds) == Texts(before) + Split(text)
      && r.turn.wordsWithIds[..|before|] == before
      && r.display.assistantWords == Window(r.turn.wordsWithIds, MaxDisplayWords)
      && r.display.assistantText == Some(Join(Texts(r.turn.wordsWithIds)))
      && !r.turn.isNewResponse && r.pending == s.pending
  {
    SplitTrim(text);
    var before := if s.turn.isNewResponse then [] else s.turn.wordsWithIds;
    var s1 := if s.turn.isNewResponse then s.(turn := s.turn.(isNewResponse := false, wordsWithIds := [], wordIdCounter := 0)) else s;
    ShowEachFields(s1, Split(Trim(text)), now);
    var r := TtsText(s, text, now);
    assert r.turn.wordsWithIds == before + Numbered(Split(Trim(text)), |before|);
    TextsAppendNumbered(before, Split(Trim(text)), |before|);
  }

  // ---------------------------------------------------------------------------
  // Self-healing and the janitor

  /** A loud sample while neither party speaks forces the bot speaking. */
  lemma LoudSampleForcesSpeaking(s: EngineState, level: int, now: int)
    requires level > BotAudioThreshold && !s.activity.isSpeaking && !s.activity.isUserSpeaking
    ensures var r := AudioSample(s, level, now);
      r.activity.isSpeaking && !r.activity.isWaitingForResponse && !r.activity.isUserSpeaking && r.activity.lastBotAudioActivity == now
      && r.pending == s.pending
  {
  }

  /** More than 3.5 s without a loud sample while speaking forces the bot
      silent and the user awaited, and arms a 1.5 s clear unless one is
      pending. */
  lemma SilenceForcesStop(s: EngineState, level: int, now: int)
    requires s.activity.isSpeaking && level <= BotAudioThreshold && now - s.activity.lastBotAudioActivity > BotSilenceLimitMs
    ensures var r := AudioSample(s, level, now);
      !r.activity.isSpeaking && r.activity.isWaitingForResponse && !r.activity.isUserSpeaking
      && r.transcriptClearTimeout.Some?
      && (s.transcriptClearTimeout.None? ==>
            r.pending == s.pending + [Timer(s.nextHandle, now + SilenceClearDelayMs, ClearTranscript)])
      && (s.transcriptClearTimeout.Some? ==> r.pending == s.pending)
  {
  }

  /** A sample that is neither loud nor ends a silence changes nothing but the
      clock-free state it read. */
  lemma QuietSampleNoChange(s: EngineState, level: int, now: int)
    requires level <= BotAudioThreshold && !(s.activity.isSpeaking && now - s.activity.lastBotAudioActivity > BotSilenceLimitMs)
    ensures AudioSample(s, level, now) == s
  {
  }

  /** The janitor clears a user-speaking flag older than 3 s (and the waiting
      flag with it when the bot is silent), and clears a transcript nobody
      speaks over that has not changed for more than 8 s. */
  lemma JanitorClearsStale(s: EngineState, now: int)
    ensures var r := JanitorTick(s, now);
      var userStale := s.activity.isUserSpeaking && now - s.activity.lastUserActivity > UserStaleMs;
      r.activity.isUserSpeaking == (s.activity.isUserSpeaking && !userStale)
      && r.activity.isWaitingForResponse == (if userStale && !s.activity.isSpeaking then false else s.activity.isWaitingForResponse)
      && r.activity.isSpeaking == s.activity.isSpeaking
      && ((!s.activity.isSpeaking && !r.activity.isUserSpeaking && |s.display.assistantWords| > 0
           && now - s.display.lastTranscriptUpdate > TranscriptStaleMs)
          ==> r.display.assistantWords == [] && r.display.assistantText == None && r.display.lastTranscriptUpdate == now)
      && (!(!s.activity.isSpeaking && !r.activity.isUserSpeaking && |s.display.assistantWords| > 0
            && now - s.display.lastTranscriptUpdate > TranscriptStaleMs)
          ==> r.display.assistantWords == s.display.assistantWords && r.display.assistantText == s.display.assistantText)
      && r.pending == s.pending && r.turn.wordsWithIds == s.turn.wordsWithIds && r.turn.llmText == s.turn.llmText
  {
  }

  // ---------------------------------------------------------------------------
  // Connection

  /** `connect` calls the SDK exactly when there is a client and no attempt
      is in progress and the transport is not connected. */
  lemma ConnectGuard(s: EngineState, hasClient: bool, outcome: CallOutcome)
    ensures var (r, called) := Connect(s, hasClient, outcome);
      called == (hasClient && !s.status.isConnecting && !IsConnected(s.status.transport))
      && (!called && hasClient ==> r == s)
      && (!hasClient ==> r.status.error == Some("Pipecat client is not initialized"))
      && (called && outcome.Succeeded? ==> r.status.isConnecting && r.status.error == None)
      && (called && outcome.Failed? ==> !r.status.isConnecting && r.status.error.Some? && r.status.error.value != "")
      && r.pending == s.pending && r.status.transport == s.status.transport
  {
  }

  /** While an attempt is in progress a second `connect` makes no call and
      changes nothing. */
  lemma ConnectNoDuplicate(s: EngineState, o1: CallOutcome, o2: CallOutcome)
    ensures var (r1, called1) := Connect(s, true, o1);
      called1 && o1.Succeeded? ==> Connect(r1, true, o2) == (r1, false)
  {
  }

  /** A successful `disconnect` resets every turn and transcript cell and
      cancels every word timer and the clear timer, keeping the invariant. */
  lemma DisconnectResets(s: EngineState)
    requires Inv(s)
    ensures var r := Disconnect(s, true, Succeeded);
      Inv(r)
      && !r.activity.isSpeaking && !r.activity.isUserSpeaking && !r.activity.isWaitingForResponse && !r.status.isConnecting && r.status.error == None
      && r.display.assistantWords == [] && r.display.assistantText == None && r.turn.llmText == None
      && r.turn.wordsWithIds == [] && r.turn.wordIdCounter == 0 && r.turn.processedWordCount == 0 && !r.turn.useTtsFallback
      && r.turn.speechStartTime == 0 && r.activity.lastBotAudioActivity == 0 && r.activity.lastUserActivity == 0
      && r.display.lastTranscriptUpdate == 0
      && r.wordDisplayTimeouts == [] && r.transcriptClearTimeout == None
      && (forall t :: t in r.pending ==> !t.kind.ShowWord? && !t.kind.ClearTranscript?)
  {
    DisconnectInv(s, true, Succeeded);
    var s1 := s.(status := s.status.(isConnecting := false, error := None), activity := s.activity.(isSpeaking := false, isUserSpeaking := false, isWaitingForResponse := false, lastBotAudioActivity := 0, lastUserActivity := 0), display := s.display.(assistantText := None, assistantWords := [], lastTranscriptUpdate := 0), turn := s.turn.(wordsWithIds := [], wordIdCounter := 0, processedWordCount := 0, llmText := None, useTtsFallback := false, speechStartTime := 0));
    TimerInvCancelWords(s.pending, s.nextHandle, s.wordDisplayTimeouts, s.transcriptClearTimeout,
                        s.turn.processedWordCount, s.turn.speechStartTime, 0, 0);
    var q := WithoutHandles(s.pending, Elems(s.wordDisplayTimeouts));
    TimerInvCancelClear(q, s.nextHandle, [], s.transcriptClearTimeout, 0, 0);
  }
}
