/**
 * Letter Leap: a timed typing round. A word is shown, the player types it
 * letter by letter, and the controller keeps the typed prefix, the
 * correct/total counters, the streaks and the words completed. Each event
 * of the hook is a `prev => next` update of one GameState record; those
 * updates are the functions below, and the class at the end applies them
 * together with the two timers the hook keeps.
 */
module LetterLeap {
  import opened Wrappers
  import Constants
  import History

  datatype Feedback = Correct | Incorrect | Timeout

  datatype GameState = GameState(
    currentWord: Option<string>,
    currentWordIndex: nat,        // index of the next letter to type
    typedWordPortion: string,     // the part of the word typed correctly so far
    isPlaying: bool,
    feedback: Option<Feedback>,
    feedbackLetter: Option<char>,
    currentLevel: int,
    correctPresses: nat,
    totalPresses: nat,
    wordsTyped: nat,
    gameStartTime: Option<int>,   // milliseconds
    currentWPM: int,
    currentAccuracy: real,
    currentStreak: nat,
    longestStreak: nat,
    isSessionOver: bool,
    showStartScreen: bool)

  /** The summary recorded when a round ends. */
  datatype SessionStats = SessionStats(
    id: string,
    date: int,                    // milliseconds
    accuracy: real,               // percentage
    wpm: int,
    lettersTyped: nat,
    wordsTyped: nat,
    durationMinutes: real,
    longestStreak: nat)

  const InitialGameState := GameState(
    None, 0, "", false, None, None, Constants.INITIAL_LEVEL,
    0, 0, 0, None, 0, 0.0, 0, 0, false, true)

  /**
   * What holds of every state the hook can reach: the typed portion is the
   * prefix of the word up to the pointer, and the counters are ordered.
   */
  predicate Consistent(s: GameState) {
    && (s.currentWord.None? ==> s.currentWordIndex == 0 && s.typedWordPortion == "")
    && (s.currentWord.Some? ==>
          s.currentWordIndex <= |s.currentWord.value|
          && s.typedWordPortion == s.currentWord.value[..s.currentWordIndex])
    && s.correctPresses <= s.totalPresses
    && s.currentStreak <= s.longestStreak
  }

  // ---------------------------------------------------------------------
  // Letters

  /** ASCII upper-casing, which is what `toUpperCase` does to the letters that reach the game. */
  function Upper(c: char): char {
    if 'a' <= c <= 'z' then (c as int - 32) as char else c
  }

  /** The shown word: the same letters, none of them lower-case. */
  function UpperString(w: string): (r: string)
    ensures |r| == |w|
    ensures forall i :: 0 <= i < |r| ==> !('a' <= r[i] <= 'z') && Matches(r[i], w[i])
  {
    seq(|w|, i requires 0 <= i < |w| => Upper(w[i]))
  }

  /** A key scores for a target letter when the two agree ignoring case. */
  predicate Matches(key: char, target: char) {
    Upper(key) == Upper(target)
  }

  lemma MatchesIgnoresCase(letter: char)
    requires 'A' <= letter <= 'Z'
    ensures Matches(letter, letter)
    ensures Matches((letter as int + 32) as char, letter)
    ensures forall other :: 'A' <= other <= 'Z' && other != letter ==> !Matches(other, letter)
    ensures forall other :: 'a' <= other <= 'z' && other as int != letter as int + 32 ==> !Matches(other, letter)
  {
  }

  // ---------------------------------------------------------------------
  // Key presses

  /** A press is scored only while playing, with a word shown and letters of it left to type. */
  predicate AcceptsPress(s: GameState) {
    s.isPlaying && s.currentWord.Some? && s.currentWordIndex < |s.currentWord.value|
  }

  function TargetLetter(s: GameState): char
    requires AcceptsPress(s)
  {
    s.currentWord.value[s.currentWordIndex]
  }

  /** The press types the last letter of the word: the one that completes it. */
  predicate CompletesWord(s: GameState, key: char) {
    AcceptsPress(s) && Matches(key, TargetLetter(s))
    && s.currentWordIndex + 1 == |s.currentWord.value|
  }

  function Max(a: nat, b: nat): nat {
    if a < b then b else a
  }

  /** The update `handleKeyPress` applies for one key. */
  function PressKey(s: GameState, key: char): (r: GameState)
    ensures !AcceptsPress(s) ==> r == s
    ensures AcceptsPress(s) ==>
      r.totalPresses == s.totalPresses + 1 && r.feedbackLetter == Some(TargetLetter(s))
    ensures AcceptsPress(s) && Matches(key, TargetLetter(s)) ==>
      && r.feedback == Some(Correct)
      && r.correctPresses == s.correctPresses + 1
      && r.currentStreak == s.currentStreak + 1
      && r.currentWordIndex == s.currentWordIndex + 1
      && r.typedWordPortion == s.typedWordPortion + [TargetLetter(s)]
      && r.longestStreak == Max(s.longestStreak, r.currentStreak)
    ensures AcceptsPress(s) && !Matches(key, TargetLetter(s)) ==>
      && r.feedback == Some(Incorrect)
      && r.currentStreak == 0
      && r.correctPresses == s.correctPresses
      && r.currentWordIndex == s.currentWordIndex
      && r.typedWordPortion == s.typedWordPortion
      && r.longestStreak == s.longestStreak
    ensures r.wordsTyped == if CompletesWord(s, key) then s.wordsTyped + 1 else s.wordsTyped
    ensures r.currentWord == s.currentWord && r.isPlaying == s.isPlaying
    ensures r.currentLevel == s.currentLevel && r.gameStartTime == s.gameStartTime
    ensures r.currentAccuracy == s.currentAccuracy && r.currentWPM == s.currentWPM
    ensures r.isSessionOver == s.isSessionOver && r.showStartScreen == s.showStartScreen
    ensures Consistent(s) ==> Consistent(r)
  {
    if !AcceptsPress(s) then s
    else
      var word := s.currentWord.value;
      var target := word[s.currentWordIndex];
      if Matches(key, target) then
        var streak := s.currentStreak + 1;
        var index := s.currentWordIndex + 1;
        s.(feedback := Some(Correct),
           feedbackLetter := Some(target),
           correctPresses := s.correctPresses + 1,
           totalPresses := s.totalPresses + 1,
           wordsTyped := if index == |word| then s.wordsTyped + 1 else s.wordsTyped,
           currentStreak := streak,
           longestStreak := if streak > s.longestStreak then streak else s.longestStreak,
           typedWordPortion := s.typedWordPortion + [target],
           currentWordIndex := index)
      else
        s.(feedback := Some(Incorrect),
           feedbackLetter := Some(target),
           totalPresses := s.totalPresses + 1,
           currentStreak := 0)
  }

  /** Several presses in a row, with no new word shown in between. */
  function PressAll(s: GameState, keys: seq<char>): GameState
    decreases |keys|
  {
    if keys == [] then s else PressAll(PressKey(s, keys[0]), keys[1..])
  }

  /** Once the last letter is typed, presses change nothing until a new word is shown. */
  lemma {:induction false} PressesAfterCompletionIgnored(s: GameState, keys: seq<char>)
    requires s.currentWord.Some? && s.currentWordIndex >= |s.currentWord.value|
    ensures PressAll(s, keys) == s
    decreases |keys|
  {
    if keys != [] {
      PressesAfterCompletionIgnored(PressKey(s, keys[0]), keys[1..]);
    }
  }

  /** Any run of presses keeps the typed portion a prefix of the word and the counters ordered. */
  lemma {:induction false} PressAllConsistent(s: GameState, keys: seq<char>)
    requires Consistent(s)
    ensures Consistent(PressAll(s, keys))
    ensures PressAll(s, keys).currentWord == s.currentWord
    ensures PressAll(s, keys).totalPresses - PressAll(s, keys).correctPresses
            >= s.totalPresses - s.correctPresses
    decreases |keys|
  {
    if keys != [] {
      PressAllConsistent(PressKey(s, keys[0]), keys[1..]);
    }
  }

  /**
   * A word counts at most once: over any run of presses the word count rises
   * by one exactly when the run moves the pointer onto the end of the word.
   */
  lemma {:induction false} WordCountedOnce(s: GameState, keys: seq<char>)
    requires Consistent(s) && s.currentWord.Some?
    ensures PressAll(s, keys).currentWord == s.currentWord
    ensures PressAll(s, keys).wordsTyped ==
      if s.isPlaying && s.currentWordIndex < |s.currentWord.value|
         && PressAll(s, keys).currentWordIndex == |s.currentWord.value|
      then s.wordsTyped + 1 else s.wordsTyped
    decreases |keys|
  {
    var word := s.currentWord.value;
    if keys == [] {
    } else {
      var next := PressKey(s, keys[0]);
      if CompletesWord(s, keys[0]) {
        PressesAfterCompletionIgnored(next, keys[1..]);
      } else {
        WordCountedOnce(next, keys[1..]);
        if s.currentWordIndex >= |word| {
          PressesAfterCompletionIgnored(s, keys);
        }
      }
    }
  }

  /**
   * Typing the rest of the word correctly, in any case, completes it once,
   * adds one correct press and one streak step per letter, and leaves the
   * whole word as the typed portion.
   */
  lemma {:induction false} TypingRestOfWord(s: GameState, keys: seq<char>)
    requires Consistent(s) && s.isPlaying && s.currentWord.Some?
    requires |keys| > 0 && s.currentWordIndex + |keys| == |s.currentWord.value|
    requires forall i :: 0 <= i < |keys| ==> Matches(keys[i], s.currentWord.value[s.currentWordIndex + i])
    ensures PressAll(s, keys).wordsTyped == s.wordsTyped + 1
    ensures PressAll(s, keys).correctPresses == s.correctPresses + |keys|
    ensures PressAll(s, keys).totalPresses == s.totalPresses + |keys|
    ensures PressAll(s, keys).currentStreak == s.currentStreak + |keys|
    ensures PressAll(s, keys).currentWordIndex == |s.currentWord.value|
    ensures PressAll(s, keys).typedWordPortion == s.currentWord.value
    decreases |keys|
  {
    var word := s.currentWord.value;
    var next := PressKey(s, keys[0]);
    assert Matches(keys[0], TargetLetter(s));
    if |keys| == 1 {
      assert PressAll(next, keys[1..]) == next;
      assert word[..s.currentWordIndex + 1] == word;
    } else {
      forall i | 0 <= i < |keys[1..]|
        ensures Matches(keys[1..][i], word[next.currentWordIndex + i])
      {
        assert keys[1..][i] == keys[i + 1];
      }
      TypingRestOfWord(next, keys[1..]);
    }
  }

  /** A round in progress with word w on screen and nothing typed yet. */
  function Fresh(w: string): GameState {
    InitialGameState.(isPlaying := true, gameStartTime := Some(1000),
                      showStartScreen := false, currentWord := Some(w))
  }

  /** Pressing C, A, T on "CAT": one word, three correct presses, a streak of three. */
  lemma ScenarioCat()
    ensures PressAll(Fresh("CAT"), "CAT").wordsTyped == 1
    ensures PressAll(Fresh("CAT"), "CAT").correctPresses == 3
    ensures PressAll(Fresh("CAT"), "CAT").currentStreak == 3
  {
    var s := Fresh("CAT");
    forall i | 0 <= i < 3 ensures Matches("CAT"[i], s.currentWord.value[s.currentWordIndex + i]) {
    }
    TypingRestOfWord(s, "CAT");
  }

  /** Pressing D, X, O, G on "DOG": the miss resets the streak, which then builds back to two. */
  lemma ScenarioDog()
    ensures PressAll(Fresh("DOG"), "DXOG").totalPresses == 4
    ensures PressAll(Fresh("DOG"), "DXOG").correctPresses == 3
    ensures PressAll(Fresh("DOG"), "DXOG").currentStreak == 2
    ensures PressAll(Fresh("DOG"), "DXOG").longestStreak == 2
    ensures PressAll(Fresh("DOG"), "DXOG").wordsTyped == 1
  {
    var s0 := Fresh("DOG");
    var s1 := PressKey(s0, 'D');
    assert s1.currentStreak == 1 && s1.currentWordIndex == 1;
    var s2 := PressKey(s1, 'X');
    assert s2.currentStreak == 0 && s2.currentWordIndex == 1 && s2.longestStreak == 1;
    var s3 := PressKey(s2, 'O');
    assert s3.currentStreak == 1 && s3.currentWordIndex == 2;
    var s4 := PressKey(s3, 'G');
    assert s4.currentStreak == 2 && s4.wordsTyped == 1 && s4.totalPresses == 4;
    assert "DXOG"[1..] == "XOG" && "XOG"[1..] == "OG" && "OG"[1..] == "G" && "G"[1..] == "";
    assert PressAll(s4, "") == s4;
  }

  // ---------------------------------------------------------------------
  // Accuracy and words per minute

  datatype LiveStats = LiveStats(accuracy: real, wpm: int)

  /** `Math.round`: the nearest integer, halves rounded up. */
  function Round(x: real): (n: int)
    ensures n as real - 0.5 <= x < n as real + 0.5
  {
    (x + 0.5).Floor
  }

  lemma RoundNonNegative(x: real)
    requires x >= 0.0
    ensures Round(x) >= 0
  {
  }

  /** A timestamp that JavaScript treats as present: not null and not 0. */
  predicate StartTimeSet(t: Option<int>) {
    t.Some? && t.value != 0
  }

  function ElapsedMinutes(start: int, now: int): real {
    (now - start) as real / 60000.0
  }

  /** Five correct letters make a word. */
  function WordsPerMinute(correct: nat, minutes: real): (wpm: int)
    ensures wpm >= 0
    ensures minutes <= 0.0 ==> wpm == 0
    ensures minutes > 0.0 ==>
      wpm as real - 0.5 <= (correct as real / 5.0) / minutes < wpm as real + 0.5
  {
    if minutes > 0.0 then
      var rate := (correct as real / 5.0) / minutes;
      assert rate >= 0.0;
      RoundNonNegative(rate);
      Round(rate)
    else 0
  }

  /** What `calculateStats` derives from the counters at time `now`. */
  function ComputeStats(s: GameState, now: int): (r: LiveStats)
    ensures !s.isPlaying || !StartTimeSet(s.gameStartTime) || s.totalPresses == 0 ==>
      r == LiveStats(0.0, 0)
    ensures s.isPlaying && StartTimeSet(s.gameStartTime) && s.totalPresses > 0 ==>
      && r.accuracy * s.totalPresses as real == s.correctPresses as real
      && r.wpm == WordsPerMinute(s.correctPresses, ElapsedMinutes(s.gameStartTime.value, now))
    ensures s.correctPresses <= s.totalPresses ==> 0.0 <= r.accuracy <= 1.0
    ensures r.wpm >= 0
  {
    if !s.isPlaying || !StartTimeSet(s.gameStartTime) || s.totalPresses == 0 then
      LiveStats(0.0, 0)
    else
      var accuracy := s.correctPresses as real / s.totalPresses as real;
      LiveStats(accuracy, WordsPerMinute(s.correctPresses, ElapsedMinutes(s.gameStartTime.value, now)))
  }

  function WithStats(s: GameState, now: int): GameState {
    var stats := ComputeStats(s, now);
    s.(currentAccuracy := stats.accuracy, currentWPM := stats.wpm)
  }

  // ---------------------------------------------------------------------
  // New word, start, end

  /** The update `showNewWord` applies with the word drawn from the word list. */
  function ShowWord(s: GameState, word: string): (r: GameState)
    ensures !s.isPlaying ==> r == s
    ensures s.isPlaying ==>
      && r.currentWord == Some(UpperString(word))
      && r.currentWordIndex == 0 && r.typedWordPortion == ""
      && r.feedback == None && r.feedbackLetter == None
    ensures r.(currentWord := s.currentWord, currentWordIndex := s.currentWordIndex,
               typedWordPortion := s.typedWordPortion, feedback := s.feedback,
               feedbackLetter := s.feedbackLetter) == s
    ensures Consistent(s) ==> Consistent(r)
  {
    if !s.isPlaying then s
    else s.(currentWord := Some(UpperString(word)), currentWordIndex := 0,
            typedWordPortion := "", feedback := None, feedbackLetter := None)
  }

  /** The update `startGame` applies: a fresh round that keeps only the level. */
  function Started(s: GameState, now: int): (r: GameState)
    ensures r.isPlaying && r.gameStartTime == Some(now) && !r.showStartScreen
    ensures r.currentLevel == s.currentLevel
    ensures r.correctPresses == 0 && r.totalPresses == 0 && r.wordsTyped == 0
    ensures r.currentStreak == 0 && r.longestStreak == 0
    ensures r.currentWord == None && r.currentWordIndex == 0 && r.typedWordPortion == ""
    ensures r.feedback == None && r.feedbackLetter == None
    ensures r.currentAccuracy == 0.0 && r.currentWPM == 0
    ensures !r.isSessionOver
    ensures Consistent(r)
  {
    InitialGameState.(currentLevel := s.currentLevel, isPlaying := true,
                      gameStartTime := Some(now), showStartScreen := false,
                      isSessionOver := false)
  }

  /** The summary `endSession` records for the round in `s`, ended at `now`. */
  function Summary(s: GameState, now: int, id: string): (r: SessionStats)
    ensures r.id == id && r.date == now
    ensures r.lettersTyped == s.correctPresses && r.wordsTyped == s.wordsTyped
    ensures r.longestStreak == s.longestStreak
    ensures s.totalPresses == 0 ==> r.accuracy == 0.0
    ensures s.totalPresses > 0 ==> r.accuracy * s.totalPresses as real == 100.0 * s.correctPresses as real
    ensures s.correctPresses <= s.totalPresses ==> 0.0 <= r.accuracy <= 100.0
    ensures r.wpm >= 0
    ensures !StartTimeSet(s.gameStartTime) ==> r.durationMinutes == 0.0 && r.wpm == 0
    ensures StartTimeSet(s.gameStartTime) ==>
      && r.durationMinutes == ElapsedMinutes(s.gameStartTime.value, now)
      && r.wpm == WordsPerMinute(s.correctPresses, r.durationMinutes)
    ensures s.isPlaying && StartTimeSet(s.gameStartTime) && s.correctPresses <= s.totalPresses ==>
      r.accuracy == 100.0 * ComputeStats(s, now).accuracy && r.wpm == ComputeStats(s, now).wpm
  {
    var minutes := if StartTimeSet(s.gameStartTime) then ElapsedMinutes(s.gameStartTime.value, now) else 0.0;
    var accuracy := if s.totalPresses > 0 then s.correctPresses as real / s.totalPresses as real else 0.0;
    SessionStats(id, now, accuracy * 100.0, WordsPerMinute(s.correctPresses, minutes),
                 s.correctPresses, s.wordsTyped, minutes, s.longestStreak)
  }

  /** The state `endSession` leaves: the round is over and no word is shown; the counters stay for display. */
  function Ended(s: GameState): (r: GameState)
    ensures !r.isPlaying && r.isSessionOver && r.showStartScreen
    ensures r.currentWord == None && r.currentWordIndex == 0 && r.typedWordPortion == ""
    ensures r.(isPlaying := s.isPlaying, isSessionOver := s.isSessionOver,
               showStartScreen := s.showStartScreen, currentWord := s.currentWord,
               currentWordIndex := s.currentWordIndex, typedWordPortion := s.typedWordPortion) == s
    ensures Consistent(s) ==> Consistent(r)
  {
    s.(isPlaying := false, isSessionOver := true, currentWord := None,
       currentWordIndex := 0, typedWordPortion := "", showStartScreen := true)
  }

  // ---------------------------------------------------------------------
  // The hook

  /**
   * The hook's mutable state: the game record, the session history, and
   * which of its delayed callbacks are pending. `startWordTimers` counts
   * the first-word callbacks `startGame` schedules; they are never
   * cancelled.
   */
  class LetterLeapGame {
    var state: GameState
    var pastSessions: seq<SessionStats>
    var feedbackTimerPending: bool
    var wordTimerPending: bool
    var startWordTimers: nat

    ghost predicate Valid()
      reads this
    {
      && Consistent(state)
      && (wordTimerPending ==>
            state.currentWord.Some? && state.currentWordIndex == |state.currentWord.value|)
    }

    /** Mounting the hook with the history read from storage. */
    constructor(stored: seq<SessionStats>)
      ensures Valid()
      ensures state == InitialGameState && pastSessions == stored
      ensures !feedbackTimerPending && !wordTimerPending && startWordTimers == 0
    {
      state := InitialGameState;
      pastSessions := stored;
      feedbackTimerPending, wordTimerPending, startWordTimers := false, false, 0;
    }

    /** While the next-word delay runs, key presses are ignored. */
    lemma PressDuringWordDelayIgnored(key: char)
      requires Valid() && wordTimerPending
      ensures PressKey(state, key) == state
    {
    }

    /** `handleKeyPress` followed by the `calculateStats` it triggers. */
    method HandleKeyPress(key: char, now: int)
      requires Valid()
      modifies this
      ensures Valid()
      ensures state == WithStats(PressKey(old(state), key), now)
      ensures pastSessions == old(pastSessions) && startWordTimers == old(startWordTimers)
      ensures !AcceptsPress(old(state)) ==>
        feedbackTimerPending == old(feedbackTimerPending) && wordTimerPending == old(wordTimerPending)
      ensures AcceptsPress(old(state)) ==>
        wordTimerPending == CompletesWord(old(state), key) && feedbackTimerPending == !wordTimerPending
    {
      if AcceptsPress(state) {
        var completes := CompletesWord(state, key);
        wordTimerPending := completes;
        feedbackTimerPending := !completes;
      }
      state := WithStats(PressKey(state, key), now);
    }

    /** The 700 ms callback that clears the feedback highlight. */
    method FeedbackDelayElapsed()
      requires Valid() && feedbackTimerPending
      modifies this
      ensures Valid()
      ensures state == old(state).(feedback := None, feedbackLetter := None)
      ensures !feedbackTimerPending && wordTimerPending == old(wordTimerPending)
      ensures pastSessions == old(pastSessions) && startWordTimers == old(startWordTimers)
    {
      state := state.(feedback := None, feedbackLetter := None);
      feedbackTimerPending := false;
    }

    /** `showNewWord`: cancel both timers, then show `word` if the round is on. */
    method ShowNewWord(word: string)
      requires Valid()
      modifies this
      ensures Valid()
      ensures state == ShowWord(old(state), word)
      ensures !feedbackTimerPending && !wordTimerPending
      ensures pastSessions == old(pastSessions) && startWordTimers == old(startWordTimers)
    {
      feedbackTimerPending, wordTimerPending := false, false;
      state := ShowWord(state, word);
    }

    /** The 1.2 s callback scheduled when a word is completed. */
    method WordDelayElapsed(word: string)
      requires Valid() && wordTimerPending
      modifies this
      ensures Valid()
      ensures state == ShowWord(old(state), word)
      ensures !feedbackTimerPending && !wordTimerPending
      ensures pastSessions == old(pastSessions) && startWordTimers == old(startWordTimers)
    {
      ShowNewWord(word);
    }

    /** The 150 ms callback scheduled by `startGame`. */
    method StartDelayElapsed(word: string)
      requires Valid() && startWordTimers > 0
      modifies this
      ensures Valid()
      ensures state == ShowWord(old(state), word)
      ensures !feedbackTimerPending && !wordTimerPending
      ensures pastSessions == old(pastSessions) && startWordTimers == old(startWordTimers) - 1
    {
      startWordTimers := startWordTimers - 1;
      ShowNewWord(word);
    }

    /** `startGame` at time `now`: cancel the timers, reset the round, schedule the first word. */
    method StartGame(now: int)
      requires Valid()
      modifies this
      ensures Valid()
      ensures state == Started(old(state), now)
      ensures !feedbackTimerPending && !wordTimerPending
      ensures startWordTimers == old(startWordTimers) + 1
      ensures pastSessions == old(pastSessions)
    {
      feedbackTimerPending, wordTimerPending := false, false;
      state := Started(state, now);
      startWordTimers := startWordTimers + 1;
    }

    /** `endSession` at time `now`; `id` stands for the generated session id. */
    method EndSession(now: int, id: string)
      requires Valid()
      modifies this
      ensures Valid()
      ensures !old(state).isPlaying ==>
        state == old(state) && pastSessions == old(pastSessions)
        && feedbackTimerPending == old(feedbackTimerPending) && wordTimerPending == old(wordTimerPending)
      ensures old(state).isPlaying ==>
        && state == Ended(old(state))
        && pastSessions == History.Prepend(Summary(old(state), now, id), old(pastSessions))
        && !feedbackTimerPending && !wordTimerPending
      ensures startWordTimers == old(startWordTimers)
    {
      if state.isPlaying {
        feedbackTimerPending, wordTimerPending := false, false;
        pastSessions := History.Prepend(Summary(state, now, id), pastSessions);
        state := Ended(state);
      }
    }
  }
}
