/**
 * Addition Adventure: a timed round of addition problems. Each problem
 * shows two piles of num1 and num2 items; the player moves items one at a
 * time onto a sum pile (dragging from either pile, or tapping the sum
 * pile) until it holds num1 + num2. The round moves through the phases
 *   startScreen -> summingTime -> finalFeedback -> awaitingConfirmation -> summingTime ...
 * and any phase can end in sessionOver. As in Letter Leap, each event is a
 * `prev => next` update of one record (the functions below) and the class
 * applies them together with the hook's four timers.
 */
module AdditionAdventure {
  import opened Wrappers
  import History

  datatype Phase = StartScreen | SummingTime | FinalFeedback | AwaitingConfirmation | SessionOver

  /** The phases of a round in progress. */
  predicate InRound(p: Phase) {
    p == SummingTime || p == FinalFeedback || p == AwaitingConfirmation
  }

  /** Where an added unit comes from: a drag from either pile, or a tap on the sum pile. */
  datatype Source = Pile1 | Pile2 | Click

  /** The only drag feedback the hook sets: the "stop" cue. */
  datatype DragFeedback = Stop

  /** `Score: n`, the message left on screen when a round ends. */
  datatype Message = ScoreMessage(score: nat)

  /** The deferred toast `endSession` leaves for the page. */
  datatype ToastInfo = GreatEffort(problemsSolved: nat, score: nat) | GameEnded(score: nat)

  /** `ADDITION_NUMBER_RANGE`: operands are drawn as `floor(random * max) + min`. */
  datatype NumberRange = NumberRange(min: int, max: int)

  datatype AdditionProblem = AdditionProblem(
    id: string,
    num1: int,
    num2: int,
    item: int,          // index into the item list
    correctAnswer: int)

  /** The random values one problem is drawn from: three `Math.random()` results and the id text. */
  datatype Draw = Draw(r1: real, r2: real, r3: real, id: string)

  predicate ValidDraw(d: Draw) {
    0.0 <= d.r1 < 1.0 && 0.0 <= d.r2 < 1.0 && 0.0 <= d.r3 < 1.0
  }

  datatype GameState = GameState(
    currentProblem: Option<AdditionProblem>,
    score: nat,
    attempts: nat,
    correctAttempts: nat,
    currentStreak: nat,
    longestStreak: nat,
    draggedFromPile1Count: nat,
    draggedFromPile2Count: nat,
    sumPileCount: nat,
    feedbackMessage: Option<Message>,
    dragFeedback: Option<DragFeedback>,
    isCorrect: Option<bool>,
    isPlaying: bool,
    gameStartTime: Option<int>,   // milliseconds
    timeLeft: int,                // seconds
    phase: Phase,
    showPraiseMessage: bool,
    toastMessageInfo: Option<ToastInfo>)

  /** The summary recorded when a round ends. */
  datatype SessionStats = SessionStats(
    id: string,
    date: int,                    // milliseconds
    problemsSolved: nat,
    accuracy: real,               // percentage
    durationSeconds: real,
    longestStreak: nat,
    score: nat)

  function InitialGameState(duration: int): GameState {
    GameState(None, 0, 0, 0, 0, 0, 0, 0, 0, None, None, None, false, None,
              duration, StartScreen, false, None)
  }

  /**
   * What holds of every state the hook can reach. The counts never pass
   * their targets, the piles never give more than they hold, a round is in
   * progress exactly while playing, and since only a completed sum is ever
   * counted as an attempt, every attempt is a correct one worth 10 points.
   */
  predicate Consistent(s: GameState) {
    && (s.currentProblem.None? ==>
          s.sumPileCount == 0 && s.draggedFromPile1Count == 0 && s.draggedFromPile2Count == 0)
    && (s.currentProblem.Some? ==>
          var p := s.currentProblem.value;
          && p.correctAnswer == p.num1 + p.num2
          && s.draggedFromPile1Count <= p.num1
          && s.draggedFromPile2Count <= p.num2
          && s.draggedFromPile1Count + s.draggedFromPile2Count <= s.sumPileCount <= p.correctAnswer)
    && (InRound(s.phase) ==> s.currentProblem.Some?)
    && (s.isPlaying <==> InRound(s.phase))
    && (s.phase == FinalFeedback || s.phase == AwaitingConfirmation ==>
          s.sumPileCount == s.currentProblem.value.correctAnswer && s.isCorrect == Some(true))
    && s.attempts == s.correctAttempts
    && s.score == 10 * s.correctAttempts
    && s.currentStreak <= s.longestStreak
  }

  // ---------------------------------------------------------------------
  // Problems

  /** `Math.floor(random * n)` for a random value in [0, 1). */
  function ScaledFloor(r: real, n: int): (k: int)
    requires 0.0 <= r < 1.0
    ensures n > 0 ==> 0 <= k < n
    ensures n == 0 ==> k == 0
  {
    assert n > 0 ==> r * n as real < n as real by {
      if n > 0 {
        assert (1.0 - r) * n as real > 0.0;
      }
    }
    (r * n as real).Floor
  }

  /** `generateProblem`: two operands from the number range, an item, and their sum as the answer. */
  function GenerateProblem(range: NumberRange, itemCount: int, d: Draw): (p: AdditionProblem)
    requires ValidDraw(d)
    ensures p.correctAnswer == p.num1 + p.num2
    ensures range.max > 0 ==>
      range.min <= p.num1 < range.min + range.max && range.min <= p.num2 < range.min + range.max
    ensures range.max == 0 ==> p.num1 == range.min && p.num2 == range.min
    ensures itemCount > 0 ==> 0 <= p.item < itemCount
    ensures p.id == d.id
  {
    var num1 := ScaledFloor(d.r1, range.max) + range.min;
    var num2 := ScaledFloor(d.r2, range.max) + range.min;
    AdditionProblem(d.id, num1, num2, ScaledFloor(d.r3, itemCount), num1 + num2)
  }

  /** The update `setupNewProblem` applies: a new problem with empty piles, back to summing. */
  function InstallProblem(s: GameState, p: AdditionProblem): (r: GameState)
    ensures r.currentProblem == Some(p) && r.phase == SummingTime
    ensures r.sumPileCount == 0 && r.draggedFromPile1Count == 0 && r.draggedFromPile2Count == 0
    ensures r.feedbackMessage == None && r.dragFeedback == None && r.isCorrect == None
    ensures r.(currentProblem := s.currentProblem, phase := s.phase, sumPileCount := s.sumPileCount,
               draggedFromPile1Count := s.draggedFromPile1Count,
               draggedFromPile2Count := s.draggedFromPile2Count,
               feedbackMessage := s.feedbackMessage, dragFeedback := s.dragFeedback,
               isCorrect := s.isCorrect) == s
    ensures (Consistent(s) && s.isPlaying && p.correctAnswer == p.num1 + p.num2
             && p.num1 >= 0 && p.num2 >= 0) ==> Consistent(r)
  {
    s.(currentProblem := Some(p), sumPileCount := 0, draggedFromPile1Count := 0,
       draggedFromPile2Count := 0, phase := SummingTime, feedbackMessage := None,
       dragFeedback := None, isCorrect := None)
  }

  // ---------------------------------------------------------------------
  // Adding units to the sum pile

  /** A drop is looked at only while summing a problem. */
  predicate Summing(s: GameState) {
    s.phase == SummingTime && s.currentProblem.Some?
  }

  /** The sum pile is full: the drop is refused with the "stop" cue. */
  predicate ShowsStop(s: GameState) {
    Summing(s) && s.sumPileCount >= s.currentProblem.value.correctAnswer
  }

  /** The drop adds a unit: the sum is not full and the source pile is not exhausted. */
  predicate AcceptsDrop(s: GameState, source: Source) {
    && Summing(s)
    && s.sumPileCount < s.currentProblem.value.correctAnswer
    && (source == Pile1 ==> s.draggedFromPile1Count < s.currentProblem.value.num1)
    && (source == Pile2 ==> s.draggedFromPile2Count < s.currentProblem.value.num2)
  }

  /** The update `handleDropOnSumPile` applies for one unit from `source`. */
  function Drop(s: GameState, source: Source): (r: GameState)
    ensures !Summing(s) ==> r == s
    ensures ShowsStop(s) ==> r == s.(dragFeedback := Some(Stop))
    ensures !AcceptsDrop(s, source) ==> r.(dragFeedback := s.dragFeedback) == s
    ensures !ShowsStop(s) && !AcceptsDrop(s, source) ==> r == s
    ensures AcceptsDrop(s, source) ==>
      && r.sumPileCount == s.sumPileCount + 1
      && r.draggedFromPile1Count == s.draggedFromPile1Count + (if source == Pile1 then 1 else 0)
      && r.draggedFromPile2Count == s.draggedFromPile2Count + (if source == Pile2 then 1 else 0)
      && r.dragFeedback == None
      && r.(sumPileCount := s.sumPileCount, draggedFromPile1Count := s.draggedFromPile1Count,
            draggedFromPile2Count := s.draggedFromPile2Count, dragFeedback := s.dragFeedback) == s
    ensures Consistent(s) ==> Consistent(r)
  {
    if !Summing(s) then s
    else
      var p := s.currentProblem.value;
      if s.sumPileCount >= p.correctAnswer then s.(dragFeedback := Some(Stop))
      else if source == Pile1 && s.draggedFromPile1Count >= p.num1 then s
      else if source == Pile2 && s.draggedFromPile2Count >= p.num2 then s
      else
        s.(sumPileCount := s.sumPileCount + 1,
           draggedFromPile1Count := if source == Pile1 then s.draggedFromPile1Count + 1 else s.draggedFromPile1Count,
           draggedFromPile2Count := if source == Pile2 then s.draggedFromPile2Count + 1 else s.draggedFromPile2Count,
           dragFeedback := None)
  }

  function DropAll(s: GameState, sources: seq<Source>): GameState
    decreases |sources|
  {
    if sources == [] then s else DropAll(Drop(s, sources[0]), sources[1..])
  }

  /** No run of drops, however long, pushes a count past its target. */
  lemma {:induction false} DropAllConsistent(s: GameState, sources: seq<Source>)
    requires Consistent(s)
    ensures Consistent(DropAll(s, sources))
    ensures DropAll(s, sources).currentProblem == s.currentProblem
    ensures DropAll(s, sources).phase == s.phase
    ensures DropAll(s, sources).score == s.score
    decreases |sources|
  {
    if sources != [] {
      DropAllConsistent(Drop(s, sources[0]), sources[1..]);
    }
  }

  /** While room is left, every tap adds exactly one unit. */
  lemma {:induction false} TapsFillSum(s: GameState, n: nat)
    requires Consistent(s) && Summing(s)
    requires s.sumPileCount + n <= s.currentProblem.value.correctAnswer
    ensures DropAll(s, seq(n, _ => Click)).sumPileCount == s.sumPileCount + n
    ensures DropAll(s, seq(n, _ => Click)).draggedFromPile1Count == s.draggedFromPile1Count
    ensures DropAll(s, seq(n, _ => Click)).draggedFromPile2Count == s.draggedFromPile2Count
    decreases n
  {
    var taps := seq(n, _ => Click);
    if n > 0 {
      assert taps[1..] == seq(n - 1, _ => Click);
      TapsFillSum(Drop(s, Click), n - 1);
    }
  }

  // ---------------------------------------------------------------------
  // Completing a sum

  /** The condition the completion effect watches for. */
  predicate Solved(s: GameState) {
    Summing(s) && s.sumPileCount == s.currentProblem.value.correctAnswer
  }

  /** The update of the completion effect (with the praise it shows). */
  function Complete(s: GameState): (r: GameState)
    ensures !Solved(s) ==> r == s
    ensures Solved(s) ==>
      && r.score == s.score + 10
      && r.attempts == s.attempts + 1
      && r.correctAttempts == s.correctAttempts + 1
      && r.currentStreak == s.currentStreak + 1
      && r.longestStreak == (if s.longestStreak < r.currentStreak then r.currentStreak else s.longestStreak)
      && r.phase == FinalFeedback && r.isCorrect == Some(true)
      && r.showPraiseMessage
      && r.feedbackMessage == None && r.dragFeedback == None
    ensures r.currentProblem == s.currentProblem && r.sumPileCount == s.sumPileCount
    ensures r.draggedFromPile1Count == s.draggedFromPile1Count
    ensures r.draggedFromPile2Count == s.draggedFromPile2Count
    ensures r.isPlaying == s.isPlaying && r.timeLeft == s.timeLeft
    ensures r.gameStartTime == s.gameStartTime && r.toastMessageInfo == s.toastMessageInfo
    ensures Consistent(s) ==> Consistent(r)
  {
    if !Solved(s) then s
    else
      var streak := s.currentStreak + 1;
      s.(isCorrect := Some(true), phase := FinalFeedback, score := s.score + 10,
         correctAttempts := s.correctAttempts + 1, attempts := s.attempts + 1,
         currentStreak := streak,
         longestStreak := if s.longestStreak < streak then streak else s.longestStreak,
         feedbackMessage := None, dragFeedback := None, showPraiseMessage := true)
  }

  /** A round on problem 2 + 3 with nothing added yet. */
  function TwoPlusThree(): GameState {
    InitialGameState(60).(isPlaying := true, phase := SummingTime, gameStartTime := Some(1000),
                          currentProblem := Some(AdditionProblem("p", 2, 3, 0, 5)))
  }

  /**
   * Two drags from the first pile and three from the second fill 2 + 3;
   * completion then scores 10 and moves to feedback, after which a sixth
   * drag changes nothing. A sixth drag before the effect runs is refused
   * with the stop cue.
   */
  lemma ScenarioTwoPlusThree()
    ensures DropAll(TwoPlusThree(), [Pile1, Pile1, Pile2, Pile2, Pile2]).sumPileCount == 5
    ensures Complete(DropAll(TwoPlusThree(), [Pile1, Pile1, Pile2, Pile2, Pile2])).phase == FinalFeedback
    ensures Complete(DropAll(TwoPlusThree(), [Pile1, Pile1, Pile2, Pile2, Pile2])).score == 10
    ensures Drop(Complete(DropAll(TwoPlusThree(), [Pile1, Pile1, Pile2, Pile2, Pile2])), Pile1)
            == Complete(DropAll(TwoPlusThree(), [Pile1, Pile1, Pile2, Pile2, Pile2]))
    ensures Drop(DropAll(TwoPlusThree(), [Pile1, Pile1, Pile2, Pile2, Pile2]), Click).sumPileCount == 5
    ensures Drop(DropAll(TwoPlusThree(), [Pile1, Pile1, Pile2, Pile2, Pile2]), Click).dragFeedback == Some(Stop)
  {
    var sources := [Pile1, Pile1, Pile2, Pile2, Pile2];
    var s0 := TwoPlusThree();
    var s1 := Drop(s0, Pile1);
    var s2 := Drop(s1, Pile1);
    var s3 := Drop(s2, Pile2);
    var s4 := Drop(s3, Pile2);
    var s5 := Drop(s4, Pile2);
    assert s5.sumPileCount == 5;
    assert sources[1..] == [Pile1, Pile2, Pile2, Pile2];
    assert sources[1..][1..] == [Pile2, Pile2, Pile2];
    assert sources[1..][1..][1..] == [Pile2, Pile2];
    assert sources[1..][1..][1..][1..] == [Pile2];
    assert sources[1..][1..][1..][1..][1..] == [];
    assert DropAll(s5, []) == s5;
    assert DropAll(s0, sources) == s5;
  }

  // ---------------------------------------------------------------------
  // Ending a round

  /** Whether `endSession` records a summary: a round was under way and not already closed. */
  predicate RecordsSummary(s: GameState) {
    !(s.phase == SessionOver && !s.isPlaying)
    && (s.isPlaying || (s.phase != StartScreen && s.phase != SessionOver))
  }

  predicate StartTimeSet(t: Option<int>) {
    t.Some? && t.value != 0
  }

  /** The summary `endSession` records for the round in `s`, ended at `now`. */
  function Summary(s: GameState, now: int, id: string, duration: int): (r: SessionStats)
    ensures r.id == id && r.date == now
    ensures r.problemsSolved == s.correctAttempts && r.score == s.score
    ensures r.longestStreak == s.longestStreak
    ensures s.attempts == 0 ==> r.accuracy == 0.0
    ensures s.attempts > 0 ==> r.accuracy * s.attempts as real == 100.0 * s.correctAttempts as real
    ensures s.correctAttempts <= s.attempts ==> 0.0 <= r.accuracy <= 100.0
    ensures !StartTimeSet(s.gameStartTime) ==> r.durationSeconds == (duration - s.timeLeft) as real
    ensures StartTimeSet(s.gameStartTime) ==>
      r.durationSeconds * 1000.0 == (now - s.gameStartTime.value) as real
  {
    var accuracy := if s.attempts > 0 then (s.correctAttempts as real / s.attempts as real) * 100.0 else 0.0;
    var seconds :=
      if StartTimeSet(s.gameStartTime) then (now - s.gameStartTime.value) as real / 1000.0
      else (duration - s.timeLeft) as real;
    SessionStats(id, now, s.correctAttempts, accuracy, seconds, s.longestStreak, s.score)
  }

  /** Every attempt counted is a solved sum, so a recorded accuracy is always 0 or 100. */
  lemma AccuracyAllOrNothing(s: GameState, now: int, id: string, duration: int)
    requires Consistent(s)
    ensures Summary(s, now, id, duration).accuracy == if s.attempts == 0 then 0.0 else 100.0
  {
    if s.attempts > 0 {
      assert s.correctAttempts as real / s.attempts as real == 1.0;
    }
  }

  /** The state `endSession` leaves: a reset record in the sessionOver phase. */
  function Ended(s: GameState, naturally: bool, duration: int): (r: GameState)
    ensures s.phase == SessionOver && !s.isPlaying ==> r == s
    ensures !(s.phase == SessionOver && !s.isPlaying) ==>
      && r.phase == SessionOver && !r.isPlaying
      && r.currentProblem == None && r.score == 0 && r.attempts == 0 && r.correctAttempts == 0
      && r.currentStreak == 0 && r.longestStreak == 0 && r.sumPileCount == 0
      && r.draggedFromPile1Count == 0 && r.draggedFromPile2Count == 0
      && r.dragFeedback == None && r.isCorrect == None && !r.showPraiseMessage
      && r.timeLeft == duration && r.gameStartTime == None
      && r.feedbackMessage == (if naturally || s.isPlaying then Some(ScoreMessage(s.score)) else None)
      && r.toastMessageInfo ==
           (if RecordsSummary(s) && naturally then Some(GreatEffort(s.correctAttempts, s.score))
            else if RecordsSummary(s) && s.isPlaying then Some(GameEnded(s.score))
            else None)
    ensures r.phase == SessionOver && !r.isPlaying
    ensures (s.phase == SessionOver && !s.isPlaying) || Consistent(r)
  {
    if s.phase == SessionOver && !s.isPlaying then s
    else
      var toast :=
        if !RecordsSummary(s) then None
        else if naturally then Some(GreatEffort(s.correctAttempts, s.score))
        else if s.isPlaying then Some(GameEnded(s.score))
        else None;
      InitialGameState(duration).(
        isPlaying := false, phase := SessionOver,
        feedbackMessage := if naturally || s.isPlaying then Some(ScoreMessage(s.score)) else None,
        toastMessageInfo := toast)
  }

  /** Ending an ended round again changes nothing. */
  lemma EndSessionIdempotent(s: GameState, naturally: bool, again: bool, duration: int)
    ensures Ended(Ended(s, naturally, duration), again, duration) == Ended(s, naturally, duration)
    ensures !RecordsSummary(Ended(s, naturally, duration))
  {
  }

  // ---------------------------------------------------------------------
  // The hook

  /**
   * The hook's mutable state: the game record, the session history, and
   * its four timers (the one-second countdown and the feedback, praise
   * and drag-feedback delays) as pending flags. The duration, the number
   * range and the number of items are the hook's configuration.
   */
  class AdditionAdventureGame {
    const duration: int
    const numberRange: NumberRange
    const itemCount: int
    var state: GameState
    var pastSessions: seq<SessionStats>
    var tickerRunning: bool
    var feedbackTimerPending: bool
    var praiseTimerPending: bool
    var dragFeedbackTimerPending: bool

    ghost predicate Valid()
      reads this
    {
      && Consistent(state)
      && numberRange.min >= 0 && numberRange.max >= 0
      && (feedbackTimerPending ==> state.phase == FinalFeedback)
    }

    /** Mounting the hook with the history read from storage. */
    constructor(duration: int, numberRange: NumberRange, itemCount: int, stored: seq<SessionStats>)
      requires numberRange.min >= 0 && numberRange.max >= 0
      ensures Valid()
      ensures this.duration == duration && this.numberRange == numberRange && this.itemCount == itemCount
      ensures state == InitialGameState(duration) && pastSessions == stored
      ensures !tickerRunning && !feedbackTimerPending && !praiseTimerPending && !dragFeedbackTimerPending
    {
      this.duration := duration;
      this.numberRange := numberRange;
      this.itemCount := itemCount;
      state := InitialGameState(duration);
      pastSessions := stored;
      tickerRunning, feedbackTimerPending, praiseTimerPending, dragFeedbackTimerPending := false, false, false, false;
    }

    /** The problem `generateProblem` draws with these random values has non-negative operands. */
    lemma DrawnProblemNonNegative(d: Draw)
      requires Valid() && ValidDraw(d)
      ensures GenerateProblem(numberRange, itemCount, d).num1 >= 0
      ensures GenerateProblem(numberRange, itemCount, d).num2 >= 0
    {
    }

    /**
     * `startGame` at time `now`: cancel every timer, start a fresh playing
     * record, install a problem drawn from `d` and start the countdown.
     */
    method StartGame(now: int, d: Draw)
      requires Valid() && ValidDraw(d)
      modifies this
      ensures Valid()
      ensures state == InstallProblem(
        InitialGameState(duration).(isPlaying := true, phase := SummingTime, gameStartTime := Some(now)),
        GenerateProblem(numberRange, itemCount, d))
      ensures state.isPlaying && state.phase == SummingTime && state.timeLeft == duration
      ensures tickerRunning && !feedbackTimerPending && !praiseTimerPending && !dragFeedbackTimerPending
      ensures pastSessions == old(pastSessions)
    {
      DrawnProblemNonNegative(d);
      var playing := InitialGameState(duration).(isPlaying := true, phase := SummingTime, gameStartTime := Some(now));
      state := InstallProblem(playing, GenerateProblem(numberRange, itemCount, d));
      tickerRunning := true;
      feedbackTimerPending, praiseTimerPending, dragFeedbackTimerPending := false, false, false;
    }

    /** `handleDropOnSumPile(source)`; a refused full-pile drop also schedules clearing the stop cue. */
    method HandleDropOnSumPile(source: Source)
      requires Valid()
      modifies this
      ensures Valid()
      ensures state == Drop(old(state), source)
      ensures dragFeedbackTimerPending == (old(dragFeedbackTimerPending) || ShowsStop(old(state)))
      ensures tickerRunning == old(tickerRunning) && feedbackTimerPending == old(feedbackTimerPending)
      ensures praiseTimerPending == old(praiseTimerPending) && pastSessions == old(pastSessions)
    {
      if ShowsStop(state) {
        dragFeedbackTimerPending := true;
      }
      state := Drop(state, source);
    }

    /** The completion effect, run after each render: score a filled sum and schedule the feedback and praise delays. */
    method CompletionEffect()
      requires Valid()
      modifies this
      ensures Valid()
      ensures state == Complete(old(state))
      ensures Solved(old(state)) ==> feedbackTimerPending && praiseTimerPending
      ensures !Solved(old(state)) ==>
        feedbackTimerPending == old(feedbackTimerPending) && praiseTimerPending == old(praiseTimerPending)
      ensures tickerRunning == old(tickerRunning) && dragFeedbackTimerPending == old(dragFeedbackTimerPending)
      ensures pastSessions == old(pastSessions)
    {
      if Solved(state) {
        feedbackTimerPending, praiseTimerPending := true, true;
      }
      state := Complete(state);
    }

    /** The 1.8 s callback: from feedback to waiting for the player's go-ahead; nothing else changes. */
    method FeedbackDelayElapsed()
      requires Valid() && feedbackTimerPending
      modifies this
      ensures Valid()
      ensures state == old(state).(phase := AwaitingConfirmation)
      ensures !feedbackTimerPending
      ensures tickerRunning == old(tickerRunning) && praiseTimerPending == old(praiseTimerPending)
      ensures dragFeedbackTimerPending == old(dragFeedbackTimerPending) && pastSessions == old(pastSessions)
    {
      state := state.(phase := AwaitingConfirmation);
      feedbackTimerPending := false;
    }

    /** The 1.5 s callback that hides the praise. */
    method PraiseDelayElapsed()
      requires Valid() && praiseTimerPending
      modifies this
      ensures Valid()
      ensures state == old(state).(showPraiseMessage := false)
      ensures !praiseTimerPending
      ensures tickerRunning == old(tickerRunning) && feedbackTimerPending == old(feedbackTimerPending)
      ensures dragFeedbackTimerPending == old(dragFeedbackTimerPending) && pastSessions == old(pastSessions)
    {
      state := state.(showPraiseMessage := false);
      praiseTimerPending := false;
    }

    /** The 1.5 s callback that clears the stop cue. */
    method DragFeedbackDelayElapsed()
      requires Valid() && dragFeedbackTimerPending
      modifies this
      ensures Valid()
      ensures state == old(state).(dragFeedback := None)
      ensures !dragFeedbackTimerPending
      ensures tickerRunning == old(tickerRunning) && feedbackTimerPending == old(feedbackTimerPending)
      ensures praiseTimerPending == old(praiseTimerPending) && pastSessions == old(pastSessions)
    {
      state := state.(dragFeedback := None);
      dragFeedbackTimerPending := false;
    }

    /**
     * The effect that hands a deferred end-of-round toast to the page and
     * clears it from the record; `shown` is the toast handed over.
     */
    method ToastDelivered() returns (shown: ToastInfo)
      requires Valid() && state.toastMessageInfo.Some?
      modifies this
      ensures Valid()
      ensures shown == old(state).toastMessageInfo.value
      ensures state == old(state).(toastMessageInfo := None)
      ensures tickerRunning == old(tickerRunning) && feedbackTimerPending == old(feedbackTimerPending)
      ensures praiseTimerPending == old(praiseTimerPending)
      ensures dragFeedbackTimerPending == old(dragFeedbackTimerPending) && pastSessions == old(pastSessions)
    {
      shown := state.toastMessageInfo.value;
      state := state.(toastMessageInfo := None);
    }

    /** `confirmAndProceed`: only after a correct sum has been acknowledged does a new problem appear. */
    method ConfirmAndProceed(d: Draw)
      requires Valid() && ValidDraw(d)
      modifies this
      ensures Valid()
      ensures !(old(state).phase == AwaitingConfirmation && old(state).isCorrect == Some(true)) ==>
        state == old(state) && feedbackTimerPending == old(feedbackTimerPending)
        && praiseTimerPending == old(praiseTimerPending)
        && dragFeedbackTimerPending == old(dragFeedbackTimerPending)
      ensures old(state).phase == AwaitingConfirmation && old(state).isCorrect == Some(true) ==>
        && state == InstallProblem(old(state), GenerateProblem(numberRange, itemCount, d))
        && !feedbackTimerPending && !praiseTimerPending && !dragFeedbackTimerPending
      ensures tickerRunning == old(tickerRunning) && pastSessions == old(pastSessions)
    {
      if state.phase == AwaitingConfirmation && state.isCorrect == Some(true) {
        DrawnProblemNonNegative(d);
        feedbackTimerPending, praiseTimerPending, dragFeedbackTimerPending := false, false, false;
        state := InstallProblem(state, GenerateProblem(numberRange, itemCount, d));
      }
    }

    /**
     * `endSession(naturally)` at time `now`; `id` stands for the generated
     * session id. Every timer is cancelled first, whatever the phase.
     */
    method EndSession(naturally: bool, now: int, id: string)
      requires Valid()
      modifies this
      ensures Valid()
      ensures state == Ended(old(state), naturally, duration)
      ensures pastSessions ==
        if RecordsSummary(old(state))
        then History.Prepend(Summary(old(state), now, id, duration), old(pastSessions))
        else old(pastSessions)
      ensures !tickerRunning && !feedbackTimerPending && !praiseTimerPending && !dragFeedbackTimerPending
    {
      tickerRunning, feedbackTimerPending, praiseTimerPending, dragFeedbackTimerPending := false, false, false, false;
      if RecordsSummary(state) {
        pastSessions := History.Prepend(Summary(state, now, id, duration), pastSessions);
      }
      state := Ended(state, naturally, duration);
    }

    /**
     * One tick of the one-second countdown at time `now`. With one second
     * or less left, the tick marks the record stopped at zero seconds and
     * the `endSession(true)` it calls then records that record and resets.
     */
    method Tick(now: int, id: string)
      requires Valid() && tickerRunning
      modifies this
      ensures Valid()
      ensures !old(state).isPlaying ==>
        state == old(state) && !tickerRunning && pastSessions == old(pastSessions)
        && feedbackTimerPending == old(feedbackTimerPending)
        && praiseTimerPending == old(praiseTimerPending)
        && dragFeedbackTimerPending == old(dragFeedbackTimerPending)
      ensures old(state).isPlaying && old(state).timeLeft <= 1 ==>
        var stopped := old(state).(timeLeft := 0, isPlaying := false);
        && state == Ended(stopped, true, duration)
        && state.phase == SessionOver && !state.isPlaying
        && pastSessions == History.Prepend(Summary(stopped, now, id, duration), old(pastSessions))
        && !tickerRunning && !feedbackTimerPending && !praiseTimerPending && !dragFeedbackTimerPending
      ensures old(state).isPlaying && old(state).timeLeft > 1 ==>
        state == old(state).(timeLeft := old(state).timeLeft - 1)
        && tickerRunning && pastSessions == old(pastSessions)
        && feedbackTimerPending == old(feedbackTimerPending)
        && praiseTimerPending == old(praiseTimerPending)
        && dragFeedbackTimerPending == old(dragFeedbackTimerPending)
    {
      if !state.isPlaying {
        tickerRunning := false;
      } else if state.timeLeft <= 1 {
        var stopped := state.(timeLeft := 0, isPlaying := false);
        assert RecordsSummary(stopped);
        tickerRunning, feedbackTimerPending, praiseTimerPending, dragFeedbackTimerPending := false, false, false, false;
        pastSessions := History.Prepend(Summary(stopped, now, id, duration), pastSessions);
        state := Ended(stopped, true, duration);
      } else {
        state := state.(timeLeft := state.timeLeft - 1);
      }
    }
  }
}
