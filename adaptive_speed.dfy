/**
 * The adaptive-speed decision of Letter Leap: given the player's accuracy,
 * words per minute and current level, and whatever the text-generation
 * service answered, choose the next difficulty level.
 */
module AdaptiveSpeed {
  import opened Constants

  datatype AdaptiveSpeedInput = AdaptiveSpeedInput(
    accuracy: real,              // 0 to 1
    wpm: real,
    currentLevel: int,
    totalLettersAttempted: int)

  /**
   * The outcome of asking the service, as the flow sees it after trimming
   * and `parseInt`: the call threw, the text was empty, it did not parse as
   * a number, or it parsed as the integer n.
   */
  datatype Reply = Threw | Empty | NonNumeric | Number(n: int)

  predicate ShouldRaise(input: AdaptiveSpeedInput) {
    input.accuracy >= MIN_ACCURACY_FOR_LEVEL_UP
    && input.wpm >= MIN_WPM_FOR_LEVEL_UP
    && input.currentLevel < MAX_LEVEL
  }

  predicate ShouldLower(input: AdaptiveSpeedInput) {
    input.accuracy < MAX_ACCURACY_FOR_LEVEL_DOWN && input.currentLevel > MIN_LEVEL
  }

  /** The threshold rule the flow falls back on whenever the service gives no number. */
  function Heuristic(input: AdaptiveSpeedInput): (level: int)
    ensures level == input.currentLevel + 1 <==> ShouldRaise(input)
    ensures level == input.currentLevel - 1 <==> !ShouldRaise(input) && ShouldLower(input)
    ensures input.currentLevel - 1 <= level <= input.currentLevel + 1
    ensures input.currentLevel >= MAX_LEVEL ==> level <= input.currentLevel
    ensures input.currentLevel <= MIN_LEVEL ==> level >= input.currentLevel
    ensures InLevelRange(input.currentLevel) ==> InLevelRange(level)
  {
    if ShouldRaise(input) then input.currentLevel + 1
    else if ShouldLower(input) then input.currentLevel - 1
    else input.currentLevel
  }

  function Distance(a: int, b: int): nat {
    if a < b then b - a else a - b
  }

  /**
   * A numeric suggestion, first kept within one step of the current level,
   * then within the level bounds. From an in-range level this picks, among
   * the levels one step or less away, the one nearest the suggestion.
   */
  function ClampSuggestion(suggested: int, current: int): (level: int)
    ensures InLevelRange(level)
    ensures InLevelRange(current) ==> current - 1 <= level <= current + 1
    ensures InLevelRange(current) ==>
      forall l :: InLevelRange(l) && current - 1 <= l <= current + 1 ==>
        Distance(level, suggested) <= Distance(l, suggested)
    ensures InLevelRange(current) && suggested >= current ==> level >= current
    ensures InLevelRange(current) && suggested <= current ==> level <= current
    ensures current - 1 <= suggested <= current + 1 && InLevelRange(suggested) ==> level == suggested
    ensures suggested > current + 1 && InLevelRange(current + 1) ==> level == current + 1
    ensures suggested < current - 1 && InLevelRange(current - 1) ==> level == current - 1
  {
    var stepped :=
      if suggested > current + 1 then current + 1
      else if suggested < current - 1 then current - 1
      else suggested;
    if stepped > MAX_LEVEL then MAX_LEVEL
    else if stepped < MIN_LEVEL then MIN_LEVEL
    else stepped
  }

  /** The level the flow returns; no outcome of the service call escapes as an error. */
  function NewLevel(input: AdaptiveSpeedInput, reply: Reply): (level: int)
    ensures !reply.Number? ==> level == Heuristic(input)
    ensures reply.Number? ==> level == ClampSuggestion(reply.n, input.currentLevel)
    ensures InLevelRange(input.currentLevel) ==> InLevelRange(level)
    ensures InLevelRange(input.currentLevel) ==> input.currentLevel - 1 <= level <= input.currentLevel + 1
  {
    match reply
    case Number(n) => ClampSuggestion(n, input.currentLevel)
    case _ => Heuristic(input)
  }

  /** Thrown, empty and non-numeric replies are indistinguishable in their effect. */
  lemma FailuresAgree(input: AdaptiveSpeedInput)
    ensures NewLevel(input, Threw) == NewLevel(input, Empty) == NewLevel(input, NonNumeric)
  {
  }

  /** Accuracy 0.95 at 30 WPM on level 3 moves to level 4, whatever the service says. */
  lemma ScenarioLevelThree()
    ensures NewLevel(AdaptiveSpeedInput(0.95, 30.0, 3, 20), Threw) == 4
    ensures NewLevel(AdaptiveSpeedInput(0.95, 30.0, 3, 20), Number(10)) == 4
    ensures NewLevel(AdaptiveSpeedInput(0.95, 30.0, 3, 20), Number(99)) == 4
    ensures NewLevel(AdaptiveSpeedInput(0.95, 30.0, 3, 20), Number(-5)) == 2
  {
  }
}
