/**
 * The tuning constants of Letter Leap: level bounds, the level-up and
 * level-down thresholds, and the table that maps a level to the pause
 * between letters.
 */
module Constants {
  import opened Wrappers

  const INITIAL_LEVEL: int := 3
  const MAX_LEVEL: int := 10
  const MIN_LEVEL: int := 1

  /** Declared "adjust speed every 10 letters"; nothing in the model reads it. */
  const LETTERS_PER_LEVEL_ADJUSTMENT: int := 10
  const MIN_WPM_FOR_LEVEL_UP: real := 15.0
  const MIN_ACCURACY_FOR_LEVEL_UP: real := 0.85
  const MAX_ACCURACY_FOR_LEVEL_DOWN: real := 0.70

  predicate InLevelRange(level: int) {
    MIN_LEVEL <= level <= MAX_LEVEL
  }

  /** The lookup `LEVEL_TO_INTERVAL_MS[level]`: None where the table has no entry. */
  function IntervalMs(level: int): (ms: Option<int>)
    ensures ms.Some? <==> InLevelRange(level)
    ensures ms.Some? ==> 900 <= ms.value <= 3500
  {
    match level
    case 1 => Some(3500)
    case 2 => Some(3000)
    case 3 => Some(2700)
    case 4 => Some(2400)
    case 5 => Some(2100)
    case 6 => Some(1800)
    case 7 => Some(1500)
    case 8 => Some(1300)
    case 9 => Some(1100)
    case 10 => Some(900)
    case _ => None
  }

  /** The starting level lies within the level bounds. */
  lemma InitialLevelInRange()
    ensures MIN_LEVEL <= INITIAL_LEVEL <= MAX_LEVEL
  {
  }

  /** A raise needs more accuracy than any lowering allows, so the two never both apply. */
  lemma AccuracyThresholdsDisjoint(accuracy: real)
    ensures MAX_ACCURACY_FOR_LEVEL_DOWN < MIN_ACCURACY_FOR_LEVEL_UP
    ensures !(accuracy >= MIN_ACCURACY_FOR_LEVEL_UP && accuracy < MAX_ACCURACY_FOR_LEVEL_DOWN)
  {
  }

  /** One level up always shortens the interval. */
  lemma IntervalStepDecreases(level: int)
    requires MIN_LEVEL <= level < MAX_LEVEL
    ensures IntervalMs(level).Some? && IntervalMs(level + 1).Some?
    ensures IntervalMs(level).value > IntervalMs(level + 1).value
  {
  }

  /** The interval strictly decreases as the level rises: a higher level means faster pacing. */
  lemma {:induction false} IntervalDecreasing(low: int, high: int)
    requires MIN_LEVEL <= low < high <= MAX_LEVEL
    ensures IntervalMs(low).Some? && IntervalMs(high).Some?
    ensures IntervalMs(low).value > IntervalMs(high).value
    decreases high - low
  {
    IntervalStepDecreases(high - 1);
    if low < high - 1 {
      IntervalDecreasing(low, high - 1);
    }
  }
}
