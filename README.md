# Letter Leap and Addition Adventure session controllers in Dafny

This project models the logic behind two small browser games for children.
Rendering and browser plumbing are left out.

- **Letter Leap** (`LetterLeap`) is a typing round. A word is shown and the
  player types it letter by letter. Each accepted key press is scored
  case-insensitively against the next letter. The controller keeps the
  typed prefix, the correct and total press counts, the current and longest
  streak, and the number of words completed. It derives live accuracy and
  words per minute from these counters. When the round ends, a summary goes
  into a history of at most ten entries.
- **Addition Adventure** (`AdditionAdventure`) is a timed round of addition
  problems. The player moves units one at a time onto a sum pile. A unit can
  be dragged from either addend pile or added by tapping the sum pile. Once
  the sum pile holds `num1 + num2`, the round scores +10 and moves through
  feedback and confirmation to the next problem. A one-second countdown ends
  the round.
- **Adaptive speed** (`AdaptiveSpeed`) picks the next Letter Leap level.
  It uses a numeric suggestion from a text-generation service, kept within
  one step and within the level bounds. When the service gives no number, it
  falls back to an accuracy/WPM threshold rule.
- **Constants** (`Constants`) holds the level bounds, the thresholds and the
  level-to-interval table. **History** (`History`) holds the
  prepend-and-cap-at-ten rule that both games use for their session lists.

Each hook updates a single state record with `prev => next` functions. Each
such update is a Dafny function on a `GameState` datatype, and its contract
states what the update promises. Each hook is also a class. The class holds
the record, the session history, a pending flag per cancellable timer and,
in Letter Leap, a count of the uncancellable first-word callbacks. It has
one method per event:

- user actions: start, key press, drop, confirm, stop;
- timer callbacks: next word, feedback delay, praise delay, drag-feedback
  delay, countdown tick;
- the Addition Adventure effect that hands the deferred toast to the page.

A timer callback method requires its flag, because a cleared or
never-scheduled timer cannot fire. Each class has a `Valid()` invariant
built from the record's `Consistent` predicate, and every method keeps it.

Notes on the code as written:

- The typing hook never calls the adaptive-speed flow. Its imports are
  commented out (`src/hooks/use-letter-leap-game.ts:9-12`), and
  `LETTERS_PER_LEVEL_ADJUSTMENT` is never read. The level is therefore only
  carried from round to round, and the flow is modelled as a standalone
  function.
- The typing hook has no countdown. A Letter Leap round ends only when
  `endSession` is called.
- Addition Adventure counts an attempt only when a sum is completed, so
  `attempts == correctAttempts` always holds. The recorded accuracy is
  therefore always 0 or 100 (`AccuracyAllOrNothing`). The streak never
  resets within a round.
- When the countdown reaches its last second, the tick's own update
  returns `timeLeft = 0`, and the `endSession(true)` it calls from inside
  that update queues a second update. The order of those two updates is not
  fixed by the hook itself. The model assumes the queued one is applied
  after the tick's own: the reset then sets `timeLeft` back to the full
  duration, and the `timeLeft = 0` record is the one summarised (`Tick`).
- The feedback value `'timeout'` is part of the type, but neither hook sets it.

Inputs that the hooks read from outside the model become parameters:

- the current time (`now`, in milliseconds);
- the random draws (`word`, or a `Draw` holding three values in `[0, 1)`
  and an id string);
- the generated session id;
- the configuration constants `ADDITION_GAME_DURATION_SECONDS`,
  `ADDITION_NUMBER_RANGE` and the number of `ADDITION_ITEMS`. These come
  from a constants module that is not part of this model. The number range
  is taken to be non-negative.

## Model

| member | source | states |
|---|---|---|
| Constants.IntervalMs | src/lib/constants.ts:8-19 | the interval table has an entry exactly for the levels `MIN_LEVEL..MAX_LEVEL`, each between 900 and 3500 ms |
| Constants.InitialLevelInRange | src/lib/constants.ts:3-5 | `MIN_LEVEL <= INITIAL_LEVEL <= MAX_LEVEL` |
| Constants.AccuracyThresholdsDisjoint | src/lib/constants.ts:23-24 | the level-down accuracy bound lies below the level-up bound, so no accuracy meets both conditions |
| Constants.IntervalStepDecreases | src/lib/constants.ts:9-18 | one level up always gives a strictly shorter interval |
| Constants.IntervalDecreasing | src/lib/constants.ts:8-19 | for any two levels in range, the higher level has the strictly shorter interval (faster pacing) |
| History.Prepend | src/hooks/use-letter-leap-game.ts:210 | the new summary is first, the rest is the old history in order, and the length is `min(old + 1, 10)`; Addition Adventure uses the same rule at src/hooks/useAdditionAdventureGame.ts:134 |
| AdaptiveSpeed.Heuristic | src/ai/flows/adaptiveSpeedFlow.ts:82-86 | the level rises by one exactly when accuracy ≥ 0.85, WPM ≥ 15 and the level is below MAX; it falls by one exactly when it does not rise, accuracy < 0.70 and the level is above MIN; otherwise it stays; it never rises at MAX, never falls at MIN, and keeps an in-range level in range |
| AdaptiveSpeed.ClampSuggestion | src/ai/flows/adaptiveSpeedFlow.ts:89-92 | the result always lies in `[MIN_LEVEL, MAX_LEVEL]`; from an in-range level it moves at most one step, never moves against the suggestion's direction, and is the in-range level at most one step away that lies nearest the suggestion, so a suggestion within one step and in range is taken as is and one too far up or down becomes one step up or down, or stays at the bound |
| AdaptiveSpeed.NewLevel | src/ai/flows/adaptiveSpeedFlow.ts:68-112 | a thrown, empty or non-numeric reply yields the heuristic level, a numeric reply yields the clamped suggestion, and no outcome escapes as an error; for an in-range current level, every reply yields an in-range level at most one step away |
| AdaptiveSpeed.FailuresAgree | src/ai/flows/adaptiveSpeedFlow.ts:79-111 | the three failure paths give the identical level |
| AdaptiveSpeed.ScenarioLevelThree | src/ai/flows/adaptiveSpeedFlow.ts:82-92 | accuracy 0.95 at 30 WPM on level 3 gives level 4 after a failure and after suggestions 10 or 99; a suggestion of -5 gives 2 |
| LetterLeap.UpperString | src/hooks/use-letter-leap-game.ts:88 | the shown word has the same length as the drawn one, contains no lower-case letter, and matches it letter by letter ignoring case |
| LetterLeap.MatchesIgnoresCase | src/hooks/use-letter-leap-game.ts:120 | a letter matches itself in either case; no other letter matches it, whether typed in upper or lower case |
| LetterLeap.PressKey | src/hooks/use-letter-leap-game.ts:105-163 | with no round, no word or no letters left, the state is unchanged; otherwise total +1 and the target letter is reported; a match gives correct +1, streak +1, pointer +1, the target appended to the typed portion and longest = max(longest, streak); a miss resets the streak and leaves correct, pointer, portion and longest alone; the word count rises exactly on the press that types the last letter; the word, level and start time stay; the prefix and counter invariants are kept |
| LetterLeap.PressesAfterCompletionIgnored | src/hooks/use-letter-leap-game.ts:106 | once the pointer is at the end of the word, any run of presses changes nothing (presses during the next-word delay are ignored) |
| LetterLeap.PressAllConsistent | src/hooks/use-letter-leap-game.ts:113-161 | any run of presses keeps `typedWordPortion == currentWord[..currentWordIndex]`, `correct ≤ total` and `streak ≤ longest`, and never lowers the count of misses |
| LetterLeap.WordCountedOnce | src/hooks/use-letter-leap-game.ts:140-143 | over any run of presses on one word, the word count rises by one exactly when the run moves the pointer onto the end of the word, and otherwise stays |
| LetterLeap.TypingRestOfWord | src/hooks/use-letter-leap-game.ts:120-143 | typing the remaining letters correctly (in either case) completes the word once, adds one correct press, one total press and one streak step per letter, and leaves the whole word as the typed portion |
| LetterLeap.ScenarioCat | src/hooks/use-letter-leap-game.ts:120-143 | C, A, T on "CAT" give one word, three correct presses and a streak of three |
| LetterLeap.ScenarioDog | src/hooks/use-letter-leap-game.ts:120-143 | D, X, O, G on "DOG" give four presses, three correct, a streak of two, a longest streak of two and one word |
| LetterLeap.Round | src/hooks/use-letter-leap-game.ts:76 | the result is the nearest integer, with halves rounded up |
| LetterLeap.RoundNonNegative | src/hooks/use-letter-leap-game.ts:76 | rounding a non-negative rate gives a non-negative integer |
| LetterLeap.WordsPerMinute | src/hooks/use-letter-leap-game.ts:75 | WPM is 0 unless elapsed minutes are positive; then it is the rounded `(correct / 5) / minutes`; it is never negative |
| LetterLeap.ComputeStats | src/hooks/use-letter-leap-game.ts:69-77 | accuracy = WPM = 0 when not playing, when there is no start time (null or 0) or when no key was pressed; otherwise accuracy × total = correct, which lies in [0, 1] when correct ≤ total, and WPM is the rounded rate |
| LetterLeap.ShowWord | src/hooks/use-letter-leap-game.ts:85-100 | not playing: unchanged; otherwise the upper-cased word is shown with pointer 0, empty portion and no feedback; nothing else changes and the invariants are kept |
| LetterLeap.Started | src/hooks/use-letter-leap-game.ts:173-180 | a playing round started at `now`, off the start and session-over screens, with every counter, streak and live stat at zero, no word and no feedback, keeping only the level |
| LetterLeap.Summary | src/hooks/use-letter-leap-game.ts:192-208 | letters, words and longest streak come from the round; accuracy is 0 with no presses and otherwise `100 × correct / total`, in [0, 100]; without a start time, duration and WPM are 0; with one, the duration is the minutes elapsed since it and WPM is the rounded rate over that duration; for a round in progress, the recorded accuracy and WPM equal 100 × and 1 × the live values |
| LetterLeap.Ended | src/hooks/use-letter-leap-game.ts:219-227 | the round is over, the start screen is back and no word is shown; the counters stay; the invariants are kept |
| LetterLeap.LetterLeapGame.constructor | src/hooks/use-letter-leap-game.ts:15-47 | the initial record, the stored history and no pending timers |
| LetterLeap.LetterLeapGame.PressDuringWordDelayIgnored | src/hooks/use-letter-leap-game.ts:140-144 | while the next-word timer is pending, the press update leaves the record unchanged (only the stats recompute still runs) |
| LetterLeap.LetterLeapGame.HandleKeyPress | src/hooks/use-letter-leap-game.ts:104-165 | the record becomes the pressed record with recomputed stats; an accepted press cancels both timers and schedules the next word if it completes the word, or the feedback clear if it does not |
| LetterLeap.LetterLeapGame.FeedbackDelayElapsed | src/hooks/use-letter-leap-game.ts:146-148 | only the feedback and the feedback letter are cleared |
| LetterLeap.LetterLeapGame.ShowNewWord | src/hooks/use-letter-leap-game.ts:80-101 | both timers are cancelled and the word is shown as `ShowWord` says |
| LetterLeap.LetterLeapGame.WordDelayElapsed | src/hooks/use-letter-leap-game.ts:144 | the next-word callback shows the new word |
| LetterLeap.LetterLeapGame.StartDelayElapsed | src/hooks/use-letter-leap-game.ts:181 | the uncancellable first-word callback shows the new word |
| LetterLeap.LetterLeapGame.StartGame | src/hooks/use-letter-leap-game.ts:168-182 | both timers cancelled, the round reset as `Started` says, and one more first-word callback pending |
| LetterLeap.LetterLeapGame.EndSession | src/hooks/use-letter-leap-game.ts:184-229 | not playing: nothing changes; otherwise both timers are cancelled, exactly one summary is prepended (history capped at 10), and the record ends as `Ended` says |
| AdditionAdventure.ScaledFloor | src/hooks/useAdditionAdventureGame.ts:35-37 | `floor(random × n)` lies in `[0, n)` for positive n and is 0 for n = 0 |
| AdditionAdventure.GenerateProblem | src/hooks/useAdditionAdventureGame.ts:34-45 | the answer is `num1 + num2`; each operand lies in `[min, min + max)` (equal to min when max = 0); the item index is within the item list |
| AdditionAdventure.InstallProblem | src/hooks/useAdditionAdventureGame.ts:190-204 | the new problem with empty sum and pile counts, phase summingTime and no feedback or verdict; nothing else changes; the invariants are kept for a well-formed problem during play |
| AdditionAdventure.Drop | src/hooks/useAdditionAdventureGame.ts:278-317 | outside summingTime or without a problem, unchanged; with the sum full, only the stop cue is set; a drag from an exhausted pile returns the record unchanged; an accepted unit raises the sum by one, raises only its source pile's count (a tap raises neither) and clears the cue, with nothing else changed; the count bounds are kept |
| AdditionAdventure.DropAllConsistent | src/hooks/useAdditionAdventureGame.ts:282-306 | any run of drops keeps `sum ≤ answer`, `pile1 ≤ num1`, `pile2 ≤ num2` and the other invariants, and changes neither problem, phase nor score |
| AdditionAdventure.TapsFillSum | src/hooks/useAdditionAdventureGame.ts:307-315 | while room is left, n taps raise the sum by exactly n and leave both pile counts alone |
| AdditionAdventure.Complete | src/hooks/useAdditionAdventureGame.ts:221-247 | with a full sum in summingTime: score +10, attempts, correct attempts and streak +1, longest = max, phase finalFeedback, verdict correct and praise shown; otherwise unchanged; problem, counts, play flag, clock, start time and pending toast stay; the invariants are kept |
| AdditionAdventure.ScenarioTwoPlusThree | src/hooks/useAdditionAdventureGame.ts:221-247 | on 2 + 3, five valid drags fill the sum; completion scores 10 and enters finalFeedback; a sixth drag afterwards changes nothing, and a sixth unit before completion is refused with the stop cue |
| AdditionAdventure.Summary | src/hooks/useAdditionAdventureGame.ts:120-132 | solved, score and longest streak come from the round; accuracy is 0 without attempts and otherwise `100 × correct / attempts`, in [0, 100]; the duration is the wall-clock seconds since the start, or the seconds used from the countdown without a start time |
| AdditionAdventure.AccuracyAllOrNothing | src/hooks/useAdditionAdventureGame.ts:225-242 | in every reachable record, the recorded accuracy is 0 without attempts and 100 otherwise |
| AdditionAdventure.Ended | src/hooks/useAdditionAdventureGame.ts:108-157 | an already-closed record stays as it is; otherwise a reset record in sessionOver, not playing, with every count, streak, verdict, cue and praise flag cleared, the full time back and no start time, the score message when the round ended naturally or was being played, and the toast for the way it ended |
| AdditionAdventure.EndSessionIdempotent | src/hooks/useAdditionAdventureGame.ts:111-113 | ending an ended record again changes nothing and records no second summary |
| AdditionAdventure.AdditionAdventureGame.constructor | src/hooks/useAdditionAdventureGame.ts:11-32 | the initial record with the full duration, the stored history and no running timers |
| AdditionAdventure.AdditionAdventureGame.DrawnProblemNonNegative | src/hooks/useAdditionAdventureGame.ts:35-36 | a drawn problem's operands are non-negative under the configured range |
| AdditionAdventure.AdditionAdventureGame.StartGame | src/hooks/useAdditionAdventureGame.ts:206-217 | every timer cancelled, a playing record with the full time and a freshly drawn problem in summingTime, and the countdown running |
| AdditionAdventure.AdditionAdventureGame.HandleDropOnSumPile | src/hooks/useAdditionAdventureGame.ts:278-317 | the record changes as `Drop` says; a full-sum refusal also schedules clearing the stop cue |
| AdditionAdventure.AdditionAdventureGame.CompletionEffect | src/hooks/useAdditionAdventureGame.ts:220-250 | the record changes as `Complete` says; a completion schedules the feedback and praise delays |
| AdditionAdventure.AdditionAdventureGame.FeedbackDelayElapsed | src/hooks/useAdditionAdventureGame.ts:232-234 | only the phase changes, to awaitingConfirmation |
| AdditionAdventure.AdditionAdventureGame.PraiseDelayElapsed | src/hooks/useAdditionAdventureGame.ts:103-105 | only the praise flag is cleared |
| AdditionAdventure.AdditionAdventureGame.DragFeedbackDelayElapsed | src/hooks/useAdditionAdventureGame.ts:285 | only the stop cue is cleared |
| AdditionAdventure.AdditionAdventureGame.ToastDelivered | src/hooks/useAdditionAdventureGame.ts:161-166 | with a deferred toast pending, that toast is handed over and cleared from the record; nothing else in the record, the timers or the history changes |
| AdditionAdventure.AdditionAdventureGame.ConfirmAndProceed | src/hooks/useAdditionAdventureGame.ts:252-257 | nothing happens unless the phase is awaitingConfirmation with a correct verdict; then the problem timers are cancelled and a new problem is installed |
| AdditionAdventure.AdditionAdventureGame.EndSession | src/hooks/useAdditionAdventureGame.ts:108-159 | every timer cancelled; one summary prepended (history capped at 10) exactly when a round was under way; the record ends as `Ended` says, in sessionOver and not playing |
| AdditionAdventure.AdditionAdventureGame.Tick | src/hooks/useAdditionAdventureGame.ts:172-187 | not playing: the countdown stops and nothing else changes; with one second or less left, the round is summarised with `timeLeft = 0` and ended in sessionOver with every timer stopped; otherwise `timeLeft` drops by exactly one |

## Left out

- Browser storage. The `localStorage`/JSON reads and writes and the storage
  helpers are left out. History is an in-memory sequence, and the stored
  history is a constructor parameter.
- Side effects with no bearing on the state: speech synthesis, vibration,
  toast display and `console` logging. The Addition Adventure effect that
  shows the deferred toast is modelled only by what it does to the record
  (`ToastDelivered` clears `toastMessageInfo` and returns the toast).
- Keyboard listeners and page-level dispatch. This includes the Enter-key
  handler that calls `confirmAndProceed` or `startGame`, and the
  letters-only filter in front of `handleKeyPress`. Key presses are single
  characters.
- `setTimeout`/`setInterval` themselves. They become pending flags and
  explicit callback methods, and any interleaving of events is allowed.
- The stats effect re-runs `calculateStats` after a render, at a later
  `Date.now()`. The model folds that recompute into `HandleKeyPress`, at the
  `now` of the press, so a WPM computed a moment later is not represented.
- React scheduling details: state batching, and the double invocation of
  updaters in development mode.
- `Date.now`, `Math.random`, ISO date strings and id generation. These
  become parameters, and dates are millisecond numbers.
- The word list and the `ADDITION_*` constants. They are not part of this
  model and are taken as parameters.
- The language-model call, its prompt and the zod schemas of the flow. The
  reply is an input variant. The input schema's level bounds appear only as
  the hypothesis of the range and step properties.
- Praise text and icon choice, and the hand-indicator fields. Only the
  Addition Adventure praise flag is modelled.
- Floating point. Accuracy, WPM and durations are exact reals.
- Upper-casing outside ASCII. Only ASCII letters reach the game.
- LetterLeap.Summary: does not model the two-decimal rounding
  (`toFixed(2)`/`parseFloat`) of the recorded accuracy and duration; both
  are exact reals.
- AdditionAdventure.Summary: does not model the rounding of the recorded
  accuracy (two decimals) and duration (whole seconds); both are exact reals.
- LetterLeap.LetterLeapGame.EndSession: the hook reads the history through
  its callback's closure. The model always uses the current history, which
  is what that closure holds whenever the callback is current.
