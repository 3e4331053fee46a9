# Falling-balls game engine, modelled in Dafny

This project models the core of a small browser arcade game. The player moves a paddle left and
right to catch balls that fall down a 500 × 600 board during a timed round. A settings panel
configures four numbers: falling speed, falling frequency (seconds between spawns), player speed
and game time (the round's length in seconds).

The core is the game engine `GameService`. It holds the settings, the paddle position `playerX`,
the live balls, the score, the time shown to the player, and a ball id counter. It also runs four
reactive processes: a settings watch that (re)starts a ball generator, the physics tick, the
countdown, and the keyboard handler. Beside it sit the form's integer validator, the settings form's
forwarding rule, and the board constants.

Modules:

- `Board` (`board.dfy`): the board constants and the numbers derived from them.
- `Types`, `Wrappers`: the settings record and `Option`, which stands for `null` and `undefined`.
- `Validators` (`validators.dfy`): `integerValidator` over strings. The pattern `^\d+$` is modelled
  as a greedy digit scan and proved equal to "non-empty, every character a digit".
- `SettingsForm` (`settings_form.dfy`): when a form change reaches `setSettings`, and with which record.
- `Physics` (`physics.dfy`): balls, the catch rule, and what one tick does to the ball list, as
  functions (`Moved`, `Survivors`, `CaughtCount`, `MissedCount`) with lemmas about them.
- `Engine` (`engine.dfy`): the countdown pipeline as a function, and `GameService` as a class.
  Each RxJS subscription is a field: `spawnWatch`, `generator`, `ticking`, `countdown`. Each
  emission of a process is one atomic method: `Tick`, `Spawn(x)`, `CountdownSecond`, `Key(arrow)`.
  A step of a process that is not subscribed changes nothing. The object invariant `Valid()` says:
  - `0 <= playerX <= 400`;
  - the score and the time are never negative;
  - ball ids increase strictly along the list and stay below the counter;
  - every ball's x is in the spawn range and its y is above the off-board bound 580;
  - the time shown agrees with the countdown;
  - the physics tick is subscribed exactly when a countdown runs.
- `Scenarios` (`scenarios.dfy`): client methods that play short rounds using only the class
  contracts. They show the behaviour described next.

Some behaviours of the code that a reader might not expect, all modelled as written:

- One might expect a round's end to re-centre the paddle and clear the settings. It does neither:
  `stopGame` sets the time to 0 and empties the balls and the score at once. The paddle stays where
  it was and the settings stay stored.
- One might expect re-setting a value already in effect to do nothing. It does not: `setSettings`
  takes the whole record and always republishes it, so the ball generator restarts every time. The
  round is restarted only when there were no settings before or `gameTime` changed.
- A round's end stops the tick and the ball generator but not the settings watch. A later
  `setSettings` that keeps `gameTime` therefore starts a generator again while the tick stays
  stopped: new balls appear at y = 0 and never fall (`Scenarios.AfterRoundScenario`).
- Until the countdown's first second the time is 0, so keys and ticks do nothing.
- A ball counts as caught as soon as its y reaches 560, even if it is already below the
  off-board bound. A caught ball always adds to the score.

## Model

| member | source | states |
|---|---|---|
| `Board.BoardGeometry` | src/pages/game/constants/game-board.constants.ts:1-13 | MAX_PLAYER_X is 400; INITIAL_PLAYER_X is 200 and lies in [0, 400]; the off-board bound is 580 and the catch line 560; the spawn range width 480 is positive |
| `Physics.DetectCollision` | src/pages/game/providers/game.service.ts:192-200 | caught iff the ball's bottom edge reaches the paddle's top edge and the ball's and paddle's closed horizontal extents meet; in numbers, y ≥ 560 and playerX − 20 ≤ x ≤ playerX + 100 (tolerance on the left only) |
| `Physics.CollisionExamples` | src/pages/game/providers/game.service.ts:192-200 | a ball at (90, 579) is missed by a paddle at 200 and caught by one at 80; the left, right and top edges of the catch window are exact |
| `Physics.Moved` | src/pages/game/providers/game.service.ts:101-104 | the tick's map keeps the number of balls, each ball's id and x, and moves each down by exactly the falling speed |
| `Physics.Survivors` | src/pages/game/providers/game.service.ts:106-110 | the balls the tick's filter keeps: never more than were moved, and each of them is below the off-board bound and not caught |
| `Physics.CaughtCount` | src/pages/game/providers/game.service.ts:107-108 | the number of score increments one filter pass makes, one per caught ball: at most the number of moved balls, and 0 when none is caught |
| `Physics.MissedCount` | src/pages/game/providers/game.service.ts:109 | the number of balls the filter drops only because they left the board: at most the number of moved balls, and 0 when all are above the bound |
| `Physics.SurvivorsAppend` | src/pages/game/providers/game.service.ts:106-110 | the filter's kept list and its catch count split over concatenation, so the filter can be run ball by ball |
| `Physics.SurvivorsMembership` | src/pages/game/providers/game.service.ts:106-110 | a ball is kept iff it was a moved ball with y < 580 that is not caught |
| `Physics.SurvivorsInOrder` | src/pages/game/providers/game.service.ts:106-112 | the kept balls are a subsequence of the moved balls: surviving balls keep their order |
| `Physics.TickAccounting` | src/pages/game/providers/game.service.ts:106-110 | every moved ball is exactly one of kept, caught, or missed (off the board and not caught); only the caught ones are counted for the score |
| `Physics.SurvivorsIdsAbove` | src/pages/game/providers/game.service.ts:106-110 | filtering never brings in an id below a bound all moved ids exceed |
| `Physics.SurvivorsWellFormed` | src/pages/game/providers/game.service.ts:106-112 | filtering keeps ids strictly increasing, below the counter and x in the spawn range, and leaves only balls with y < 580 |
| `Physics.TickPreservesWellFormed` | src/pages/game/providers/game.service.ts:101-112 | a whole tick (move, then filter) preserves the invariant of the live balls |
| `Physics.SpawnPreservesWellFormed` | src/pages/game/providers/game.service.ts:123-129 | appending a ball with the counter's id at a legal x and y = 0 preserves the live-ball invariant for the incremented counter |
| `Engine.TimerStep` | src/pages/game/providers/game.service.ts:137-138 | emission sec of the countdown pipeline completes iff sec exceeds the duration; otherwise it publishes a non-negative time that adds up with sec to the duration |
| `Engine.Published` | src/pages/game/providers/game.service.ts:134-142 | every time the countdown publishes from emission sec on is between 0 and duration − sec |
| `Engine.PublishedCountsDown` | src/pages/game/providers/game.service.ts:135-138 | from emission sec on, the countdown publishes duration − sec, duration − sec − 1, …, 0 and nothing once that is negative |
| `Engine.CountdownOfRound` | src/pages/game/providers/game.service.ts:134-142 | a round of d seconds publishes exactly d + 1 times, d down to 0, and completes on the following second |
| `Engine.TimerIsLastPublished` | src/pages/game/providers/game.service.ts:134-142 | after elapsed > 0 seconds of a countdown, the engine's time is entry elapsed − 1 of the pipeline's published sequence |
| `Engine.RestartsRound` | src/pages/game/providers/game.service.ts:71 | `setSettings` restarts when there were no settings or gameTime changed, and not when gameTime is the same; re-sending the same settings never restarts |
| `Engine.GenerationFrequency` | src/pages/game/providers/game.service.ts:78-89 | the settings watch stops generating when the settings are null, and otherwise always generates with the latest fallingFrequency, whatever it was started with |
| `Engine.MoveSpeed` | src/pages/game/providers/game.service.ts:184 | the paddle step is playerSpeed when settings exist and it is non-zero, otherwise 1; it is never 0 |
| `Engine.Step` | src/pages/game/providers/game.service.ts:185 | the requested paddle position is the current one moved left by the speed for the left arrow and right by it for the right arrow |
| `Engine.ClampToBoard` | src/pages/game/providers/game.service.ts:186 | the new paddle position lies in [0, 400]; it is the requested position when that is on the board, and the nearest edge otherwise |
| `Engine.GameService.constructor` | src/pages/game/providers/game.service.ts:36-45 | a new engine has no settings, the paddle at 200, no balls, score 0, time 0 and counter 0; no settings watch, generator, tick or countdown is running, while the keyboard handler is live from construction (`Key` needs no subscription); it satisfies the invariant |
| `Engine.GameService.SetSettings` | src/pages/game/providers/game.service.ts:67-74 | the new settings are always stored and spawning always continues with the new fallingFrequency; iff there were no settings or gameTime changed, balls, score and time are reset and a new tick and countdown from gameTime start; otherwise balls, score, time, tick and countdown are untouched; the paddle and the id counter never change |
| `Engine.GameService.StartSpawning` | src/pages/game/providers/game.service.ts:76-116 | subscribes the settings watch with the given settings, whose replay of the current settings starts a generator, and subscribes the physics tick |
| `Engine.GameService.StartTimer` | src/pages/game/providers/game.service.ts:134-143 | a countdown from the given duration starts, with no second emitted yet |
| `Engine.GameService.StopGame` | src/pages/game/providers/game.service.ts:145-150 | ends the tick, the generator and the countdown; time 0, no balls, score 0; the settings, the paddle, the id counter and the settings watch are untouched |
| `Engine.GameService.RestartGame` | src/pages/game/providers/game.service.ts:152-168 | balls, score and time are 0 afterwards; with settings, the watch, a generator with their fallingFrequency, the tick and a countdown from their gameTime are running; without settings nothing runs; the invariant holds |
| `Engine.GameService.Tick` | src/pages/game/providers/game.service.ts:94-115 | when the tick is subscribed, settings exist and the time is non-zero, the balls become the survivors of the moved balls and the score rises by exactly the number of caught moved balls; otherwise balls and score are unchanged; nothing else changes |
| `Engine.GameService.Spawn` | src/pages/game/providers/game.service.ts:122-130 | with a generator running, exactly one ball is appended at the end, with the old counter as id, the given x and y = 0, and the counter goes up by one; earlier balls are unchanged; ids stay unique and increasing |
| `Engine.GameService.CountdownSecond` | src/pages/game/providers/game.service.ts:134-142 | while the pipeline's value duration − elapsed is non-negative, the time becomes that value, which is entry `elapsed` of `Published(duration, 0)`, and one more second is counted; once it is negative, the game stops (time 0, no balls, score 0, tick, generator and countdown ended, paddle untouched) |
| `Engine.GameService.Key` | src/pages/game/providers/game.service.ts:181-188 | when the time is non-zero, the paddle moves by ±MoveSpeed and is clamped to [0, 400]; when it is 0, the paddle stays; only the paddle can change and the invariant holds |
| `SettingsForm.Forwarded` | src/pages/game/components/game-settings/game-settings.component.ts:33-41 | a form change is forwarded iff all four fields are present and non-zero; the forwarded record copies each field unchanged; one change yields at most one record |
| `SettingsForm.ZeroBlocksLikeNull` | src/pages/game/components/game-settings/game-settings.component.ts:34 | a field equal to 0 blocks forwarding just as a missing field does |
| `Validators.DigitRunEnd` | src/pages/game/validators/number.validator.ts:3 | the greedy scan for `\d+` stops at the end of the text or at the first non-digit, and every character it passes is a digit |
| `Validators.IntegerPatternTest` | src/pages/game/validators/number.validator.ts:12 | the anchored pattern matches iff the text is non-empty and made only of the digits 0-9 |
| `Validators.IntegerValidator` | src/pages/game/validators/number.validator.ts:5-17 | the result is null or exactly `{integer: true}`; null and the empty string give null; any other text gives null iff every character is a digit, leading zeros included |
| `Validators.NonDigitRejected` | src/pages/game/validators/number.validator.ts:12-14 | one non-digit character anywhere gives `{integer: true}` |
| `Validators.ValidatorExamples` | src/pages/game/validators/number.validator.ts:3-16 | "007" passes; "-1", "1.5", " 1" and "1e3" are rejected |

## Left out

- Real time and RxJS scheduling are not modelled: the periods of `interval` (the 50 ms tick, the one-second countdown, `fallingFrequency * 1000`), `throttleTime` on key presses, and exactly when `switchMap` and `withLatestFrom` emit. Each emission is an explicit step method instead. The generator's period is recorded but never used, and `GameTickInterval` is a constant only.
- `Math.random` is a parameter `x` of `Spawn`, with the range that `Math.floor(Math.random() * 480)` produces as its precondition.
- The document-level `keydown` listener is an `Arrow` argument to `Key`. Keys other than the two arrows never reach the handler, so they are not modelled.
- The observable getters (`getScore$`, `getPlayer$`, `getTime$`, `getBalls$`) only expose fields. The model's fields are read directly.
- Observers are not modelled, so neither is publication order: the source publishes the score once per caught ball during the filter, but `Tick` is one atomic step.
- JavaScript numbers are integers here. Fractions, NaN and floating-point rounding are not modelled. A truthy field is "present and non-zero".
- The validator takes a string or null. The number-to-string coercion that `RegExp.test` applies to a numeric value is not modelled.
- The status relay (`websocket.service.ts`) is not part of this model, nor is its `GameState` record. It polls score and time once a second and pairs them.
- The board component, the Angular module, the form builder service (its `Validators.required` and `Validators.min` are library code), the settings field labels and `ngOnDestroy` teardown are not part of this model.
