/**
 * The game engine: one object owning the settings, the paddle, the live balls, the score and the
 * countdown. Every emission of one of its periodic processes or of the keyboard is one atomic step.
 */
module Engine {

  import opened Wrappers
  import opened Types
  import opened Board
  import opened Physics

  /** The two keys the player controls react to. */
  datatype Arrow = Left | Right

  /** A running countdown: the round's duration and how many seconds its interval has emitted. */
  datatype Countdown = Countdown(duration: int, elapsed: nat)

  /** What the countdown pipeline (`map(sec => duration - sec)`, then `takeWhile(time >= 0)`) delivers. */
  datatype TimerEvent = Next(time: int) | Complete

  /** The countdown pipeline's output for interval emission number `sec`. */
  function TimerStep(duration: int, sec: nat): (e: TimerEvent)
    ensures e.Complete? <==> sec > duration
    ensures e.Next? ==> e.time >= 0 && e.time + sec == duration
  {
    var time := duration - sec;
    if time >= 0 then Next(time) else Complete
  }

  /** The times the countdown publishes from emission `sec` on, up to its completion. */
  function Published(duration: int, sec: nat): (times: seq<int>)
    ensures forall k :: 0 <= k < |times| ==> 0 <= times[k] <= duration - sec
    decreases duration + 1 - sec
  {
    match TimerStep(duration, sec)
    case Next(time) => [time] + Published(duration, sec + 1)
    case Complete => []
  }

  /** From emission `sec` the countdown publishes duration - sec, duration - sec - 1, ..., 0 and then completes. */
  lemma {:induction false} PublishedCountsDown(duration: int, sec: nat)
    ensures |Published(duration, sec)| == if duration - sec >= 0 then duration - sec + 1 else 0
    ensures forall k :: 0 <= k < |Published(duration, sec)| ==> Published(duration, sec)[k] == duration - sec - k
    decreases duration + 1 - sec
  {
    if duration - sec >= 0 {
      PublishedCountsDown(duration, sec + 1);
    }
  }

  /** A whole round's countdown: duration, duration - 1, ..., 0, completing on the next second. */
  lemma CountdownOfRound(duration: nat)
    ensures |Published(duration, 0)| == duration + 1
    ensures forall k :: 0 <= k <= duration ==> Published(duration, 0)[k] == duration - k
    ensures TimerStep(duration, duration + 1) == Complete
  {
    PublishedCountsDown(duration, 0);
  }

  /**
   * The ball generator the settings watch of `startSpawning` switches to when the settings stream
   * emits `value`; `captured` is the settings `startSpawning` was called with.
   */
  function GenerationFrequency(value: Option<GameSettings>, captured: GameSettings): (r: Option<int>)
    ensures value.None? ==> r.None?
    ensures value.Some? ==> r == Some(value.value.fallingFrequency)
  {
    match value
    case None => None
    case Some(v) =>
      if v.fallingFrequency != captured.fallingFrequency then Some(v.fallingFrequency)
      else Some(captured.fallingFrequency)
  }

  /** `setSettings` restarts the round when there were no settings or the game time changed. */
  function RestartsRound(prev: Option<GameSettings>, next: GameSettings): (restarts: bool)
    ensures prev.None? ==> restarts
    ensures prev.Some? && prev.value.gameTime != next.gameTime ==> restarts
    ensures prev.Some? && prev.value.gameTime == next.gameTime ==> !restarts
    ensures prev == Some(next) ==> !restarts
  {
    prev.None? || prev.value.gameTime != next.gameTime
  }

  /** `settings?.playerSpeed || 1`: the paddle step, falling back to 1 when missing or 0. */
  function MoveSpeed(settings: Option<GameSettings>): (speed: int)
    ensures speed != 0
    ensures settings.Some? && settings.value.playerSpeed != 0 ==> speed == settings.value.playerSpeed
    ensures settings.None? || settings.value.playerSpeed == 0 ==> speed == 1
  {
    if settings.Some? && settings.value.playerSpeed != 0 then settings.value.playerSpeed else 1
  }

  function Min(a: int, b: int): int { if a <= b then a else b }
  function Max(a: int, b: int): int { if a >= b then a else b }

  /** `Math.max(0, Math.min(newX, MAX_PLAYER_X))`: the nearest paddle position on the board. */
  function ClampToBoard(newX: int): (x: int)
    ensures 0 <= x <= MaxPlayerX
    ensures 0 <= newX <= MaxPlayerX ==> x == newX
    ensures newX < 0 ==> x == 0
    ensures newX > MaxPlayerX ==> x == MaxPlayerX
  {
    Max(0, Min(newX, MaxPlayerX))
  }

  /** The paddle position a key asks for, before clamping. */
  function Step(arrow: Arrow, current: int, speed: int): (requested: int)
    ensures arrow == Left ==> requested + speed == current
    ensures arrow == Right ==> requested - speed == current
  {
    if arrow == Left then current - speed else current + speed
  }

  /** The published time agrees with the countdown: 0 before its first second and when none runs. */
  predicate TimerAgrees(countdown: Option<Countdown>, timer: int) {
    match countdown
    case None => timer == 0
    case Some(c) =>
      (c.elapsed == 0 && timer == 0)
      || (0 < c.elapsed <= c.duration + 1 && timer == c.duration - (c.elapsed - 1))
  }

  /**
   * After `elapsed` seconds of a countdown the time shown is the last value the countdown pipeline
   * has published: entry `elapsed - 1` of `Published(duration, 0)`.
   */
  lemma TimerIsLastPublished(c: Countdown, timer: int)
    requires TimerAgrees(Some(c), timer) && c.elapsed > 0
    ensures c.elapsed - 1 < |Published(c.duration, 0)|
    ensures timer == Published(c.duration, 0)[c.elapsed - 1]
  {
    PublishedCountsDown(c.duration, 0);
  }

  class GameService {
    var settings: Option<GameSettings>
    var playerX: int
    var balls: seq<Ball>
    var score: int
    var timer: int
    var ballId: nat

    /** The settings watch of `startSpawning`, holding the settings it was started with. */
    var spawnWatch: Option<GameSettings>
    /** The live ball generator, by its period in seconds. */
    var generator: Option<int>
    /** Whether the physics interval is subscribed. */
    var ticking: bool
    /** The live countdown of `startTimer`. */
    var countdown: Option<Countdown>

    ghost predicate Valid()
      reads this
    {
      0 <= playerX <= MaxPlayerX
      && score >= 0
      && timer >= 0
      && BallsWellFormed(balls, ballId)
      && (spawnWatch.Some? <==> settings.Some?)
      && (generator.Some? ==> spawnWatch.Some?)
      && (ticking <==> countdown.Some?)
      && (countdown.Some? ==> settings.Some?)
      && TimerAgrees(countdown, timer)
    }

    constructor ()
      ensures Valid()
      ensures settings == None && playerX == InitialPlayerX && balls == [] && score == 0 && timer == 0 && ballId == 0
      ensures spawnWatch == None && generator == None && !ticking && countdown == None
    {
      settings := None;
      playerX := InitialPlayerX;
      balls := [];
      score := 0;
      timer := 0;
      ballId := 0;
      spawnWatch := None;
      generator := None;
      ticking := false;
      countdown := None;
    }

    /** Store the new settings; restart the round when there were none or the game time changed. */
    method SetSettings(newSettings: GameSettings)
      requires Valid()
      modifies this
      ensures Valid()
      ensures settings == Some(newSettings)
      ensures generator == Some(newSettings.fallingFrequency)
      ensures playerX == old(playerX) && ballId == old(ballId)
      ensures RestartsRound(old(settings), newSettings) ==>
                balls == [] && score == 0 && timer == 0
                && spawnWatch == Some(newSettings) && ticking && countdown == Some(Countdown(newSettings.gameTime, 0))
      ensures !RestartsRound(old(settings), newSettings) ==>
                balls == old(balls) && score == old(score) && timer == old(timer)
                && spawnWatch == old(spawnWatch) && ticking == old(ticking) && countdown == old(countdown)
    {
      var prevSettings := settings;
      settings := Some(newSettings);
      // The settings stream emits: a subscribed settings watch switches to a new generator.
      if spawnWatch.Some? {
        generator := GenerationFrequency(settings, spawnWatch.value);
      }
      if RestartsRound(prevSettings, newSettings) {
        RestartGame();
      }
    }

    /** Subscribe the settings watch and the physics interval for `current`. */
    method StartSpawning(current: GameSettings)
      modifies this`spawnWatch, this`generator, this`ticking
      ensures spawnWatch == Some(current) && ticking
      ensures generator == GenerationFrequency(settings, current)
    {
      spawnWatch := Some(current);
      // The settings stream replays its current value to the new watch.
      generator := GenerationFrequency(settings, current);
      ticking := true;
    }

    /** Subscribe a countdown from `duration`; its first emission comes a second later. */
    method StartTimer(duration: int)
      modifies this`countdown
      ensures countdown == Some(Countdown(duration, 0))
    {
      countdown := Some(Countdown(duration, 0));
    }

    /** `gameStop$` ends the tick, the generator and the countdown; time, balls and score are wiped. */
    method StopGame()
      modifies this
      ensures !ticking && generator == None && countdown == None
      ensures timer == 0 && balls == [] && score == 0
      ensures settings == old(settings) && playerX == old(playerX) && ballId == old(ballId)
      ensures spawnWatch == old(spawnWatch)
    {
      ticking, generator, countdown := false, None, None;
      timer := 0;
      balls := [];
      score := 0;
    }

    /** Cancel every process, wipe balls and score, and start a new round from the current settings. */
    method RestartGame()
      requires 0 <= playerX <= MaxPlayerX && TimerAgrees(countdown, timer)
      modifies this
      ensures Valid()
      ensures balls == [] && score == 0 && timer == 0
      ensures settings == old(settings) && playerX == old(playerX) && ballId == old(ballId)
      ensures settings.None? ==> spawnWatch == None && generator == None && !ticking && countdown == None
      ensures settings.Some? ==>
                spawnWatch == settings && generator == Some(settings.value.fallingFrequency)
                && ticking && countdown == Some(Countdown(settings.value.gameTime, 0))
    {
      // Unsubscribing the spawn subscription ends the settings watch, its generator and the tick.
      spawnWatch, generator, ticking := None, None, false;
      // `gameStop$` completes a running countdown, whose completion handler stops the game.
      if countdown.Some? {
        StopGame();
      }
      balls := [];
      score := 0;
      if settings.None? {
        return;
      }
      StartSpawning(settings.value);
      StartTimer(settings.value.gameTime);
    }

    /**
     * One emission of the physics interval: while a countdown shows a non-zero time, move every ball
     * down by the falling speed, count the caught ones and keep the ones that remain on the board.
     */
    method Tick()
      requires Valid()
      modifies this`balls, this`score
      ensures Valid()
      ensures old(ticking) && old(settings).Some? && old(timer) != 0 ==>
                balls == Survivors(Moved(old(balls), old(settings).value.fallingSpeed), playerX)
                && score == old(score) + CaughtCount(Moved(old(balls), old(settings).value.fallingSpeed), playerX)
      ensures !(old(ticking) && old(settings).Some? && old(timer) != 0) ==>
                balls == old(balls) && score == old(score)
    {
      if !ticking || settings.None? || timer == 0 {
        return;
      }
      var moved := Moved(balls, settings.value.fallingSpeed);
      var filtered: seq<Ball> := [];
      var i := 0;
      while i < |moved|
        invariant 0 <= i <= |moved|
        invariant filtered == Survivors(moved[..i], playerX)
        invariant score == old(score) + CaughtCount(moved[..i], playerX)
        modifies this`score
      {
        var ball := moved[i];
        var caught := DetectCollision(ball, playerX);
        if caught {
          score := score + 1;
        }
        if ball.y < OffBoardY && !caught {
          filtered := filtered + [ball];
        }
        assert moved[..i + 1] == moved[..i] + [ball];
        SurvivorsAppend(moved[..i], [ball], playerX);
        i := i + 1;
      }
      assert moved[..i] == moved;
      TickPreservesWellFormed(balls, settings.value.fallingSpeed, playerX, ballId);
      balls := filtered;
    }

    /** One emission of the ball generator: append a ball at `x` on the top edge with the next id. */
    method Spawn(x: int)
      requires Valid()
      requires 0 <= x < SpawnRange
      modifies this`balls, this`ballId
      ensures Valid()
      ensures old(generator).Some? ==> balls == old(balls) + [Ball(old(ballId), x, 0)] && ballId == old(ballId) + 1
      ensures old(generator).None? ==> balls == old(balls) && ballId == old(ballId)
    {
      if generator.None? {
        return;
      }
      SpawnPreservesWellFormed(balls, ballId, x);
      var newBall := Ball(ballId, x, 0);
      ballId := ballId + 1;
      balls := balls + [newBall];
    }

    /** One second of the countdown: publish the next time, or complete and stop the game. */
    method CountdownSecond()
      requires Valid()
      modifies this
      ensures Valid()
      ensures old(countdown).None? ==> unchanged(this)
      ensures old(countdown).Some? && TimerStep(old(countdown).value.duration, old(countdown).value.elapsed).Next? ==>
                timer == TimerStep(old(countdown).value.duration, old(countdown).value.elapsed).time
                && countdown == Some(Countdown(old(countdown).value.duration, old(countdown).value.elapsed + 1))
                && balls == old(balls) && score == old(score) && ticking == old(ticking) && generator == old(generator)
                && old(countdown).value.elapsed < |Published(old(countdown).value.duration, 0)|
                && timer == Published(old(countdown).value.duration, 0)[old(countdown).value.elapsed]
      ensures old(countdown).Some? && TimerStep(old(countdown).value.duration, old(countdown).value.elapsed).Complete? ==>
                timer == 0 && balls == [] && score == 0 && countdown == None && !ticking && generator == None
      ensures settings == old(settings) && playerX == old(playerX) && ballId == old(ballId) && spawnWatch == old(spawnWatch)
    {
      if countdown.None? {
        return;
      }
      var c := countdown.value;
      match TimerStep(c.duration, c.elapsed)
      case Next(time) =>
        timer := time;
        countdown := Some(Countdown(c.duration, c.elapsed + 1));
        TimerIsLastPublished(countdown.value, timer);
      case Complete =>
        StopGame();
    }

    /** One arrow key press: while the time is not 0, move the paddle by its speed, clamped to the board. */
    method Key(arrow: Arrow)
      requires Valid()
      modifies this`playerX
      ensures Valid()
      ensures old(timer) != 0 ==> playerX == ClampToBoard(Step(arrow, old(playerX), MoveSpeed(settings)))
      ensures old(timer) == 0 ==> playerX == old(playerX)
    {
      if timer != 0 {
        var speed := MoveSpeed(settings);
        var newX := Step(arrow, playerX, speed);
        playerX := ClampToBoard(newX);
      }
    }
  }
}
