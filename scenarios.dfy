/** Rounds played through the engine's contracts alone, showing what the code does step by step. */
module Scenarios {

  import opened Wrappers
  import opened Types
  import opened Physics
  import opened Engine

  /** Falling speed 20, a ball every second, paddle speed 10, a 5-second round: the first second. */
  method FirstSecondScenario()
  {
    var game := new GameService();
    game.SetSettings(GameSettings(fallingSpeed := 20, fallingFrequency := 1, playerSpeed := 10, gameTime := 5));
    assert game.timer == 0 && game.ticking && game.generator == Some(1);

    // Until the countdown's first second the time is 0: keys do nothing.
    game.Key(Left);
    assert game.playerX == 200;

    game.CountdownSecond();
    assert game.timer == 5;
    game.Key(Left);
    assert game.playerX == 190;

    game.Spawn(300);
    assert game.balls == [Ball(0, 300, 0)];
    game.Tick();
    assert Moved([Ball(0, 300, 0)], 20) == [Ball(0, 300, 20)];
    assert Survivors([Ball(0, 300, 20)], 190) == [Ball(0, 300, 20)];
    assert CaughtCount([Ball(0, 300, 20)], 190) == 0;
    assert game.balls == [Ball(0, 300, 20)] && game.score == 0;
  }

  /** A 1-second round ends on its third second; the paddle is not re-centred. */
  method RoundEndScenario()
  {
    var game := new GameService();
    game.SetSettings(GameSettings(fallingSpeed := 20, fallingFrequency := 1, playerSpeed := 10, gameTime := 1));
    game.CountdownSecond();
    assert game.timer == 1;
    game.Key(Right);
    assert game.playerX == 210;
    game.Spawn(0);
    game.CountdownSecond();
    assert game.timer == 0 && game.ticking;

    // The next second completes the countdown: balls, score and time are wiped, the paddle stays.
    game.CountdownSecond();
    assert game.timer == 0 && game.balls == [] && game.score == 0 && game.playerX == 210;
    assert !game.ticking && game.generator == None && game.spawnWatch.Some?;
  }

  /** After a round has ended, new settings with the same game time spawn balls that never fall. */
  method AfterRoundScenario()
  {
    var game := new GameService();
    game.SetSettings(GameSettings(fallingSpeed := 20, fallingFrequency := 1, playerSpeed := 10, gameTime := 0));
    game.CountdownSecond();
    game.CountdownSecond();
    assert !game.ticking && game.generator == None;

    game.SetSettings(GameSettings(fallingSpeed := 20, fallingFrequency := 2, playerSpeed := 10, gameTime := 0));
    assert game.generator == Some(2) && !game.ticking;
    game.Spawn(10);
    game.Tick();
    assert game.balls == [Ball(0, 10, 0)];
  }
}
