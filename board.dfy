/** Fixed geometry of the game board, in pixels, and the physics tick period, in milliseconds. */
module Board {

  const BoardWidth: int := 500
  const BoardHeight: int := 600
  const PlayerWidth: int := 100
  const BallHeight: int := 20
  const BallWidth: int := 20

  /** Right-most position of the paddle's left edge. */
  const MaxPlayerX: int := BoardWidth - PlayerWidth

  /** The paddle starts in the middle of its range. */
  const InitialPlayerX: int := MaxPlayerX / 2

  const GameTickInterval: int := 50

  /** Width of the range a new ball's x is drawn from: [0, SpawnRange). */
  const SpawnRange: int := BoardWidth - BallWidth

  /** The numbers every rule of the game is built from. */
  lemma BoardGeometry()
    ensures MaxPlayerX == 400
    ensures InitialPlayerX == 200 && 0 <= InitialPlayerX <= MaxPlayerX
    ensures BoardHeight - BallHeight == 580
    ensures BoardHeight - BallHeight - BallHeight == 560
    ensures SpawnRange == 480 && SpawnRange > 0
  {
  }
}
