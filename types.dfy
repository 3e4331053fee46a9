/** The records shared by the settings form and the game engine. */
module Types {

  /** The four tunable parameters of a round. JavaScript numbers are modelled as integers. */
  datatype GameSettings = GameSettings(fallingSpeed: int, fallingFrequency: int, playerSpeed: int, gameTime: int)
}
