/** The settings panel's reaction to a form change: forward the four values, or nothing. */
module SettingsForm {

  import opened Wrappers
  import opened Types

  /** A form value: each field is a number or missing (`null` / `undefined`). */
  datatype FormValue = FormValue(
    fallingSpeed: Option<int>,
    fallingFrequency: Option<int>,
    playerSpeed: Option<int>,
    gameTime: Option<int>)

  /** JavaScript's `!!v` on a number field: missing and 0 are false. */
  predicate Truthy(v: Option<int>) {
    v.Some? && v.value != 0
  }

  /**
   * The settings handed to `setSettings` for one form change, or None when it is not called.
   * Being an Option, one change yields at most one call.
   */
  function Forwarded(value: FormValue): (r: Option<GameSettings>)
    ensures r.Some? <==> (value.gameTime.Some? && value.gameTime.value != 0
                          && value.playerSpeed.Some? && value.playerSpeed.value != 0
                          && value.fallingSpeed.Some? && value.fallingSpeed.value != 0
                          && value.fallingFrequency.Some? && value.fallingFrequency.value != 0)
    ensures r.Some? ==> (Some(r.value.fallingSpeed) == value.fallingSpeed
                         && Some(r.value.fallingFrequency) == value.fallingFrequency
                         && Some(r.value.playerSpeed) == value.playerSpeed
                         && Some(r.value.gameTime) == value.gameTime)
  {
    if Truthy(value.gameTime) && Truthy(value.playerSpeed) && Truthy(value.fallingSpeed) && Truthy(value.fallingFrequency) then
      Some(GameSettings(
        fallingSpeed := value.fallingSpeed.value,
        fallingFrequency := value.fallingFrequency.value,
        playerSpeed := value.playerSpeed.value,
        gameTime := value.gameTime.value))
    else
      None
  }

  /** A zero in any field blocks forwarding exactly as a missing value does. */
  lemma ZeroBlocksLikeNull(value: FormValue)
    requires value.gameTime == Some(0) || value.playerSpeed == Some(0)
          || value.fallingSpeed == Some(0) || value.fallingFrequency == Some(0)
    ensures Forwarded(value) == None
  {
  }
}
