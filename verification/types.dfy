/** Values shared by every part of the Wave unit model: an optional value for
    collaborators that may be absent, a 2-D point, and the per-tick input
    snapshot a player reports. */
module WaveTypes {

  /** A collaborator answer that may be missing, such as the owning player
      returned by the game core. */
  datatype Option<+T> = None | Some(value: T)

  /** A point or displacement in the plane. */
  datatype Vec2 = Vec2(x: real, y: real)

  /** The part of a player's input snapshot the unit reads: the W, S, A and D
      keys and the left mouse button. The cursor position is only used for
      aiming, which is not part of this model. */
  datatype PlayerInput = PlayerInput(
    keyW: bool,
    keyS: bool,
    keyA: bool,
    keyD: bool,
    leftButton: bool)
}
