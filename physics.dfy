/**
 * What the gameplay scripts hand to the physics engine. Forces and impulses
 * are recorded as commands rather than simulated.
 */
module Physics {
  import opened Geometry

  /** ForceMode2D: a continuous force or an instantaneous impulse. */
  datatype ForceMode = Force | Impulse

  /** One Rigidbody2D.AddForce call. */
  datatype ForceCommand = AddForce(force: Vec2, mode: ForceMode)

  /** RigidbodyConstraints2D as its three flags. */
  datatype Constraints = Constraints(freezePositionX: bool, freezePositionY: bool, freezeRotation: bool)

  /** FreezeRotation alone, what a player's body gets when it wakes. */
  const FREEZE_ROTATION := Constraints(false, false, true)

  /** FreezePosition | FreezeRotation, what a stun imposes. */
  const FREEZE_ALL := Constraints(true, true, true)
}
