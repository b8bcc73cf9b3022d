/** Values shared by every component: poses, tags, optional references and
    the engine's rounding helper. Unity game objects are reduced to a pose
    and an active flag. */
module Engine {

  datatype Option<T> = None | Some(value: T)

  /** A position; coordinates are exact reals (float rounding is not modelled). */
  datatype Vec3 = Vec3(x: real, y: real, z: real)

  /** A rotation, kept as its four components and never computed with. */
  datatype Quat = Quat(x: real, y: real, z: real, w: real)

  const IdentityRotation: Quat := Quat(0.0, 0.0, 0.0, 1.0)

  /** The transform of a game object. */
  datatype Pose = Pose(position: Vec3, rotation: Quat)

  /** A game object as the core sees it: its transform and `activeSelf`. */
  datatype GameObj = GameObj(pose: Pose, active: bool)

  /** The closed set of tags compared by the triggers; `Other` stands for
      every object tagged neither "Player" nor "Ghost". */
  datatype Tag = Player | Ghost | Other

  /** `Mathf.CeilToInt`: the least integer not below `t`. */
  function CeilToInt(t: real): (c: int)
    ensures t <= c as real < t + 1.0
  {
    -((-t).Floor)
  }
}
