/**
 * The message classes exchanged by the newer server
 * (src/main/kotlin/com/peinbol/server/Server.kt) and its two clients
 * (src/main/kotlin/com/peinbol/client/Client.kt and the Android
 * MainActivity.kt), as values.  Their binary codec is not part of this
 * model; the codec in module Messages is the older, four-message one.
 * Kotlin data classes compare by value, which is what Dafny's datatype
 * equality gives.
 */
module Protocol {
  import opened Geometry

  /** Messages.InputState: the keys a client holds and its camera angles. */
  datatype Input = Input(forward: bool, backwards: bool, left: bool, right: bool,
                         fire: bool, fire2: bool, jump: bool, walk: bool,
                         cameraX: real, cameraY: real)

  /** Messages.InputState() with every default. */
  const NO_INPUT := Input(false, false, false, false, false, false, false, false, 0.0, 0.0)

  /** The fields of Messages.BoxAdded: everything a client needs to build the box. */
  datatype BoxData = BoxData(id: int, position: Vec3, size: Vec3,
                             linearVelocity: Vec3, angularVelocity: Vec3, rotation: Quat,
                             mass: real, affectedByPhysics: bool, textureId: int,
                             textureMultiplier: real, bounceMultiplier: real, color: Color,
                             isSphere: bool, isCharacter: bool)

  datatype Message =
    | ConnectionInfo(name: string)
    | InputState(input: Input)
    | Spawn(boxId: int)
    | BoxAdded(data: BoxData)
    | BoxUpdateMotion(id: int, position: Vec3, linearVelocity: Vec3,
                      angularVelocity: Vec3, rotation: Quat)
    | RemoveBox(boxId: int)
    | SetHealth(health: int)
    | NotifyHit(emitterBoxId: int, victimBoxId: int)
    | ServerMessage(message: string)
}
