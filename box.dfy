/**
 * The shared game entity of the Android client
 * (NativeActivityTest/app/src/main/java/io/snower/game/common/Box.kt).
 * Assigning the transform or the velocities through the property setters
 * marks the box dirty so that the physics binding pushes the change to the
 * native engine on its next step.
 */
module Boxes {
  import opened Geometry
  import opened Wrappers

  /** Textures.METAL_ID, the texture a box gets when none is given. */
  const METAL_ID := 3

  /** The mutable physical state of a box. */
  datatype Motion = Motion(position: Vec3, rotation: Quat, linearVelocity: Vec3, angularVelocity: Vec3)

  class Box {
    const id: int
    var position: Vec3
    const size: Vec3          // for a sphere, size.x is the radius
    var linearVelocity: Vec3
    var angularVelocity: Vec3
    var rotation: Quat
    const mass: real
    var theColor: Color
    var affectedByPhysics: bool
    var inGround: bool
    const textureId: int
    const textureMultiplier: real
    const bounceMultiplier: real
    const isSphere: bool
    const isCharacter: bool
    var shouldTransmit: bool

    // physics metadata
    var shouldCommitTransformChanges: bool
    var shouldCommitMomentumChanges: bool
    var physicsHandle: Option<int>   // the native body pointer, once registered
    // renderer metadata
    var rendererHandle: object?

    /** The box as Box(...) builds it; every argument has the source's default. */
    constructor (id: int := 0, position: Vec3 := ORIGIN, size: Vec3 := ORIGIN,
                 linearVelocity: Vec3 := ORIGIN, angularVelocity: Vec3 := ORIGIN,
                 rotation: Quat := IDENTITY, mass: real := 0.0, theColor: Color := WHITE,
                 affectedByPhysics: bool := true, inGround: bool := false, textureId: int := METAL_ID,
                 textureMultiplier: real := 1.0, bounceMultiplier: real := 0.0,
                 isSphere: bool := false, isCharacter: bool := false, shouldTransmit: bool := true)
      ensures this.id == id && this.size == size && this.mass == mass && this.theColor == theColor
      ensures State() == Motion(position, rotation, linearVelocity, angularVelocity)
      ensures this.affectedByPhysics == affectedByPhysics && this.inGround == inGround
      ensures this.textureId == textureId && this.textureMultiplier == textureMultiplier
      ensures this.bounceMultiplier == bounceMultiplier && this.shouldTransmit == shouldTransmit
      ensures this.isSphere == isSphere && this.isCharacter == isCharacter
      ensures shouldCommitTransformChanges && shouldCommitMomentumChanges
      ensures physicsHandle == None && rendererHandle == null
    {
      this.id := id;
      this.position := position;
      this.size := size;
      this.linearVelocity := linearVelocity;
      this.angularVelocity := angularVelocity;
      this.rotation := rotation;
      this.mass := mass;
      this.theColor := theColor;
      this.affectedByPhysics := affectedByPhysics;
      this.inGround := inGround;
      this.textureId := textureId;
      this.textureMultiplier := textureMultiplier;
      this.bounceMultiplier := bounceMultiplier;
      this.isSphere := isSphere;
      this.isCharacter := isCharacter;
      this.shouldTransmit := shouldTransmit;
      shouldCommitTransformChanges := true;
      shouldCommitMomentumChanges := true;
      physicsHandle := None;
      rendererHandle := null;
    }

    function State(): Motion
      reads this
    {
      Motion(position, rotation, linearVelocity, angularVelocity)
    }

    /** The position setter: stores the value and marks the transform dirty. */
    method SetPosition(value: Vec3)
      modifies this
      ensures State() == old(State()).(position := value)
      ensures shouldCommitTransformChanges
      ensures shouldCommitMomentumChanges == old(shouldCommitMomentumChanges)
      ensures physicsHandle == old(physicsHandle) && rendererHandle == old(rendererHandle)
      ensures theColor == old(theColor) && inGround == old(inGround)
    {
      shouldCommitTransformChanges := true;
      position := value;
    }

    /** The rotation setter: stores the value and marks the transform dirty. */
    method SetRotation(value: Quat)
      modifies this
      ensures State() == old(State()).(rotation := value)
      ensures shouldCommitTransformChanges
      ensures shouldCommitMomentumChanges == old(shouldCommitMomentumChanges)
      ensures physicsHandle == old(physicsHandle) && rendererHandle == old(rendererHandle)
      ensures theColor == old(theColor) && inGround == old(inGround)
    {
      shouldCommitTransformChanges := true;
      rotation := value;
    }

    /** The linear-velocity setter: stores the value and marks the momentum dirty. */
    method SetLinearVelocity(value: Vec3)
      modifies this
      ensures State() == old(State()).(linearVelocity := value)
      ensures shouldCommitMomentumChanges
      ensures shouldCommitTransformChanges == old(shouldCommitTransformChanges)
      ensures physicsHandle == old(physicsHandle) && rendererHandle == old(rendererHandle)
      ensures theColor == old(theColor) && inGround == old(inGround)
    {
      shouldCommitMomentumChanges := true;
      linearVelocity := value;
    }

    /** The angular-velocity setter: stores the value and marks the momentum dirty. */
    method SetAngularVelocity(value: Vec3)
      modifies this
      ensures State() == old(State()).(angularVelocity := value)
      ensures shouldCommitMomentumChanges
      ensures shouldCommitTransformChanges == old(shouldCommitTransformChanges)
      ensures physicsHandle == old(physicsHandle) && rendererHandle == old(rendererHandle)
      ensures theColor == old(theColor) && inGround == old(inGround)
    {
      shouldCommitMomentumChanges := true;
      angularVelocity := value;
    }

    /** applyForce: adds force / mass to the linear velocity and marks the momentum dirty. */
    method ApplyForce(force: Vec3)
      requires mass != 0.0
      modifies this
      ensures linearVelocity == old(linearVelocity).Plus(force.Scaled(1.0 / mass))
      ensures position == old(position) && rotation == old(rotation)
      ensures angularVelocity == old(angularVelocity)
      ensures shouldCommitMomentumChanges
      ensures shouldCommitTransformChanges == old(shouldCommitTransformChanges)
      ensures theColor == old(theColor) && affectedByPhysics == old(affectedByPhysics) && inGround == old(inGround)
      ensures physicsHandle == old(physicsHandle) && rendererHandle == old(rendererHandle)
    {
      var forceCopy := force.Scaled(1.0 / mass);
      linearVelocity := linearVelocity.Plus(forceCopy);
      shouldCommitMomentumChanges := true;
    }
  }
}
