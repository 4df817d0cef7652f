/**
 * The Android game client's game logic
 * (NativeActivityTest/app/src/main/java/io/snower/game/client/MainActivity.kt):
 * the box map keyed by id, kept in step with the Bullet physics binding
 * and the world renderer; the looping walk sound of every character box;
 * the own box id; and the last input state sent.
 *
 * The audio manager is outside the model: its registerSource and
 * unregisterSource calls are recorded in `audio`.  What the client sends
 * is recorded in `sent`.  The touch controls are read as a `Reading`,
 * a native body pointer the physics binding creates is an argument, and
 * Vector3f.length() is the function `speedOf`.
 */
module AndroidClient {
  import opened Wrappers
  import opened Geometry
  import opened Protocol
  import Boxes
  import BulletPhysics
  import WorldRendering
  import Audio
  import UiRegistry
  import Chat
  import Util
  import Seqs
  import Controls

  // Audios
  const WALK := 1
  const HIT := 2
  const SHOOT := 3
  const SPLASH := 4

  const EYE_HEIGHT := 0.8
  const SILENT_BELOW := 0.5
  const VOLUME_FACTOR := 0.4

  const HEALTH_UI: UiRegistry.ClassName := "HealthUI"
  const CHAT_UI: UiRegistry.ClassName := "ChatUI"

  /** The health bar; only its `health` field is touched by the client. */
  class HealthUI {
    var health: int

    constructor ()
      ensures health == 100
    {
      health := 100;
    }
  }

  /**
   * The audio manager calls the client makes.  The source recorded is the
   * desktop Audio.AudioSource.  The Android AudioSource.kt also carries a
   * `millis` duration, which every source the client builds leaves at its
   * default 0, and a `startMillis` field that only the Android audio
   * manager sets; neither is part of this model.
   */
  datatype AudioCall = RegisterSource(source: Audio.AudioSource) | UnregisterSource(source: Audio.AudioSource)

  /** What update() reads from the touch controls in one frame. */
  datatype Reading = Reading(rotationX: real, rotationY: real,
                             forward: bool, backwards: bool, left: bool, right: bool)

  /** What update() reads from the controls: the two rotation deltas and the four direction flags. */
  function ReadingOf(touch: Controls.Touch, moving: Controls.Direction): (r: Reading)
    ensures r.rotationX == touch.deltaRotX && r.rotationY == touch.deltaRotY
    ensures r.forward == moving.forward && r.backwards == moving.backwards
    ensures r.left == moving.left && r.right == moving.right
  {
    Reading(touch.deltaRotX, touch.deltaRotY, moving.forward, moving.backwards, moving.left, moving.right)
  }

  datatype Error = NullPointer   // a `!!` on a UI element that is not registered

  /** The input state update() builds: the four directions and the camera; firing, jumping and walking stay off. */
  function InputOf(r: Reading, cameraX: real, cameraY: real): Input
  {
    Input(r.forward, r.backwards, r.left, r.right, false, false, false, false, cameraX, cameraY)
  }

  /** The walk sound's volume at a speed: silent below 0.5, then 0.4 per unit of speed up to 1. */
  function VolumeFor(speed: real): real
  {
    if speed < SILENT_BELOW then 0.0
    else if speed * VOLUME_FACTOR <= 1.0 then speed * VOLUME_FACTOR
    else 1.0
  }

  /** The walk sound's pitch at a speed: unchanged while silent, otherwise 0.4 per unit of speed clamped to [0.5, 1]. */
  function PitchFor(speed: real, pitch: real): real
  {
    if speed < SILENT_BELOW then pitch else Util.CoerceIn(speed * VOLUME_FACTOR, 0.5, 1.0)
  }

  /** A moving character is heard at 0.2 to 1, louder when faster, and full from speed 2.5 on; a slow one is silent. */
  lemma VolumeShape(speed: real, faster: real)
    ensures VolumeFor(speed) == 0.0 <==> speed < SILENT_BELOW
    ensures speed >= SILENT_BELOW ==> 0.2 <= VolumeFor(speed) <= 1.0
    ensures speed >= 2.5 ==> VolumeFor(speed) == 1.0
    ensures SILENT_BELOW <= speed <= faster ==> VolumeFor(speed) <= VolumeFor(faster)
  {
  }

  /** While heard, the pitch stays within [0.5, 1]. */
  lemma PitchShape(speed: real, pitch: real)
    ensures speed >= SILENT_BELOW ==> 0.5 <= PitchFor(speed, pitch) <= 1.0
    ensures speed < SILENT_BELOW ==> PitchFor(speed, pitch) == pitch
  {
    if speed >= SILENT_BELOW {
      var p := Util.CoerceIn(speed * VOLUME_FACTOR, 0.5, 1.0);
    }
  }

  /** Every box has its own sound source. */
  ghost predicate SourcesDistinct(m: map<Boxes.Box, Audio.AudioSource>)
  {
    forall b1, b2 :: b1 in m && b2 in m && b1 != b2 ==> m[b1] != m[b2]
  }

  /** `b` is the box the map holds under its id. */
  predicate Keyed(boxes: map<int, Boxes.Box>, b: Boxes.Box)
  {
    b.id in boxes && boxes[b.id] == b
  }

  /** Exactly the known character boxes have a sound source, each its own. */
  ghost predicate SoundsMatch(boxes: map<int, Boxes.Box>, sources: map<Boxes.Box, Audio.AudioSource>)
  {
    (forall b :: b in sources ==> Keyed(boxes, b) && b.isCharacter)
    && (forall id :: id in boxes && boxes[id].isCharacter ==> boxes[id] in sources)
    && SourcesDistinct(sources)
  }

  /** addBox keeps the sounds matched when a new character brings a source no other box has. */
  lemma SoundsAfterAddCharacter(boxes: map<int, Boxes.Box>, sources: map<Boxes.Box, Audio.AudioSource>,
                                box: Boxes.Box, source: Audio.AudioSource)
    requires SoundsMatch(boxes, sources) && box.id !in boxes && box.isCharacter && source !in sources.Values
    ensures box !in sources && SoundsMatch(boxes[box.id := box], sources[box := source])
  {
    assert box !in sources;
  }

  /** addBox keeps the sounds matched when the new box is not a character. */
  lemma SoundsAfterAddOther(boxes: map<int, Boxes.Box>, sources: map<Boxes.Box, Audio.AudioSource>, box: Boxes.Box)
    requires SoundsMatch(boxes, sources) && box.id !in boxes && !box.isCharacter
    ensures box !in sources && SoundsMatch(boxes[box.id := box], sources)
  {
    assert box !in sources;
  }

  /** removeBox keeps the sounds matched: a character's source goes with it. */
  lemma SoundsAfterRemove(boxes: map<int, Boxes.Box>, sources: map<Boxes.Box, Audio.AudioSource>, box: Boxes.Box)
    requires SoundsMatch(boxes, sources) && (forall id :: id in boxes ==> boxes[id].id == id) && Keyed(boxes, box)
    ensures box.isCharacter ==> box in sources && SoundsMatch(boxes - {box.id}, sources - {box})
    ensures !box.isCharacter ==> box !in sources && SoundsMatch(boxes - {box.id}, sources)
  {
  }

  class Client {
    var boxes: map<int, Boxes.Box>
    var playerSoundSources: map<Boxes.Box, Audio.AudioSource>
    var myBoxId: int
    var lastSentInputState: Input
    var sent: seq<Message>
    var audio: seq<AudioCall>
    const physics: BulletPhysics.BulletPhysicsNativeImpl
    const worldRenderer: WorldRendering.WorldRenderer
    const uiRenderer: UiRegistry.NuklearUIRenderer
    const healthUI: HealthUI
    const chatUI: Chat.AndroidChatUI
    const controls: Controls.AndroidControls
    const speedOf: Vec3 -> real

    /**
     * Boxes are keyed by their id; physics holds exactly the known boxes;
     * the renderer draws known boxes only; and exactly the known character
     * boxes have a sound source, each its own.
     */
    ghost predicate Valid()
      reads this`boxes, this`playerSoundSources, physics, physics.boxes, worldRenderer, worldRenderer.boxes
    {
      physics.Valid() && worldRenderer.Valid()
      && (forall id :: id in boxes ==> boxes[id].id == id)
      && (forall b :: b in physics.boxes ==> Keyed(boxes, b))
      && (forall id :: id in boxes ==> boxes[id] in physics.boxes)
      && (forall b :: b in worldRenderer.boxes ==> Keyed(boxes, b))
      && SoundsMatch(boxes, playerSoundSources)
    }

    constructor (physics: BulletPhysics.BulletPhysicsNativeImpl, worldRenderer: WorldRendering.WorldRenderer,
                 uiRenderer: UiRegistry.NuklearUIRenderer, healthUI: HealthUI, chatUI: Chat.AndroidChatUI,
                 controls: Controls.AndroidControls, speedOf: Vec3 -> real)
      requires physics.Valid() && physics.boxes == [] && worldRenderer.Valid() && worldRenderer.boxes == []
      ensures Valid() && this.physics == physics && this.worldRenderer == worldRenderer
      ensures this.uiRenderer == uiRenderer && this.healthUI == healthUI && this.chatUI == chatUI
      ensures this.controls == controls && this.speedOf == speedOf
      ensures boxes == map[] && playerSoundSources == map[] && myBoxId == -1
      ensures lastSentInputState == NO_INPUT && sent == [] && audio == []
    {
      this.physics := physics;
      this.worldRenderer := worldRenderer;
      this.uiRenderer := uiRenderer;
      this.healthUI := healthUI;
      this.chatUI := chatUI;
      this.controls := controls;
      this.speedOf := speedOf;
      boxes := map[];
      playerSoundSources := map[];
      myBoxId := -1;
      lastSentInputState := NO_INPUT;
      sent := [];
      audio := [];
    }

    /** The map, physics and renderer part of addBox, for a box whose id is new. */
    method Enter(box: Boxes.Box, created: int)
      requires Valid() && box.id !in boxes
      modifies this, physics, worldRenderer, box
      ensures boxes == old(boxes)[box.id := box] && playerSoundSources == old(playerSoundSources)
      ensures physics.Valid() && physics.boxes == old(physics.boxes) + [box] && box.physicsHandle == Some(created)
      ensures worldRenderer.Valid() && worldRenderer.boxes == old(worldRenderer.boxes) + [box]
      ensures box.State() == old(box.State()) && box.theColor == old(box.theColor)
      ensures box.affectedByPhysics == old(box.affectedByPhysics)
      ensures audio == old(audio) && sent == old(sent) && myBoxId == old(myBoxId)
      ensures lastSentInputState == old(lastSentInputState)
      ensures worldRenderer.cameraRotX == old(worldRenderer.cameraRotX)
      ensures worldRenderer.cameraRotY == old(worldRenderer.cameraRotY)
      ensures forall id :: id in boxes ==> boxes[id].id == id
      ensures forall b :: b in physics.boxes ==> Keyed(boxes, b)
      ensures forall id :: id in boxes ==> boxes[id] in physics.boxes
      ensures forall b :: b in worldRenderer.boxes ==> Keyed(boxes, b)
    {
      boxes := boxes[box.id := box];
      physics.Register(box, created);
      worldRenderer.AddBox(box);
    }

    /**
     * addBox: a box whose id is new enters the map, physics and the
     * renderer together; a character also gets a looping WALK source, and
     * a sphere plays a one-shot SHOOT.  A known id changes nothing.
     */
    method AddBox(box: Boxes.Box, created: int)
      requires Valid()
      modifies this, physics, worldRenderer, box
      ensures Valid()
      ensures box.id in old(boxes) ==>
        (boxes == old(boxes) && playerSoundSources == old(playerSoundSources) && audio == old(audio)
         && physics.boxes == old(physics.boxes) && worldRenderer.boxes == old(worldRenderer.boxes))
      ensures box.id !in old(boxes) ==>
        (boxes == old(boxes)[box.id := box]
         && physics.boxes == old(physics.boxes) + [box] && worldRenderer.boxes == old(worldRenderer.boxes) + [box])
      ensures box.id !in old(boxes) && box.isCharacter ==>
        (box in playerSoundSources && fresh(playerSoundSources[box])
         && playerSoundSources == old(playerSoundSources)[box := playerSoundSources[box]]
         && audio == old(audio) + [RegisterSource(playerSoundSources[box])]
         && playerSoundSources[box].audioId == WALK && playerSoundSources[box].loop
         && playerSoundSources[box].position == box.position && playerSoundSources[box].volume == 1.0)
      ensures box.id !in old(boxes) && !box.isCharacter && box.isSphere ==>
        (playerSoundSources == old(playerSoundSources) && |audio| == |old(audio)| + 1
         && audio[..|old(audio)|] == old(audio) && fresh(audio[|old(audio)|].source)
         && audio[|old(audio)|].RegisterSource? && audio[|old(audio)|].source.audioId == SHOOT
         && !audio[|old(audio)|].source.loop && audio[|old(audio)|].source.volume == 0.5)
      ensures box.id !in old(boxes) && !box.isCharacter && !box.isSphere ==>
        playerSoundSources == old(playerSoundSources) && audio == old(audio)
      ensures sent == old(sent) && myBoxId == old(myBoxId) && lastSentInputState == old(lastSentInputState)
      ensures worldRenderer.cameraRotX == old(worldRenderer.cameraRotX)
      ensures worldRenderer.cameraRotY == old(worldRenderer.cameraRotY)
      ensures box.State() == old(box.State()) && box.theColor == old(box.theColor)
      ensures box.affectedByPhysics == old(box.affectedByPhysics)
    {
      if box.id in boxes {
        return;
      }
      ghost var boxesBefore, sourcesBefore := boxes, playerSoundSources;
      Enter(box, created);
      if !box.isCharacter {
        SoundsAfterAddOther(boxesBefore, sourcesBefore, box);
      }
      if box.isCharacter {
        var source := new Audio.AudioSource(box.position, 1.0, WALK, 3.0, true);
        SoundsAfterAddCharacter(boxesBefore, sourcesBefore, box, source);
        playerSoundSources := playerSoundSources[box := source];
        audio := audio + [RegisterSource(source)];
      } else if box.isSphere {
        var source := new Audio.AudioSource(box.position, 0.5, SHOOT, 2.0, false);
        audio := audio + [RegisterSource(source)];
      }
    }

    /**
     * The map, physics and renderer part of removeBox, for a known box,
     * together with the sound sources that are left once its own is dropped.
     */
    method Leave(box: Boxes.Box, sources: map<Boxes.Box, Audio.AudioSource>)
      requires Valid() && Keyed(boxes, box) && SoundsMatch(boxes - {box.id}, sources)
      modifies this, physics, worldRenderer, box
      ensures Valid()
      ensures boxes == old(boxes) - {box.id} && playerSoundSources == sources
      ensures physics.boxes == Seqs.Without(old(physics.boxes), box)
      ensures worldRenderer.boxes == Seqs.Without(old(worldRenderer.boxes), box)
      ensures box !in physics.boxes && box !in worldRenderer.boxes
      ensures box.State() == old(box.State())
      ensures audio == old(audio) && sent == old(sent) && myBoxId == old(myBoxId)
      ensures lastSentInputState == old(lastSentInputState)
      ensures worldRenderer.cameraRotX == old(worldRenderer.cameraRotX)
      ensures worldRenderer.cameraRotY == old(worldRenderer.cameraRotY)
    {
      ghost var physicsBefore, drawnBefore := physics.boxes, worldRenderer.boxes;
      boxes, playerSoundSources := boxes - {box.id}, sources;
      physics.Unregister(box);
      Seqs.WithoutMembership(physicsBefore, box, box);
      worldRenderer.RemoveBox(box);
      assert physics.Valid();
      forall b | b in physics.boxes
        ensures Keyed(boxes, b)
      {
        Seqs.WithoutMembership(physicsBefore, box, b);
      }
      forall id | id in boxes
        ensures boxes[id] in physics.boxes
      {
        Seqs.WithoutMembership(physicsBefore, box, boxes[id]);
      }
      forall b | b in worldRenderer.boxes
        ensures Keyed(boxes, b)
      {
        Seqs.WithoutMembership(drawnBefore, box, b);
      }
    }

    /**
     * removeBox: a known box leaves the map, physics and the renderer; a
     * character's source is unregistered and forgotten, and a sphere plays
     * a one-shot SPLASH where it was.  An unknown id changes nothing.  The
     * `!!` on the character's source cannot fail, because every known
     * character has one.
     */
    method RemoveBox(box: Boxes.Box)
      requires Valid() && (box.id in boxes ==> boxes[box.id] == box)
      modifies this, physics, worldRenderer, box
      ensures Valid() && box.id !in boxes
      ensures box.id !in old(boxes) ==>
        (boxes == old(boxes) && playerSoundSources == old(playerSoundSources) && audio == old(audio)
         && physics.boxes == old(physics.boxes) && worldRenderer.boxes == old(worldRenderer.boxes))
      ensures box.id in old(boxes) ==>
        (boxes == old(boxes) - {box.id} && box !in physics.boxes && box !in worldRenderer.boxes
         && physics.boxes == Seqs.Without(old(physics.boxes), box)
         && worldRenderer.boxes == Seqs.Without(old(worldRenderer.boxes), box))
      ensures box.id in old(boxes) && box.isCharacter ==>
        (playerSoundSources == old(playerSoundSources) - {box}
         && audio == old(audio) + [UnregisterSource(old(playerSoundSources)[box])])
      ensures box.id in old(boxes) && !box.isCharacter && box.isSphere ==>
        (playerSoundSources == old(playerSoundSources) && |audio| == |old(audio)| + 1
         && audio[..|old(audio)|] == old(audio) && fresh(audio[|old(audio)|].source)
         && audio[|old(audio)|].RegisterSource? && audio[|old(audio)|].source.audioId == SPLASH
         && audio[|old(audio)|].source.position == box.position && !audio[|old(audio)|].source.loop)
      ensures box.id in old(boxes) && !box.isCharacter && !box.isSphere ==>
        playerSoundSources == old(playerSoundSources) && audio == old(audio)
      ensures sent == old(sent) && myBoxId == old(myBoxId) && lastSentInputState == old(lastSentInputState)
      ensures worldRenderer.cameraRotX == old(worldRenderer.cameraRotX)
      ensures worldRenderer.cameraRotY == old(worldRenderer.cameraRotY)
    {
      if box.id !in boxes {
        return;
      }
      SoundsAfterRemove(boxes, playerSoundSources, box);
      var sources := playerSoundSources;
      if box.isCharacter {
        audio := audio + [UnregisterSource(sources[box])];
      } else if box.isSphere {
        var source := new Audio.AudioSource(box.position, 1.0, SPLASH, 2.0, false);
        audio := audio + [RegisterSource(source)];
      }
      Leave(box, if box.isCharacter then sources - {box} else sources);
    }

    /** Spawn: the id becomes the own box, which the renderer stops drawing while the map and physics keep it. */
    method OnSpawn(boxId: int)
      requires Valid()
      modifies this, worldRenderer, if boxId in boxes then {boxes[boxId]} else {}
      ensures Valid() && myBoxId == boxId
      ensures boxes == old(boxes) && playerSoundSources == old(playerSoundSources) && audio == old(audio)
      ensures physics.boxes == old(physics.boxes)
      ensures boxId in boxes ==> worldRenderer.boxes == Seqs.Without(old(worldRenderer.boxes), boxes[boxId])
      ensures boxId !in boxes ==> worldRenderer.boxes == old(worldRenderer.boxes)
      ensures sent == old(sent) && lastSentInputState == old(lastSentInputState)
    {
      myBoxId := boxId;
      if boxId in boxes {
        var myBox := boxes[boxId];
        worldRenderer.RemoveBox(myBox);
      }
    }

    /** BoxAdded: a new box with every field of the message, colour included, added by id. */
    method OnBoxAdded(data: BoxData, created: int) returns (box: Boxes.Box)
      requires Valid()
      modifies this, physics, worldRenderer
      ensures Valid() && fresh(box)
      ensures box.id == data.id && box.size == data.size && box.mass == data.mass && box.theColor == data.color
      ensures box.State() == Boxes.Motion(data.position, data.rotation, data.linearVelocity, data.angularVelocity)
      ensures box.affectedByPhysics == data.affectedByPhysics && box.textureId == data.textureId
      ensures box.textureMultiplier == data.textureMultiplier && box.bounceMultiplier == data.bounceMultiplier
      ensures box.isSphere == data.isSphere && box.isCharacter == data.isCharacter
      ensures data.id in old(boxes) <==> boxes == old(boxes)
      ensures data.id !in old(boxes) ==> boxes == old(boxes)[data.id := box]
      ensures sent == old(sent) && myBoxId == old(myBoxId) && lastSentInputState == old(lastSentInputState)
    {
      box := new Boxes.Box(id := data.id, position := data.position, size := data.size,
                           linearVelocity := data.linearVelocity, angularVelocity := data.angularVelocity,
                           rotation := data.rotation, mass := data.mass, theColor := data.color,
                           affectedByPhysics := data.affectedByPhysics, textureId := data.textureId,
                           textureMultiplier := data.textureMultiplier, bounceMultiplier := data.bounceMultiplier,
                           isSphere := data.isSphere, isCharacter := data.isCharacter);
      AddBox(box, created);
    }

    /**
     * BoxUpdateMotion: a known box takes all four motion fields.  The own
     * box is no exception, because `shouldMove` is never set to false.
     * An unknown id changes nothing.
     */
    method OnBoxUpdateMotion(id: int, position: Vec3, linearVelocity: Vec3, angularVelocity: Vec3, rotation: Quat)
      requires Valid()
      modifies if id in boxes then {boxes[id]} else {}
      ensures Valid()
      ensures id in boxes ==> boxes[id].State() == Boxes.Motion(position, rotation, linearVelocity, angularVelocity)
      ensures id in boxes ==> boxes[id].shouldCommitTransformChanges && boxes[id].shouldCommitMomentumChanges
    {
      if id in boxes {
        var box := boxes[id];
        box.SetRotation(rotation);
        box.SetPosition(position);
        box.SetLinearVelocity(linearVelocity);
        box.SetAngularVelocity(angularVelocity);
      }
    }

    /**
     * NotifyHit: only when both boxes are known, the victim turns red and
     * a one-shot HIT plays at the emitter (turning back white after 150 ms
     * happens on another thread).
     */
    method OnNotifyHit(emitterBoxId: int, victimBoxId: int)
      requires Valid()
      modifies this, if victimBoxId in boxes then {boxes[victimBoxId]} else {}
      ensures Valid() && boxes == old(boxes) && playerSoundSources == old(playerSoundSources)
      ensures !(victimBoxId in boxes && emitterBoxId in boxes) ==> audio == old(audio)
      ensures victimBoxId in boxes && emitterBoxId in boxes ==>
        (boxes[victimBoxId].theColor == RED && |audio| == |old(audio)| + 1 && audio[..|old(audio)|] == old(audio)
         && audio[|old(audio)|].RegisterSource? && fresh(audio[|old(audio)|].source)
         && audio[|old(audio)|].source.audioId == HIT && !audio[|old(audio)|].source.loop
         && audio[|old(audio)|].source.position == old(boxes[emitterBoxId].position))
      ensures victimBoxId in boxes ==> boxes[victimBoxId].State() == old(boxes[victimBoxId].State())
      ensures sent == old(sent) && myBoxId == old(myBoxId) && lastSentInputState == old(lastSentInputState)
    {
      if victimBoxId in boxes && emitterBoxId in boxes {
        var victimBox := boxes[victimBoxId];
        var emitterBox := boxes[emitterBoxId];
        var position := emitterBox.position;
        victimBox.theColor := RED;
        var source := new Audio.AudioSource(position, 1.0, HIT, 2.0, false);
        audio := audio + [RegisterSource(source)];
      }
    }

    /**
     * handleNetworkMessage.  SetHealth and ServerMessage fail when their UI
     * element is not registered; every other message kind succeeds, and
     * kinds the client does not handle change nothing.  `created` is the
     * body pointer physics would create for a BoxAdded.
     */
    method HandleNetworkMessage(msg: Message, created: int, now: int) returns (r: Result<(), Error>)
      requires Valid()
      modifies this, physics, worldRenderer, healthUI, chatUI, boxes.Values
      ensures Valid()
      ensures r.Err? <==>
        ((msg.SetHealth? && uiRenderer.GetUIElement(HEALTH_UI).None?)
         || (msg.ServerMessage? && uiRenderer.GetUIElement(CHAT_UI).None?))
      ensures msg.Spawn? ==> myBoxId == msg.boxId && boxes == old(boxes)
      ensures !msg.Spawn? ==> myBoxId == old(myBoxId)
      ensures msg.BoxAdded? ==> msg.data.id in boxes && boxes[msg.data.id].id == msg.data.id
      ensures msg.BoxAdded? ==> (msg.data.id in old(boxes) <==> boxes == old(boxes))
      ensures msg.BoxUpdateMotion? && msg.id in boxes ==>
        boxes[msg.id].State() == Boxes.Motion(msg.position, msg.rotation, msg.linearVelocity, msg.angularVelocity)
      ensures msg.RemoveBox? ==> msg.boxId !in boxes && boxes == old(boxes) - {msg.boxId}
      ensures msg.SetHealth? && r.Ok? ==> healthUI.health == msg.health
      ensures msg.ServerMessage? && r.Ok? ==>
        chatUI.messages == Chat.Appended(old(chatUI.messages), Chat.MessageEntry(msg.message, now))
      ensures msg.NotifyHit? && msg.victimBoxId in boxes && msg.emitterBoxId in boxes ==>
        boxes[msg.victimBoxId].theColor == RED
      ensures !msg.BoxAdded? && !msg.RemoveBox? ==> boxes == old(boxes)
      ensures sent == old(sent)
    {
      r := Ok(());
      match msg {
        case Spawn(boxId) =>
          OnSpawn(boxId);
        case BoxAdded(data) =>
          var box := OnBoxAdded(data, created);
        case BoxUpdateMotion(id, position, linearVelocity, angularVelocity, rotation) =>
          OnBoxUpdateMotion(id, position, linearVelocity, angularVelocity, rotation);
        case RemoveBox(boxId) =>
          if boxId in boxes {
            RemoveBox(boxes[boxId]);
          }
        case SetHealth(health) =>
          if uiRenderer.GetUIElement(HEALTH_UI).None? {
            return Err(NullPointer);
          }
          healthUI.health := health;
        case NotifyHit(emitterBoxId, victimBoxId) =>
          OnNotifyHit(emitterBoxId, victimBoxId);
        case ServerMessage(message) =>
          if uiRenderer.GetUIElement(CHAT_UI).None? {
            return Err(NullPointer);
          }
          chatUI.AddMessage(message, now);
        case ConnectionInfo(_) =>
        case InputState(_) =>
      }
    }

    /** What one pass of the sound loop leaves in a character's source. */
    ghost predicate Followed(b: Boxes.Box, s: Audio.AudioSource, pitch: real)
      reads b, s
    {
      var speed := speedOf(b.linearVelocity);
      s.position == b.position
      && s.volume == VolumeFor(speed)
      && s.pitch == PitchFor(speed, pitch)
    }

    /**
     * The sound loop of update: every character's source moves to its box
     * and takes the volume and pitch of the box's speed.
     */
    method UpdateSounds()
      requires Valid()
      modifies playerSoundSources.Values
      ensures Valid() && unchanged(worldRenderer) && unchanged(boxes.Values) && unchanged(controls)
      ensures forall b :: b in playerSoundSources && b.isCharacter ==>
        Followed(b, playerSoundSources[b], old(playerSoundSources[b].pitch))
      ensures forall b :: b in playerSoundSources && !b.isCharacter ==>
        (playerSoundSources[b].position == old(playerSoundSources[b].position)
         && playerSoundSources[b].volume == old(playerSoundSources[b].volume)
         && playerSoundSources[b].pitch == old(playerSoundSources[b].pitch))
    {
      FollowBoxes();
    }

    /** The loop of UpdateSounds, which needs of the client only that no two boxes share a source. */
    method FollowBoxes()
      requires SourcesDistinct(playerSoundSources)
      modifies playerSoundSources.Values
      ensures forall b :: b in playerSoundSources && b.isCharacter ==>
        Followed(b, playerSoundSources[b], old(playerSoundSources[b].pitch))
      ensures forall b :: b in playerSoundSources && !b.isCharacter ==>
        (playerSoundSources[b].position == old(playerSoundSources[b].position)
         && playerSoundSources[b].volume == old(playerSoundSources[b].volume)
         && playerSoundSources[b].pitch == old(playerSoundSources[b].pitch))
    {
      var sources := playerSoundSources;
      var todo := sources.Keys;
      while todo != {}
        invariant todo <= sources.Keys
        invariant forall b :: b in sources && b !in todo && b.isCharacter ==>
          Followed(b, sources[b], old(sources[b].pitch))
        invariant forall b :: b in sources && (b in todo || !b.isCharacter) ==>
          (sources[b].position == old(sources[b].position)
           && sources[b].volume == old(sources[b].volume)
           && sources[b].pitch == old(sources[b].pitch))
        decreases todo
      {
        var box :| box in todo;
        var source := sources[box];
        if box.isCharacter {
          var vel := speedOf(box.linearVelocity);
          source.position := box.position;
          if vel < SILENT_BELOW {
            source.volume := 0.0;
          } else {
            source.volume := if vel * VOLUME_FACTOR <= 1.0 then vel * VOLUME_FACTOR else 1.0;
            source.pitch := Util.CoerceIn(vel * VOLUME_FACTOR, 0.5, 1.0);
          }
        }
        todo := todo - {box};
      }
    }

    /** The camera part of update: turn by the controls' rotation, then follow the own box 0.8 above it. */
    method MoveCamera(reading: Reading)
      requires Valid()
      modifies worldRenderer
      ensures Valid()
      ensures worldRenderer.cameraRotY == Util.FMod360(old(worldRenderer.cameraRotY) - reading.rotationX)
      ensures worldRenderer.cameraRotX == Util.PitchOf(old(worldRenderer.cameraRotX) - reading.rotationY)
      ensures myBoxId in boxes ==>
        (worldRenderer.cameraPosX == boxes[myBoxId].position.x
         && worldRenderer.cameraPosY == boxes[myBoxId].position.y + EYE_HEIGHT
         && worldRenderer.cameraPosZ == boxes[myBoxId].position.z)
      ensures worldRenderer.boxes == old(worldRenderer.boxes)
    {
      worldRenderer.SetCameraRotY(worldRenderer.cameraRotY - reading.rotationX);
      worldRenderer.SetCameraRotX(worldRenderer.cameraRotX - reading.rotationY);
      if myBoxId in boxes {
        var playerBox := boxes[myBoxId];
        worldRenderer.cameraPosX := playerBox.position.x;
        worldRenderer.cameraPosY := playerBox.position.y + EYE_HEIGHT;
        worldRenderer.cameraPosZ := playerBox.position.z;
      }
    }

    /**
     * The camera and input part of update: turn and place the camera, build
     * the input state from the controls and the new camera angles, let the
     * controls decay their rotation, and send the input state only if it changed.
     */
    method Steer() returns (input: Input)
      requires Valid()
      modifies this`sent, this`lastSentInputState, worldRenderer, controls`deltaRotX, controls`deltaRotY
      ensures Valid()
      ensures var reading := ReadingOf(old(controls.State()), old(controls.Moving()));
        worldRenderer.cameraRotY == Util.FMod360(old(worldRenderer.cameraRotY) - reading.rotationX)
        && worldRenderer.cameraRotX == Util.PitchOf(old(worldRenderer.cameraRotX) - reading.rotationY)
        && input == InputOf(reading, worldRenderer.cameraRotX, worldRenderer.cameraRotY)
      ensures controls.deltaRotX == old(controls.deltaRotX) * 0.7 && controls.deltaRotY == old(controls.deltaRotY) * 0.7
      ensures lastSentInputState == input
      ensures sent == old(sent) + (if input != old(lastSentInputState) then [InputState(input)] else [])
      ensures myBoxId in boxes ==>
        (worldRenderer.cameraPosX == boxes[myBoxId].position.x
         && worldRenderer.cameraPosY == boxes[myBoxId].position.y + EYE_HEIGHT
         && worldRenderer.cameraPosZ == boxes[myBoxId].position.z)
      ensures worldRenderer.boxes == old(worldRenderer.boxes)
    {
      var reading := ReadingOf(controls.State(), controls.Moving());
      // readDone comes after the reads in the source; the reading holds what they returned.
      controls.ReadDone();
      MoveCamera(reading);
      input := InputOf(reading, worldRenderer.cameraRotX, worldRenderer.cameraRotY);
      SendIfChanged(input);
    }

    /** The input state is sent, and remembered, only when it differs from the last one sent. */
    method SendIfChanged(input: Input)
      modifies this`sent, this`lastSentInputState
      ensures lastSentInputState == input
      ensures sent == old(sent) + (if input != old(lastSentInputState) then [InputState(input)] else [])
    {
      if input != lastSentInputState {
        sent := sent + [InputState(input)];
        lastSentInputState := input;
      }
    }

    /**
     * update: the camera and the input state as in Steer, then every
     * character's walk sound follows its box.
     */
    method Update() returns (input: Input)
      requires Valid()
      modifies this, worldRenderer, controls, playerSoundSources.Values
      ensures Valid()
      ensures var reading := ReadingOf(old(controls.State()), old(controls.Moving()));
        worldRenderer.cameraRotY == Util.FMod360(old(worldRenderer.cameraRotY) - reading.rotationX)
        && worldRenderer.cameraRotX == Util.PitchOf(old(worldRenderer.cameraRotX) - reading.rotationY)
        && input == InputOf(reading, worldRenderer.cameraRotX, worldRenderer.cameraRotY)
      ensures controls.deltaRotX == old(controls.deltaRotX) * 0.7 && controls.deltaRotY == old(controls.deltaRotY) * 0.7
      ensures controls.State() == old(controls.State()).(deltaRotX := controls.deltaRotX, deltaRotY := controls.deltaRotY)
      ensures controls.Untouched() == old(controls.Untouched())
      ensures lastSentInputState == input
      ensures sent == old(sent) + (if input != old(lastSentInputState) then [InputState(input)] else [])
      ensures myBoxId in boxes ==>
        (worldRenderer.cameraPosX == boxes[myBoxId].position.x
         && worldRenderer.cameraPosY == boxes[myBoxId].position.y + EYE_HEIGHT
         && worldRenderer.cameraPosZ == boxes[myBoxId].position.z)
      ensures forall b :: b in playerSoundSources ==>
        Followed(b, playerSoundSources[b], old(playerSoundSources[b].pitch))
      ensures boxes == old(boxes) && playerSoundSources == old(playerSoundSources) && audio == old(audio)
      ensures myBoxId == old(myBoxId) && worldRenderer.boxes == old(worldRenderer.boxes)
    {
      input := Steer();
      UpdateSounds();
    }
  }
}
