/**
 * The desktop game client (src/main/kotlin/com/peinbol/client/Client.kt):
 * it draws what the server says and reports its input back.  Its state is
 * the box map keyed by id, the own box id, the last input state sent, the
 * shared debounce timestamp of the U and K toggles, and the drug mode.
 *
 * The client's Physics is outside the model: its register/unRegister
 * calls are recorded in `physics`.  What the client sends is recorded in
 * `sent`.  The clock is `now`, the pressed keys and mouse deltas of one
 * frame are a `Keys` value and two reals.
 */
module DesktopClient {
  import opened Wrappers
  import opened Geometry
  import opened Protocol
  import Boxes
  import ClientWindow
  import UiRegistry
  import Chat
  import Seqs
  import Util

  /** The health bar; only its `health` field is touched by the client. */
  class HealthUI {
    var health: int

    constructor ()
      ensures health == 100
    {
      health := 100;
    }
  }

  /** The keys and mouse button update() polls in one frame. */
  datatype Keys = Keys(w: bool, s: bool, a: bool, d: bool, mouseLeft: bool,
                       space: bool, leftShift: bool, u: bool, k: bool)

  /** The physics calls addBox and removeBox make. */
  datatype PhysicsCall = Register(box: Boxes.Box) | Unregister(box: Boxes.Box)

  datatype Error = NullPointer   // a `!!` on a UI element that is not registered

  const HEALTH_UI: UiRegistry.ClassName := "HealthUI"
  const CHAT_UI: UiRegistry.ClassName := "ChatUI"

  const TOGGLE_MILLIS := 400
  const EYE_HEIGHT := 0.8
  const MOUSE_FACTOR := 0.4

  /** The input state update() builds: secondary fire is never set on the desktop. */
  function InputOf(keys: Keys, cameraX: real, cameraY: real): (input: Input)
  {
    Input(keys.w, keys.s, keys.a, keys.d, keys.mouseLeft, false, keys.space, keys.leftShift, cameraX, cameraY)
  }

  /** The field of view while on drugs: 30 to 40 degrees, following a one-second oscillator. */
  function DrugFov(now: int): (fov: real)
    requires now >= 0
    ensures 30.0 <= fov <= 40.0
  {
    Util.OscillatorBounds(1000, now);
    30.0 + (Util.TimedOscillator(1000, now) as real / 1000.0) * 10.0
  }

  /** The aspect-ratio multiplier while on drugs, with the integer division the source performs. */
  function DrugAspectAsWritten(now: int): real
    requires now >= 0
  {
    0.8 + Util.TruncDiv(Util.TimedOscillator(1200, now), 1200) as real
  }

  /** The integer division leaves the multiplier at 0.8 except at the oscillator's peak, so half way up it is not 1.3. */
  lemma DrugAspectAsWrittenSteps(now: int)
    requires now >= 0
    ensures DrugAspectAsWritten(now) == 0.8 || DrugAspectAsWritten(now) == 1.8
    ensures DrugAspectAsWritten(600) == 0.8 && DrugAspect(600) == 1.3
  {
    Util.OscillatorBounds(1200, now);
    assert Util.TimedOscillator(1200, 600) == 600 by { Util.OscillatorPhases(1200, 600); }
  }

  /** The aspect-ratio multiplier as evidently intended: 0.8 to 1.8, following a 1.2-second oscillator like the fov. */
  function DrugAspect(now: int): (m: real)
    requires now >= 0
    ensures 0.8 <= m <= 1.8
  {
    Util.OscillatorBounds(1200, now);
    0.8 + Util.TimedOscillator(1200, now) as real / 1200.0
  }

  /** The intended multiplier passes through the middle of its range, which the as-written one never does. */
  lemma DrugAspectMidway()
    ensures DrugAspect(600) == 1.3
  {
    assert Util.TimedOscillator(1200, 600) == 600 by { Util.OscillatorPhases(1200, 600); }
  }

  /** At the end of a rising period the intended multiplier reaches its top. */
  lemma DrugAspectPeak()
    ensures DrugAspect(1200) == 1.8
  {
    assert Util.TimedOscillator(1200, 1200) == 1200 by { Util.OscillatorPhases(1200, 1200); }
  }

  class Client {
    var boxes: map<int, Boxes.Box>
    var myBoxId: int
    var lastSentInputState: Input
    var lastCursorModeSwitch: int
    var onDrugs: bool
    var physics: seq<PhysicsCall>
    var sent: seq<Message>
    const window: ClientWindow.Window
    const healthUI: HealthUI
    const chatUI: Chat.DesktopChatUI

    /**
     * Boxes are keyed by their id, and the window draws distinct boxes
     * of the map, each under its own id.
     */
    ghost predicate Valid()
      reads this, window
    {
      window.Valid()
      && (forall id :: id in boxes ==> boxes[id].id == id)
      && Seqs.Distinct(window.boxes)
      && (forall b :: b in window.boxes ==> b.id in boxes && boxes[b.id] == b)
    }

    constructor (window: ClientWindow.Window, healthUI: HealthUI, chatUI: Chat.DesktopChatUI, now: int)
      requires window.Valid() && window.boxes == []
      ensures Valid() && this.window == window && this.healthUI == healthUI && this.chatUI == chatUI
      ensures boxes == map[] && myBoxId == -1 && lastSentInputState == NO_INPUT
      ensures lastCursorModeSwitch == now && !onDrugs && physics == [] && sent == []
    {
      this.window := window;
      this.healthUI := healthUI;
      this.chatUI := chatUI;
      boxes := map[];
      myBoxId := -1;
      lastSentInputState := NO_INPUT;
      lastCursorModeSwitch := now;
      onDrugs := false;
      physics := [];
      sent := [];
    }

    /** addBox: a box whose id is new enters the map, physics and the window together; a known id changes nothing. */
    method AddBox(box: Boxes.Box)
      requires Valid()
      modifies this, window
      ensures Valid()
      ensures box.id in old(boxes) ==>
        (boxes == old(boxes) && physics == old(physics) && window.boxes == old(window.boxes))
      ensures box.id !in old(boxes) ==>
        (boxes == old(boxes)[box.id := box] && physics == old(physics) + [Register(box)]
         && window.boxes == old(window.boxes) + [box])
      ensures myBoxId == old(myBoxId) && sent == old(sent) && lastSentInputState == old(lastSentInputState)
      ensures window.cameraRotX == old(window.cameraRotX) && window.cameraRotY == old(window.cameraRotY)
      ensures window.cameraRotZ == old(window.cameraRotZ) && window.uiDrawables == old(window.uiDrawables)
    {
      if box.id !in boxes {
        Seqs.AppendDistinct(window.boxes, box);
        boxes := boxes[box.id := box];
        physics := physics + [Register(box)];
        window.boxes := window.boxes + [box];
      }
    }

    /** removeBox: a box whose id is known leaves the map, physics and the window; an unknown id changes nothing. */
    method RemoveBox(box: Boxes.Box)
      requires Valid() && (box.id in boxes ==> boxes[box.id] == box)
      modifies this, window
      ensures Valid() && box.id !in boxes && box !in window.boxes
      ensures box.id !in old(boxes) ==>
        (boxes == old(boxes) && physics == old(physics) && window.boxes == old(window.boxes))
      ensures box.id in old(boxes) ==>
        (boxes == old(boxes) - {box.id} && physics == old(physics) + [Unregister(box)]
         && window.boxes == Seqs.Without(old(window.boxes), box))
      ensures myBoxId == old(myBoxId) && sent == old(sent) && lastSentInputState == old(lastSentInputState)
      ensures window.cameraRotX == old(window.cameraRotX) && window.cameraRotY == old(window.cameraRotY)
      ensures window.cameraRotZ == old(window.cameraRotZ) && window.uiDrawables == old(window.uiDrawables)
    {
      if box.id in boxes {
        Seqs.RemoveFirstDistinct(window.boxes, box);
        Seqs.WithoutDistinct(window.boxes, box);
        boxes := boxes - {box.id};
        physics := physics + [Unregister(box)];
        window.boxes := Seqs.RemoveFirst(window.boxes, box);
      }
    }

    /** Spawn: the id becomes the own box, which stops being drawn but stays in the map and in physics. */
    method OnSpawn(boxId: int)
      requires Valid()
      modifies this, window
      ensures Valid() && myBoxId == boxId
      ensures boxes == old(boxes) && physics == old(physics) && sent == old(sent)
      ensures boxId in boxes ==> window.boxes == Seqs.Without(old(window.boxes), boxes[boxId])
      ensures boxId !in boxes ==> window.boxes == old(window.boxes)
      ensures window.cameraRotX == old(window.cameraRotX) && window.cameraRotY == old(window.cameraRotY)
      ensures window.cameraRotZ == old(window.cameraRotZ) && window.uiDrawables == old(window.uiDrawables)
    {
      myBoxId := boxId;
      if boxId in boxes {
        var myBox := boxes[boxId];
        Seqs.RemoveFirstDistinct(window.boxes, myBox);
        Seqs.WithoutDistinct(window.boxes, myBox);
        window.boxes := Seqs.RemoveFirst(window.boxes, myBox);
      }
    }

    /** BoxAdded: a new box with every field of the message (colour and in-ground flag at their defaults), added by id. */
    method OnBoxAdded(data: BoxData) returns (box: Boxes.Box)
      requires Valid()
      modifies this, window
      ensures Valid() && fresh(box)
      ensures box.id == data.id && box.size == data.size && box.mass == data.mass && box.theColor == WHITE
      ensures box.State() == Boxes.Motion(data.position, data.rotation, data.linearVelocity, data.angularVelocity)
      ensures box.affectedByPhysics == data.affectedByPhysics && box.textureId == data.textureId
      ensures box.textureMultiplier == data.textureMultiplier && box.bounceMultiplier == data.bounceMultiplier
      ensures box.isSphere == data.isSphere && box.isCharacter == data.isCharacter
      ensures data.id in old(boxes) ==> boxes == old(boxes) && window.boxes == old(window.boxes)
      ensures data.id !in old(boxes) ==> boxes == old(boxes)[data.id := box] && window.boxes == old(window.boxes) + [box]
      ensures myBoxId == old(myBoxId) && sent == old(sent)
      ensures window.cameraRotX == old(window.cameraRotX) && window.cameraRotY == old(window.cameraRotY)
      ensures window.cameraRotZ == old(window.cameraRotZ) && window.uiDrawables == old(window.uiDrawables)
    {
      box := new Boxes.Box(id := data.id, position := data.position, size := data.size,
                           linearVelocity := data.linearVelocity, angularVelocity := data.angularVelocity,
                           rotation := data.rotation, mass := data.mass,
                           affectedByPhysics := data.affectedByPhysics, textureId := data.textureId,
                           textureMultiplier := data.textureMultiplier, bounceMultiplier := data.bounceMultiplier,
                           isSphere := data.isSphere, isCharacter := data.isCharacter);
      AddBox(box);
    }

    /** BoxUpdateMotion: a known box, the own one included, takes all four motion fields; an unknown id changes nothing. */
    method OnBoxUpdateMotion(id: int, position: Vec3, linearVelocity: Vec3, angularVelocity: Vec3, rotation: Quat)
      requires Valid()
      modifies if id in boxes then {boxes[id]} else {}
      ensures Valid()
      ensures id in boxes ==> boxes[id].State() == Boxes.Motion(position, rotation, linearVelocity, angularVelocity)
      ensures id in boxes ==> boxes[id].shouldCommitTransformChanges && boxes[id].shouldCommitMomentumChanges
    {
      if id in boxes {
        var box := boxes[id];
        box.SetRotation(rotation);
        box.SetPosition(position);
        box.SetLinearVelocity(linearVelocity);
        box.SetAngularVelocity(angularVelocity);
      }
    }

    /** NotifyHit: a known victim turns red (turning back white after 100 ms happens on another thread). */
    method OnNotifyHit(victimBoxId: int)
      requires Valid()
      modifies if victimBoxId in boxes then {boxes[victimBoxId]} else {}
      ensures Valid()
      ensures victimBoxId in boxes ==> boxes[victimBoxId].theColor == RED
      ensures victimBoxId in boxes ==> boxes[victimBoxId].State() == old(boxes[victimBoxId].State())
    {
      if victimBoxId in boxes {
        boxes[victimBoxId].theColor := RED;
      }
    }

    /**
     * handleNetworkMessage.  SetHealth and ServerMessage fail when their UI
     * element is not registered; every other message kind succeeds, and
     * kinds the client does not handle change nothing.
     */
    method HandleNetworkMessage(msg: Message, now: int) returns (r: Result<(), Error>)
      requires Valid()
      modifies this, window, healthUI, chatUI, boxes.Values
      ensures Valid()
      ensures r.Err? <==>
        ((msg.SetHealth? && old(window.GetUIElement(HEALTH_UI)).None?)
         || (msg.ServerMessage? && old(window.GetUIElement(CHAT_UI)).None?))
      ensures msg.Spawn? ==> myBoxId == msg.boxId && boxes == old(boxes)
      ensures !msg.Spawn? ==> myBoxId == old(myBoxId)
      ensures msg.BoxAdded? ==> (msg.data.id in old(boxes) <==> boxes == old(boxes))
      ensures msg.BoxAdded? ==> msg.data.id in boxes && boxes[msg.data.id].id == msg.data.id
      ensures msg.BoxUpdateMotion? && msg.id in boxes ==>
        boxes[msg.id].State() == Boxes.Motion(msg.position, msg.rotation, msg.linearVelocity, msg.angularVelocity)
      ensures msg.RemoveBox? ==> msg.boxId !in boxes && boxes == old(boxes) - {msg.boxId}
      ensures msg.SetHealth? && r.Ok? ==> healthUI.health == msg.health
      ensures msg.ServerMessage? && r.Ok? ==>
        chatUI.messages == Chat.Appended(old(chatUI.messages), Chat.MessageEntry(msg.message, now))
      ensures msg.NotifyHit? && msg.victimBoxId in boxes ==> boxes[msg.victimBoxId].theColor == RED
      ensures !msg.BoxAdded? && !msg.RemoveBox? ==> boxes == old(boxes)
      ensures sent == old(sent)
    {
      r := Ok(());
      match msg {
        case Spawn(boxId) =>
          OnSpawn(boxId);
        case BoxAdded(data) =>
          var box := OnBoxAdded(data);
        case BoxUpdateMotion(id, position, linearVelocity, angularVelocity, rotation) =>
          OnBoxUpdateMotion(id, position, linearVelocity, angularVelocity, rotation);
        case RemoveBox(boxId) =>
          if boxId in boxes {
            RemoveBox(boxes[boxId]);
          }
        case SetHealth(health) =>
          if window.GetUIElement(HEALTH_UI).None? {
            return Err(NullPointer);
          }
          healthUI.health := health;
        case NotifyHit(_, victimBoxId) =>
          OnNotifyHit(victimBoxId);
        case ServerMessage(message) =>
          if window.GetUIElement(CHAT_UI).None? {
            return Err(NullPointer);
          }
          chatUI.AddMessage(message, now);
        case ConnectionInfo(_) =>
        case InputState(_) =>
      }
    }

    /**
     * The U (mouse visibility) and K (drug mode) toggles.  They share one
     * 400 ms debounce timestamp, so when both keys are down in a frame
     * that passes the debounce only the mouse visibility flips.
     */
    method Toggle(u: bool, k: bool, now: int)
      requires Valid()
      modifies this, window
      ensures Valid()
      ensures var mouseFlips := u && now - old(lastCursorModeSwitch) > TOGGLE_MILLIS;
        var drugsFlip := k && !mouseFlips && now - old(lastCursorModeSwitch) > TOGGLE_MILLIS;
        window.mouseVisible == (old(window.mouseVisible) != mouseFlips)
        && onDrugs == (old(onDrugs) != drugsFlip)
        && lastCursorModeSwitch == (if mouseFlips || drugsFlip then now else old(lastCursorModeSwitch))
      ensures boxes == old(boxes) && window.boxes == old(window.boxes) && myBoxId == old(myBoxId)
      ensures sent == old(sent) && lastSentInputState == old(lastSentInputState) && physics == old(physics)
      ensures window.cameraRotX == old(window.cameraRotX) && window.cameraRotY == old(window.cameraRotY)
      ensures window.cameraRotZ == old(window.cameraRotZ) && window.uiDrawables == old(window.uiDrawables)
    {
      if u && now - lastCursorModeSwitch > TOGGLE_MILLIS {
        lastCursorModeSwitch := now;
        window.SetMouseVisible(!window.mouseVisible);
      }
      if k && now - lastCursorModeSwitch > TOGGLE_MILLIS {
        lastCursorModeSwitch := now;
        onDrugs := !onDrugs;
      }
    }

    /** The camera follows the own box, 0.8 above its position, while that box is known. */
    method FollowCamera()
      requires Valid()
      modifies window
      ensures Valid()
      ensures myBoxId in boxes ==>
        (window.cameraPosX == boxes[myBoxId].position.x
         && window.cameraPosY == boxes[myBoxId].position.y + EYE_HEIGHT
         && window.cameraPosZ == boxes[myBoxId].position.z)
      ensures myBoxId !in boxes ==>
        (window.cameraPosX == old(window.cameraPosX) && window.cameraPosY == old(window.cameraPosY)
         && window.cameraPosZ == old(window.cameraPosZ))
      ensures window.boxes == old(window.boxes) && window.mouseVisible == old(window.mouseVisible)
      ensures window.cameraRotX == old(window.cameraRotX) && window.cameraRotY == old(window.cameraRotY)
      ensures window.cameraRotZ == old(window.cameraRotZ) && window.uiDrawables == old(window.uiDrawables)
    {
      if myBoxId in boxes {
        var playerBox := boxes[myBoxId];
        window.cameraPosX := playerBox.position.x;
        window.cameraPosY := playerBox.position.y + EYE_HEIGHT;
        window.cameraPosZ := playerBox.position.z;
      }
    }

    /** Send-on-change: the input goes out only when it differs from the last one sent, and is then the last one sent. */
    method SendInput(input: Input)
      modifies this
      ensures lastSentInputState == input
      ensures sent == old(sent) + (if input != old(lastSentInputState) then [InputState(input)] else [])
      ensures boxes == old(boxes) && myBoxId == old(myBoxId) && onDrugs == old(onDrugs)
      ensures lastCursorModeSwitch == old(lastCursorModeSwitch) && physics == old(physics)
    {
      if input != lastSentInputState {
        sent := sent + [InputState(input)];
        lastSentInputState := input;
      }
    }

    /**
     * update: build the input state from the keys and the camera angles
     * as they were, apply the toggles, follow the own box, turn the camera
     * by 0.4 per unit of mouse movement, wobble the view while on drugs,
     * and send the input if it changed.
     */
    method Update(keys: Keys, mouseDX: real, mouseDY: real, now: int) returns (input: Input)
      requires Valid() && now >= 0
      modifies this, window
      ensures Valid()
      ensures input == InputOf(keys, old(window.cameraRotX), old(window.cameraRotY))
      ensures lastSentInputState == input
      ensures sent == old(sent) + (if input != old(lastSentInputState) then [InputState(input)] else [])
      ensures window.cameraRotX == Util.PitchOf(old(window.cameraRotX) - mouseDY * MOUSE_FACTOR)
      ensures window.cameraRotY == Util.FMod360(old(window.cameraRotY) - mouseDX * MOUSE_FACTOR)
      ensures myBoxId in boxes ==>
        (window.cameraPosX == boxes[myBoxId].position.x
         && window.cameraPosY == boxes[myBoxId].position.y + EYE_HEIGHT
         && window.cameraPosZ == boxes[myBoxId].position.z)
      ensures keys.u && keys.k ==> onDrugs == old(onDrugs)
      ensures onDrugs ==> window.fov == DrugFov(now) && window.aspectRatioMultiplier == DrugAspect(now)
      ensures boxes == old(boxes) && window.boxes == old(window.boxes) && myBoxId == old(myBoxId)
      ensures physics == old(physics) && window.uiDrawables == old(window.uiDrawables)
    {
      input := InputOf(keys, window.cameraRotX, window.cameraRotY);
      Toggle(keys.u, keys.k, now);
      FollowCamera();
      window.SetCameraRotX(window.cameraRotX - mouseDY * MOUSE_FACTOR);
      window.SetCameraRotY(window.cameraRotY - mouseDX * MOUSE_FACTOR);
      if onDrugs {
        window.fov := DrugFov(now);
        window.aspectRatioMultiplier := DrugAspect(now);
      }
      SendInput(input);
    }
  }
}
