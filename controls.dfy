/**
 * The Android touch controls (NativeActivityTest/app/src/main/java/io/
 * snower/game/client/AndroidControls.kt).  A finger on the left half of the
 * screen steers (the movement finger) or, inside the quick-shot circle while
 * aiming, fires (the shot finger); a finger on the right half rotates the
 * camera (the rotation finger) and, inside the aim ring, starts aiming.
 * Each drawn frame turns the movement finger's heading into one of eight
 * sectors and moves the renderer's field of view toward the aiming or the
 * normal value.
 *
 * Float geometry that needs a square root or a trigonometric function is a
 * parameter: the heading `degrees(atan2(…))` and the knob offsets clamped to
 * the ring.  A distance compared with a radius is compared on squares.
 */
module Controls {
  import opened Util
  import opened UiDrawing

  const RING_RADIUS := 100.0
  const INNER_RADIUS := 25.0
  const X_PAD := 100.0
  const Y_PAD := 100.0
  const SENSITIVITY_DEFAULT := 0.1
  const SENSITIVITY_AIMING := 0.02
  const RING_THICKNESS := 5.0
  const SHOT_QUICK_X_PAD := 50.0
  const SHOT_QUICK_Y_PAD := 50.0
  const SHOT_QUICK_RADIUS := 65.0
  /** The finger-id value for "no finger". */
  const NO_FINGER := -1

  /** Long.toInt(): the low 32 bits read as a signed value. */
  function ToInt(v: int): (r: int)
    requires 0 <= v < 0x1_0000_0000
    ensures -0x8000_0000 <= r < 0x8000_0000
    ensures r == v || r == v - 0x1_0000_0000
  {
    if v < 0x8000_0000 then v else v - 0x1_0000_0000
  }

  const RING_COLOR := ToInt(0xFF12_1212)
  const INNER_COLOR := ToInt(0xD32F_2FFF)
  const SHOT_QUICK_COLOR := ToInt(0x9999_9999)
  /** The transparent background of the three control windows. */
  const NO_BACKGROUND := 0x0

  function OneIf(b: bool): nat
  {
    if b then 1 else 0
  }

  /** The three pointer actions pointerUpdate distinguishes. */
  datatype Action = Down | Move | Up

  /** distance2D((cx, cy), (x, y)) < radius, for a positive radius. */
  predicate InCircle(cx: real, cy: real, radius: real, x: real, y: real)
  {
    (x - cx) * (x - cx) + (y - cy) * (y - cy) < radius * radius
  }

  /** The centre of the quick-shot circle, bottom-left in screen terms. */
  const QUICK_SHOT_X := SHOT_QUICK_X_PAD + SHOT_QUICK_RADIUS
  const QUICK_SHOT_Y := SHOT_QUICK_Y_PAD + SHOT_QUICK_RADIUS

  /** The finger bookkeeping pointerUpdate reads and writes. */
  datatype Touch = Touch(
    controlsFingerId: int, controlsX: real, controlsY: real,
    rotFingerId: int, lastRotX: real, lastRotY: real, deltaRotX: real, deltaRotY: real,
    sensitivity: real, shoting: bool, aiming: bool, waitingUntilExitAimZone: bool, shotingId: int)

  const INITIAL_TOUCH := Touch(NO_FINGER, 0.0, 0.0, NO_FINGER, 0.0, 0.0, 0.0, 0.0,
                               SENSITIVITY_DEFAULT, false, false, false, NO_FINGER)

  // ---------------------------------------------------------------------
  // pointerUpdate

  /** A DOWN on the left half (`x < width / 2`, an Int division). */
  predicate LeftHalf(width: int, x: real)
  {
    x < TruncDiv(width, 2) as real
  }

  /** A DOWN that starts a shot: no shot finger yet, inside the quick-shot circle, while aiming. */
  predicate StartsShot(s: Touch, x: real, y: real)
  {
    s.shotingId == NO_FINGER && InCircle(QUICK_SHOT_X, QUICK_SHOT_Y, SHOT_QUICK_RADIUS, x, y) && s.aiming
  }

  /** A DOWN inside the aim ring at the bottom right. */
  predicate InAimRing(width: int, height: int, x: real, y: real)
  {
    InCircle(width as real - X_PAD - RING_RADIUS, height as real - Y_PAD - RING_RADIUS, RING_RADIUS, x, y)
  }

  /** The corner where a rotation MOVE would be skipped while waiting to leave the aim zone. */
  predicate InAimCorner(width: int, height: int, x: real, y: real)
  {
    x > (TruncDiv(width, 4) * 3) as real && y > (TruncDiv(height, 3) * 2) as real
  }

  /** A DOWN on the left half: a shot, or the movement finger if there is none. */
  function MovementDownStep(s: Touch, id: nat, x: real, y: real): Touch
  {
    if StartsShot(s, x, y) then s.(shoting := true, shotingId := id)
    else if s.controlsFingerId == NO_FINGER then s.(controlsFingerId := id, controlsX := x, controlsY := y)
    else s
  }

  /** A DOWN on the right half: the rotation finger if there is none, aiming inside the ring. */
  function RotationDownStep(s: Touch, width: int, height: int, id: nat, x: real, y: real): Touch
  {
    if s.rotFingerId == NO_FINGER then
      var claimed := s.(rotFingerId := id, lastRotX := x, lastRotY := y, deltaRotX := 0.0, deltaRotY := 0.0);
      if InAimRing(width, height, x, y) then
        claimed.(aiming := true, waitingUntilExitAimZone := false, sensitivity := SENSITIVITY_AIMING)
      else
        claimed.(sensitivity := SENSITIVITY_DEFAULT)
    else s
  }

  /**
   * A MOVE of the rotation finger adds to the pending rotation, unless it is
   * still in the aim corner it has to leave first.
   */
  function RotationMoveStep(s: Touch, width: int, height: int, x: real, y: real): Touch
  {
    if InAimCorner(width, height, x, y) && s.waitingUntilExitAimZone then
      s.(lastRotX := x, lastRotY := y)
    else
      s.(waitingUntilExitAimZone := false,
         deltaRotX := s.deltaRotX + (x - s.lastRotX) * s.sensitivity,
         deltaRotY := s.deltaRotY + (y - s.lastRotY) * s.sensitivity,
         lastRotX := x, lastRotY := y)
  }

  /** A MOVE: the rotation finger turns, the movement finger moves the knob. */
  function MoveStep(s: Touch, width: int, height: int, id: nat, x: real, y: real): Touch
  {
    if id == s.rotFingerId then RotationMoveStep(s, width, height, x, y)
    else if id == s.controlsFingerId then s.(controlsX := x, controlsY := y)
    else s
  }

  /** An UP releases the finger's role; the rotation finger also ends aiming. */
  function UpStep(s: Touch, id: nat): Touch
  {
    if id == s.rotFingerId then s.(rotFingerId := NO_FINGER, aiming := false, waitingUntilExitAimZone := false)
    else if id == s.controlsFingerId then s.(controlsFingerId := NO_FINGER)
    else if id == s.shotingId then s.(shoting := false, shotingId := NO_FINGER)
    else s
  }

  /** What pointerUpdate(id, action, x, y) does to the finger bookkeeping. */
  function PointerStep(s: Touch, width: int, height: int, id: nat, action: Action, x: real, y: real): Touch
  {
    match action
    case Down =>
      if LeftHalf(width, x) then MovementDownStep(s, id, x, y) else RotationDownStep(s, width, height, id, x, y)
    case Move => MoveStep(s, width, height, id, x, y)
    case Up => UpStep(s, id)
  }

  /**
   * What holds of the bookkeeping from construction on: the aim-zone wait
   * is never on, a shot is on exactly while a shot finger is held, aiming
   * needs the rotation finger, and the sensitivity is one of the two values.
   */
  predicate Consistent(t: Touch)
  {
    !t.waitingUntilExitAimZone
    && (t.shoting <==> t.shotingId != NO_FINGER)
    && (t.aiming ==> t.rotFingerId != NO_FINGER)
    && t.controlsFingerId >= NO_FINGER && t.rotFingerId >= NO_FINGER && t.shotingId >= NO_FINGER
    && (t.sensitivity == SENSITIVITY_DEFAULT || t.sensitivity == SENSITIVITY_AIMING)
  }

  lemma InitialConsistent()
    ensures Consistent(INITIAL_TOUCH)
  {
  }

  /** Every pointer update keeps the bookkeeping consistent; in particular the wait flag is never set. */
  lemma StepConsistent(s: Touch, width: int, height: int, id: nat, action: Action, x: real, y: real)
    requires Consistent(s)
    ensures Consistent(PointerStep(s, width, height, id, action, x, y))
  {
  }

  /**
   * With the wait flag off, a MOVE of the rotation finger always turns the
   * camera: the skip branch for the aim corner is never taken.
   */
  lemma RotationMoveTurns(s: Touch, width: int, height: int, id: nat, x: real, y: real)
    requires Consistent(s) && id == s.rotFingerId
    ensures var r := PointerStep(s, width, height, id, Move, x, y);
      r.deltaRotX == s.deltaRotX + (x - s.lastRotX) * s.sensitivity
      && r.deltaRotY == s.deltaRotY + (y - s.lastRotY) * s.sensitivity
      && r.lastRotX == x && r.lastRotY == y
      && r.rotFingerId == s.rotFingerId && r.controlsFingerId == s.controlsFingerId && r.shotingId == s.shotingId
  {
  }

  /** A MOVE of a finger that holds no role changes nothing. */
  lemma StrayMoveIgnored(s: Touch, width: int, height: int, id: nat, x: real, y: real)
    requires id != s.rotFingerId && id != s.controlsFingerId
    ensures PointerStep(s, width, height, id, Move, x, y) == s
  {
  }

  /**
   * A DOWN on the left half starts a shot exactly when aiming is on, no
   * shot finger is held and the touch is inside the quick-shot circle;
   * otherwise it claims the movement finger exactly when none is held, and
   * a held movement finger is never replaced.
   */
  lemma LeftDown(s: Touch, width: int, height: int, id: nat, x: real, y: real)
    requires LeftHalf(width, x)
    ensures var r := PointerStep(s, width, height, id, Down, x, y);
      (r.shotingId != s.shotingId <==> s.aiming && s.shotingId == NO_FINGER
                                       && InCircle(QUICK_SHOT_X, QUICK_SHOT_Y, SHOT_QUICK_RADIUS, x, y))
      && (r.shotingId != s.shotingId ==> r.shoting && r.shotingId == id)
      && (r.controlsFingerId != s.controlsFingerId <==> !StartsShot(s, x, y) && s.controlsFingerId == NO_FINGER)
      && (r.controlsFingerId != s.controlsFingerId ==> r.controlsFingerId == id && r.controlsX == x && r.controlsY == y)
      && r.rotFingerId == s.rotFingerId && r.aiming == s.aiming
  {
  }

  /**
   * A DOWN on the right half claims the rotation finger exactly when none
   * is held, resetting the deltas; inside the aim ring it starts aiming with
   * the aiming sensitivity, elsewhere it takes the default sensitivity.
   */
  lemma RightDown(s: Touch, width: int, height: int, id: nat, x: real, y: real)
    requires !LeftHalf(width, x)
    ensures var r := PointerStep(s, width, height, id, Down, x, y);
      (r.rotFingerId != s.rotFingerId <==> s.rotFingerId == NO_FINGER)
      && (s.rotFingerId != NO_FINGER ==> r == s)
      && (s.rotFingerId == NO_FINGER ==> (r.rotFingerId == id && r.deltaRotX == 0.0 && r.deltaRotY == 0.0
           && r.lastRotX == x && r.lastRotY == y
           && (InAimRing(width, height, x, y) ==> r.aiming && r.sensitivity == SENSITIVITY_AIMING)
           && (!InAimRing(width, height, x, y) ==> r.aiming == s.aiming && r.sensitivity == SENSITIVITY_DEFAULT)))
      && r.controlsFingerId == s.controlsFingerId && r.shotingId == s.shotingId
  {
  }

  /**
   * An UP releases at most one role, looked up in the order rotation,
   * movement, shot; releasing the rotation finger also stops aiming.
   */
  lemma UpReleasesOne(s: Touch, width: int, height: int, id: nat, x: real, y: real)
    ensures var r := PointerStep(s, width, height, id, Up, x, y);
      (r.rotFingerId != s.rotFingerId ==> s.rotFingerId == id && r.rotFingerId == NO_FINGER && !r.aiming)
      && (r.controlsFingerId != s.controlsFingerId ==>
            (s.controlsFingerId == id && s.rotFingerId != id && r.controlsFingerId == NO_FINGER))
      && (r.shotingId != s.shotingId ==>
            (s.shotingId == id && s.rotFingerId != id && s.controlsFingerId != id
             && r.shotingId == NO_FINGER && !r.shoting))
      && OneIf(r.rotFingerId != s.rotFingerId) + OneIf(r.controlsFingerId != s.controlsFingerId)
         + OneIf(r.shotingId != s.shotingId) <= 1
      && (s.rotFingerId == id ==> r.rotFingerId == NO_FINGER)
  {
  }

  // ---------------------------------------------------------------------
  // processEvent

  const ACTION_DOWN := 0
  const ACTION_UP := 1
  const ACTION_MOVE := 2
  const ACTION_POINTER_DOWN := 5
  const ACTION_POINTER_UP := 6

  /** One pointer of a MotionEvent: its id, position and first historical position. */
  datatype Pointer = Pointer(id: nat, x: real, y: real, historicalX: real, historicalY: real)

  datatype MotionEvent = MotionEvent(actionMasked: int, actionIndex: nat, historySize: nat, pointers: seq<Pointer>)

  /** A MOVE event: every pointer whose position differs from its first historical one, in pointer order. */
  function MoveSteps(s: Touch, width: int, height: int, historySize: nat, ps: seq<Pointer>): Touch
  {
    if ps == [] then s
    else
      var t := MoveSteps(s, width, height, historySize, ps[..|ps| - 1]);
      var p := ps[|ps| - 1];
      if historySize > 0 && (p.x != p.historicalX || p.y != p.historicalY)
      then PointerStep(t, width, height, p.id, Move, p.x, p.y)
      else t
  }

  /** processEvent: DOWN and POINTER_DOWN, MOVE, UP and POINTER_UP; any other action changes nothing. */
  function EventStep(s: Touch, width: int, height: int, e: MotionEvent): Touch
    requires e.actionIndex < |e.pointers|
  {
    var p := e.pointers[e.actionIndex];
    if e.actionMasked == ACTION_DOWN || e.actionMasked == ACTION_POINTER_DOWN then
      PointerStep(s, width, height, p.id, Down, p.x, p.y)
    else if e.actionMasked == ACTION_MOVE then
      MoveSteps(s, width, height, e.historySize, e.pointers)
    else if e.actionMasked == ACTION_UP || e.actionMasked == ACTION_POINTER_UP then
      PointerStep(s, width, height, p.id, Up, p.x, p.y)
    else s
  }

  /** A MOVE event neither claims nor releases a finger, and never changes aiming. */
  lemma {:induction false} MoveKeepsRoles(s: Touch, width: int, height: int, historySize: nat, ps: seq<Pointer>)
    ensures var r := MoveSteps(s, width, height, historySize, ps);
      r.rotFingerId == s.rotFingerId && r.controlsFingerId == s.controlsFingerId
      && r.shotingId == s.shotingId && r.shoting == s.shoting && r.aiming == s.aiming
  {
    if ps != [] {
      MoveKeepsRoles(s, width, height, historySize, ps[..|ps| - 1]);
    }
  }

  /** Without history a MOVE event changes nothing. */
  lemma {:induction false} MoveWithoutHistory(s: Touch, width: int, height: int, ps: seq<Pointer>)
    ensures MoveSteps(s, width, height, 0, ps) == s
  {
    if ps != [] {
      MoveWithoutHistory(s, width, height, ps[..|ps| - 1]);
    }
  }

  lemma {:induction false} MoveConsistent(s: Touch, width: int, height: int, historySize: nat, ps: seq<Pointer>)
    requires Consistent(s)
    ensures Consistent(MoveSteps(s, width, height, historySize, ps))
  {
    if ps != [] {
      var t := MoveSteps(s, width, height, historySize, ps[..|ps| - 1]);
      MoveConsistent(s, width, height, historySize, ps[..|ps| - 1]);
      var p := ps[|ps| - 1];
      StepConsistent(t, width, height, p.id, Move, p.x, p.y);
    }
  }

  /** Every touch event keeps the bookkeeping consistent. */
  lemma EventConsistent(s: Touch, width: int, height: int, e: MotionEvent)
    requires Consistent(s) && e.actionIndex < |e.pointers|
    ensures Consistent(EventStep(s, width, height, e))
  {
    var p := e.pointers[e.actionIndex];
    StepConsistent(s, width, height, p.id, Down, p.x, p.y);
    StepConsistent(s, width, height, p.id, Up, p.x, p.y);
    MoveConsistent(s, width, height, e.historySize, e.pointers);
  }

  // ---------------------------------------------------------------------
  // draw: the movement sectors and the field of view

  datatype Direction = Direction(forward: bool, backwards: bool, left: bool, right: bool)

  const STILL := Direction(false, false, false, false)

  /** `degrees(atan2(…)).toInt() / (360/8)`: the heading's eighth of a turn, truncated toward zero. */
  function SectorOf(heading: real): int
  {
    TruncDiv(TruncReal(heading), 360 / 8)
  }

  /** The flags a sector sets: 0 right, -1/-2 forward, 1/2 backwards, ±3 left, anything else none. */
  function DirectionOf(sector: int): Direction
  {
    Direction(sector == -1 || sector == -2, sector == 1 || sector == 2, sector == 3 || sector == -3, sector == 0)
  }

  predicate AtMostOne(d: Direction)
  {
    OneIf(d.forward) + OneIf(d.backwards) + OneIf(d.left) + OneIf(d.right) <= 1
  }

  /**
   * For a heading from atan2 (within [-180, 180] degrees, screen y pointing
   * down) the sector lies in [-4, 4], at most one flag is set, and each
   * flag covers its quarter: right (-45, 45), forward (-135, -45],
   * backwards [45, 135), left [135, 180) and (-180, -135]; straight left
   * (±180) sets none.
   */
  lemma SectorMapping(heading: real)
    requires -180.0 <= heading <= 180.0
    ensures -4 <= SectorOf(heading) <= 4
    ensures AtMostOne(DirectionOf(SectorOf(heading)))
    ensures DirectionOf(SectorOf(heading)).right <==> -45.0 < heading < 45.0
    ensures DirectionOf(SectorOf(heading)).forward <==> -135.0 < heading <= -45.0
    ensures DirectionOf(SectorOf(heading)).backwards <==> 45.0 <= heading < 135.0
    ensures DirectionOf(SectorOf(heading)).left <==> (135.0 <= heading < 180.0 || -180.0 < heading <= -135.0)
    ensures DirectionOf(SectorOf(heading)) == STILL <==> (heading == 180.0 || heading == -180.0)
  {
    var n := TruncReal(heading);
    assert -180 <= n <= 180;
    assert n >= 0 ==> SectorOf(heading) == n / 45;
    assert n < 0 ==> SectorOf(heading) == -((-n) / 45);
  }

  const FOV_STEP := 6.0
  const FOV_AIMING := 10.0
  const FOV_NORMAL := 50.0

  /** The fov rule of draw: 6 toward 10 while aiming, 6 toward 50 otherwise, never past the target. */
  function FovStep(fov: real, aiming: bool): real
  {
    if aiming then Max(fov - FOV_STEP, FOV_AIMING) else Min(fov + FOV_STEP, FOV_NORMAL)
  }

  function Max(a: real, b: real): real { if a >= b then a else b }
  function Min(a: real, b: real): real { if a <= b then a else b }

  /** Starting in [10, 50] the fov stays there, and each frame it comes 6 closer to the target or reaches it. */
  lemma FovBounds(fov: real, aiming: bool)
    requires FOV_AIMING <= fov <= FOV_NORMAL
    ensures FOV_AIMING <= FovStep(fov, aiming) <= FOV_NORMAL
    ensures aiming ==> FovStep(fov, aiming) == FOV_AIMING || FovStep(fov, aiming) == fov - FOV_STEP
    ensures !aiming ==> FovStep(fov, aiming) == FOV_NORMAL || FovStep(fov, aiming) == fov + FOV_STEP
  {
  }

  /** The fov after `n` frames with the same aiming state. */
  function FovAfter(fov: real, aiming: bool, n: nat): real
    decreases n
  {
    if n == 0 then fov else FovAfter(FovStep(fov, aiming), aiming, n - 1)
  }

  /** Once 6·n covers the distance to the target, n frames reach it: 7 frames from anywhere in [10, 50]. */
  lemma {:induction false} FovSettles(fov: real, aiming: bool, n: nat)
    requires FOV_AIMING <= fov <= FOV_NORMAL
    requires aiming ==> (n as real) * FOV_STEP >= fov - FOV_AIMING
    requires !aiming ==> (n as real) * FOV_STEP >= FOV_NORMAL - fov
    ensures FovAfter(fov, aiming, n) == if aiming then FOV_AIMING else FOV_NORMAL
    decreases n
  {
    var target := if aiming then FOV_AIMING else FOV_NORMAL;
    if n == 0 {
      assert fov == target;
    } else {
      FovBounds(fov, aiming);
      var next := FovStep(fov, aiming);
      assert ((n - 1) as real) * FOV_STEP == (n as real) * FOV_STEP - FOV_STEP;
      FovSettles(next, aiming, n - 1);
    }
  }

  /** drawCircle: a stroked ring for a non-zero thickness, a filled disc otherwise, in its bounding box. */
  function CircleCall(x: real, y: real, radius: real, color: int, thickness: real): (c: DrawCall)
    ensures c.StrokeCircle? <==> thickness != 0.0
    ensures c.FillCircle? <==> thickness == 0.0
    ensures c.diameter == 2.0 * radius && c.x + radius == x && c.y + radius == y && c.color == color
  {
    if thickness != 0.0 then StrokeCircle(x - radius, y - radius, radius * 2.0, thickness, color)
    else FillCircle(x - radius, y - radius, radius * 2.0, color)
  }

  /** The movement window: its ring, and the knob at the centre or at the finger's clamped offset. */
  function MovementCalls(screenWidth: real, screenHeight: real, isOpen: bool, fingerHeld: bool, knob: (real, real)): seq<DrawCall>
  {
    var cx := X_PAD + RING_RADIUS;
    var cy := screenHeight - Y_PAD - RING_RADIUS;
    [Begin("controls", Rect(0.0, screenHeight / 2.0, screenWidth / 2.0, screenHeight / 2.0), NO_BACKGROUND)]
    + (if isOpen then
         [CircleCall(cx, cy, RING_RADIUS, RING_COLOR, RING_THICKNESS),
          if fingerHeld then CircleCall(cx + knob.0, cy + knob.1, INNER_RADIUS, INNER_COLOR, 0.0)
          else CircleCall(cx, cy, INNER_RADIUS, INNER_COLOR, 0.0)]
       else [])
    + [End]
  }

  /** The aiming window: its ring, and the knob at the centre or at the rotation finger's clamped offset. */
  function AimingCalls(screenWidth: real, screenHeight: real, isOpen: bool, aiming: bool, knob: (real, real)): seq<DrawCall>
  {
    var cx := screenWidth - X_PAD - RING_RADIUS;
    var cy := screenHeight - Y_PAD - RING_RADIUS;
    [Begin("aiming", Rect(screenWidth / 2.0, screenHeight / 2.0, screenWidth / 2.0, screenHeight / 2.0), NO_BACKGROUND)]
    + (if isOpen then
         [CircleCall(cx, cy, RING_RADIUS, RING_COLOR, RING_THICKNESS),
          if aiming then CircleCall(cx + knob.0, cy + knob.1, INNER_RADIUS, INNER_COLOR, 0.0)
          else CircleCall(cx, cy, INNER_RADIUS, INNER_COLOR, 0.0)]
       else [])
    + [End]
  }

  /** The shot window: the quick-shot disc, only while aiming. */
  function ShotCalls(screenWidth: real, screenHeight: real, isOpen: bool, aiming: bool): seq<DrawCall>
  {
    [Begin("shot", Rect(0.0, 0.0, screenWidth / 2.0, screenHeight / 2.0), NO_BACKGROUND)]
    + (if isOpen && aiming then [CircleCall(QUICK_SHOT_X, QUICK_SHOT_Y, SHOT_QUICK_RADIUS, SHOT_QUICK_COLOR, 0.0)] else [])
    + [End]
  }

  /** Every control window is closed again whatever begin returned. */
  lemma WindowsBracketed(screenWidth: real, screenHeight: real, isOpen: bool, flag: bool, knob: (real, real))
    ensures var cs := MovementCalls(screenWidth, screenHeight, isOpen, flag, knob);
      cs[0].Begin? && cs[|cs| - 1] == End && (forall k :: 0 < k < |cs| - 1 ==> !cs[k].Begin? && cs[k] != End)
    ensures var cs := AimingCalls(screenWidth, screenHeight, isOpen, flag, knob);
      cs[0].Begin? && cs[|cs| - 1] == End && (forall k :: 0 < k < |cs| - 1 ==> !cs[k].Begin? && cs[k] != End)
    ensures var cs := ShotCalls(screenWidth, screenHeight, isOpen, flag);
      cs[0].Begin? && cs[|cs| - 1] == End && (forall k :: 0 < k < |cs| - 1 ==> !cs[k].Begin? && cs[k] != End)
  {
  }

  // ---------------------------------------------------------------------
  // The controls object

  class AndroidControls {
    var forward: bool
    var backwards: bool
    var left: bool
    var right: bool
    var width: int
    var height: int
    var controlsFingerId: int
    var controlsX: real
    var controlsY: real
    var rotFingerId: int
    var lastRotX: real
    var lastRotY: real
    var deltaRotX: real
    var deltaRotY: real
    var sensitivity: real
    var shoting: bool
    var aiming: bool
    var waitingUntilExitAimZone: bool
    var shotingId: int
    /** The renderer's field of view, which draw adjusts. */
    var fov: real

    function State(): Touch
      reads this
    {
      Touch(controlsFingerId, controlsX, controlsY, rotFingerId, lastRotX, lastRotY, deltaRotX, deltaRotY,
            sensitivity, shoting, aiming, waitingUntilExitAimZone, shotingId)
    }

    function Moving(): Direction
      reads this
    {
      Direction(forward, backwards, left, right)
    }

    /** What the touch handlers leave alone: the screen size, the direction flags and the field of view. */
    function Untouched(): (int, int, Direction, real)
      reads this
    {
      (width, height, Moving(), fov)
    }

    ghost predicate Valid()
      reads this
    {
      Consistent(State())
    }

    constructor (fov: real)
      ensures Valid() && State() == INITIAL_TOUCH && Moving() == STILL
      ensures width == 100 && height == 100 && this.fov == fov
    {
      forward, backwards, left, right := false, false, false, false;
      width, height := 100, 100;
      controlsFingerId, controlsX, controlsY := NO_FINGER, 0.0, 0.0;
      rotFingerId, lastRotX, lastRotY, deltaRotX, deltaRotY := NO_FINGER, 0.0, 0.0, 0.0, 0.0;
      sensitivity := SENSITIVITY_DEFAULT;
      shoting, aiming, waitingUntilExitAimZone, shotingId := false, false, false, NO_FINGER;
      this.fov := fov;
    }

    /** pointerUpdate: the finger bookkeeping moves by PointerStep; nothing else changes. */
    method PointerUpdate(id: nat, action: Action, x: real, y: real)
      modifies this
      ensures State() == PointerStep(old(State()), old(width), old(height), id, action, x, y)
      ensures Untouched() == old(Untouched())
    {
      match action
      case Down => PointerDown(id, x, y);
      case Move => PointerMove(id, x, y);
      case Up => PointerUp(id);
    }

    method PointerDown(id: nat, x: real, y: real)
      modifies this
      ensures State() == PointerStep(old(State()), old(width), old(height), id, Down, x, y)
      ensures Untouched() == old(Untouched())
    {
      if LeftHalf(width, x) {
        MovementDown(id, x, y);
      } else {
        RotationDown(id, x, y);
      }
    }

    /** A DOWN on the left half: a shot, or the movement finger. */
    method MovementDown(id: nat, x: real, y: real)
      modifies this
      ensures State() == MovementDownStep(old(State()), id, x, y)
      ensures Untouched() == old(Untouched())
    {
      if shotingId == NO_FINGER && InCircle(QUICK_SHOT_X, QUICK_SHOT_Y, SHOT_QUICK_RADIUS, x, y) && aiming {
        shoting := true;
        shotingId := id;
      } else if controlsFingerId == NO_FINGER {
        controlsFingerId := id;
        controlsX := x;
        controlsY := y;
      }
    }

    /** A DOWN on the right half: the rotation finger, aiming inside the ring. */
    method RotationDown(id: nat, x: real, y: real)
      modifies this
      ensures State() == RotationDownStep(old(State()), old(width), old(height), id, x, y)
      ensures Untouched() == old(Untouched())
    {
      if rotFingerId == NO_FINGER {
        var inRing := InAimRing(width, height, x, y);
        rotFingerId, lastRotX, lastRotY := id, x, y;
        deltaRotX, deltaRotY := 0.0, 0.0;
        if inRing {
          aiming := true;
          waitingUntilExitAimZone := false;
          sensitivity := SENSITIVITY_AIMING;
        } else {
          sensitivity := SENSITIVITY_DEFAULT;
        }
      }
    }

    method PointerMove(id: nat, x: real, y: real)
      modifies this
      ensures State() == MoveStep(old(State()), old(width), old(height), id, x, y)
      ensures Untouched() == old(Untouched())
    {
      if id == rotFingerId {
        RotationMove(x, y);
      } else if id == controlsFingerId {
        controlsX := x;
        controlsY := y;
      }
    }

    /** The rotation finger's MOVE; a move still inside the aim corner only updates the last position. */
    method RotationMove(x: real, y: real)
      modifies this
      ensures State() == RotationMoveStep(old(State()), old(width), old(height), x, y)
      ensures Untouched() == old(Untouched())
    {
      if InAimCorner(width, height, x, y) && waitingUntilExitAimZone {
        lastRotX := x;
        lastRotY := y;
      } else {
        waitingUntilExitAimZone := false;
        deltaRotX := deltaRotX + (x - lastRotX) * sensitivity;
        deltaRotY := deltaRotY + (y - lastRotY) * sensitivity;
        lastRotX := x;
        lastRotY := y;
      }
    }

    method PointerUp(id: nat)
      modifies this
      ensures State() == UpStep(old(State()), id)
      ensures Untouched() == old(Untouched())
    {
      if id == rotFingerId {
        rotFingerId := NO_FINGER;
        aiming := false;
        waitingUntilExitAimZone := false;
      } else if id == controlsFingerId {
        controlsFingerId := NO_FINGER;
      } else if id == shotingId {
        shoting := false;
        shotingId := NO_FINGER;
      }
    }

    /** processEvent: the finger bookkeeping moves by EventStep and stays consistent. */
    method ProcessEvent(e: MotionEvent)
      requires Valid() && e.actionIndex < |e.pointers|
      modifies this
      ensures Valid()
      ensures State() == EventStep(old(State()), old(width), old(height), e)
      ensures Untouched() == old(Untouched())
    {
      EventConsistent(State(), width, height, e);
      var pointerIndex := e.actionIndex;
      var pointerId := e.pointers[pointerIndex].id;
      var maskedAction := e.actionMasked;
      if maskedAction == ACTION_DOWN || maskedAction == ACTION_POINTER_DOWN {
        PointerUpdate(pointerId, Down, e.pointers[pointerIndex].x, e.pointers[pointerIndex].y);
      } else if maskedAction == ACTION_MOVE {
        var pointerCount := |e.pointers|;
        var i := 0;
        while i < pointerCount
          invariant 0 <= i <= pointerCount
          invariant State() == MoveSteps(old(State()), width, height, e.historySize, e.pointers[..i])
          invariant Untouched() == old(Untouched())
        {
          assert e.pointers[..i + 1][..i] == e.pointers[..i];
          var p := e.pointers[i];
          if e.historySize > 0 {
            if p.x != p.historicalX || p.y != p.historicalY {
              pointerId := p.id;
              PointerUpdate(pointerId, Move, p.x, p.y);
            }
          }
          i := i + 1;
        }
        assert e.pointers[..i] == e.pointers;
      } else if maskedAction == ACTION_UP || maskedAction == ACTION_POINTER_UP {
        PointerUpdate(pointerId, Up, e.pointers[pointerIndex].x, e.pointers[pointerIndex].y);
      }
    }

    /** drawCircle on the controls' drawer. */
    static method DrawCircle(drawer: Drawer, x: real, y: real, radius: real, color: int, thickness: real := 0.0)
      modifies drawer
      ensures drawer.calls == old(drawer.calls) + [CircleCall(x, y, radius, color, thickness)]
    {
      if thickness != 0.0 {
        drawer.Record(StrokeCircle(x - radius, y - radius, radius * 2.0, thickness, color));
      } else {
        drawer.Record(FillCircle(x - radius, y - radius, radius * 2.0, color));
      }
    }

    /**
     * updateAndDrawMovement: inside the window the direction flags follow
     * the sector of the heading while the movement finger is held and are
     * all cleared otherwise; when begin returns false they keep their values.
     */
    method UpdateAndDrawMovement(drawer: Drawer, screenWidth: real, screenHeight: real, isOpen: bool,
                                 heading: real, knob: (real, real))
      modifies this, drawer
      ensures drawer.calls == old(drawer.calls)
        + MovementCalls(screenWidth, screenHeight, isOpen, controlsFingerId != NO_FINGER, knob)
      ensures isOpen && controlsFingerId == NO_FINGER ==> Moving() == STILL
      ensures isOpen && controlsFingerId != NO_FINGER ==> Moving() == DirectionOf(SectorOf(heading))
      ensures !isOpen ==> Moving() == old(Moving())
      ensures State() == old(State()) && width == old(width) && height == old(height) && fov == old(fov)
    {
      DrawMovement(drawer, screenWidth, screenHeight, isOpen, controlsFingerId != NO_FINGER, knob);
      if isOpen {
        Steer(heading);
      }
    }

    /** The drawing half of updateAndDrawMovement: the ring, and the knob at the centre or at the finger. */
    static method DrawMovement(drawer: Drawer, screenWidth: real, screenHeight: real, isOpen: bool,
                               fingerHeld: bool, knob: (real, real))
      modifies drawer
      ensures drawer.calls == old(drawer.calls) + MovementCalls(screenWidth, screenHeight, isOpen, fingerHeld, knob)
    {
      var centerX := X_PAD + RING_RADIUS;
      var centerY := screenHeight - Y_PAD - RING_RADIUS;
      drawer.Record(Begin("controls", Rect(0.0, screenHeight / 2.0, screenWidth / 2.0, screenHeight / 2.0), NO_BACKGROUND));
      if isOpen {
        DrawCircle(drawer, centerX, centerY, RING_RADIUS, RING_COLOR, RING_THICKNESS);
        if !fingerHeld {
          DrawCircle(drawer, centerX, centerY, INNER_RADIUS, INNER_COLOR, 0.0);
        } else {
          DrawCircle(drawer, centerX + knob.0, centerY + knob.1, INNER_RADIUS, INNER_COLOR, 0.0);
        }
      }
      drawer.Record(End);
    }

    /** The steering half of updateAndDrawMovement: no movement finger stops, otherwise the heading's sector moves. */
    method Steer(heading: real)
      modifies this
      ensures controlsFingerId == NO_FINGER ==> Moving() == STILL
      ensures controlsFingerId != NO_FINGER ==> Moving() == DirectionOf(SectorOf(heading))
      ensures State() == old(State()) && width == old(width) && height == old(height) && fov == old(fov)
    {
      if controlsFingerId == NO_FINGER {
        left := false;
        right := false;
        forward := false;
        backwards := false;
      } else {
        var angle := TruncDiv(TruncReal(heading), 360 / 8);
        left := angle == 3 || angle == -3;
        right := angle == 0;
        forward := angle == -1 || angle == -2;
        backwards := angle == 1 || angle == 2;
      }
    }

    /** drawAiming: the aim ring, with the knob following the rotation finger while aiming. */
    method DrawAiming(drawer: Drawer, screenWidth: real, screenHeight: real, isOpen: bool, knob: (real, real))
      modifies drawer
      ensures drawer.calls == old(drawer.calls) + AimingCalls(screenWidth, screenHeight, isOpen, aiming, knob)
    {
      var centerX := screenWidth - X_PAD - RING_RADIUS;
      var centerY := screenHeight - Y_PAD - RING_RADIUS;
      drawer.Record(Begin("aiming", Rect(screenWidth / 2.0, screenHeight / 2.0, screenWidth / 2.0, screenHeight / 2.0), NO_BACKGROUND));
      if isOpen {
        DrawCircle(drawer, centerX, centerY, RING_RADIUS, RING_COLOR, RING_THICKNESS);
        if !aiming {
          DrawCircle(drawer, centerX, centerY, INNER_RADIUS, INNER_COLOR, 0.0);
        } else {
          DrawCircle(drawer, centerX + knob.0, centerY + knob.1, INNER_RADIUS, INNER_COLOR, 0.0);
        }
      }
      drawer.Record(End);
    }

    /** drawShotButtons: the quick-shot disc while aiming. */
    method DrawShotButtons(drawer: Drawer, screenWidth: real, screenHeight: real, isOpen: bool)
      modifies drawer
      ensures drawer.calls == old(drawer.calls) + ShotCalls(screenWidth, screenHeight, isOpen, aiming)
    {
      drawer.Record(Begin("shot", Rect(0.0, 0.0, screenWidth / 2.0, screenHeight / 2.0), NO_BACKGROUND));
      if isOpen {
        if aiming {
          DrawCircle(drawer, QUICK_SHOT_X, QUICK_SHOT_Y, SHOT_QUICK_RADIUS, SHOT_QUICK_COLOR);
        }
      }
      drawer.Record(End);
    }

    /**
     * draw: store the screen size (Float.toInt), draw the three windows
     * (`movementOpen`, `aimingOpen` and `shotOpen` are what their begin
     * calls return), then move the field of view by FovStep.  The heading
     * and the two knob offsets stand for the float geometry of the frame.
     */
    method Draw(drawer: Drawer, screenWidth: real, screenHeight: real,
                movementOpen: bool, aimingOpen: bool, shotOpen: bool,
                heading: real, movementKnob: (real, real), aimKnob: (real, real))
      requires Valid()
      modifies this, drawer
      ensures Valid() && State() == old(State())
      ensures width == TruncReal(screenWidth) && height == TruncReal(screenHeight)
      ensures drawer.calls == old(drawer.calls)
        + MovementCalls(screenWidth, screenHeight, movementOpen, controlsFingerId != NO_FINGER, movementKnob)
        + AimingCalls(screenWidth, screenHeight, aimingOpen, aiming, aimKnob)
        + ShotCalls(screenWidth, screenHeight, shotOpen, aiming)
      ensures movementOpen && controlsFingerId == NO_FINGER ==> Moving() == STILL
      ensures movementOpen && controlsFingerId != NO_FINGER ==> Moving() == DirectionOf(SectorOf(heading))
      ensures !movementOpen ==> Moving() == old(Moving())
      ensures fov == FovStep(old(fov), aiming)
    {
      width := TruncReal(screenWidth);
      height := TruncReal(screenHeight);
      UpdateAndDrawMovement(drawer, screenWidth, screenHeight, movementOpen, heading, movementKnob);
      DrawAiming(drawer, screenWidth, screenHeight, aimingOpen, aimKnob);
      DrawShotButtons(drawer, screenWidth, screenHeight, shotOpen);
      if aiming {
        fov := Max(fov + -FOV_STEP, FOV_AIMING);
      } else {
        fov := Min(fov + FOV_STEP, FOV_NORMAL);
      }
    }

    /** readDone: the rotation deltas decay to 70% once read. */
    method ReadDone()
      modifies this`deltaRotX, this`deltaRotY
      ensures deltaRotX == old(deltaRotX) * 0.7 && deltaRotY == old(deltaRotY) * 0.7
      ensures State() == old(State()).(deltaRotX := deltaRotX, deltaRotY := deltaRotY)
      ensures Moving() == old(Moving()) && width == old(width) && height == old(height) && fov == old(fov)
    {
      deltaRotX := deltaRotX * 0.7;
      deltaRotY := deltaRotY * 0.7;
    }
  }
}
