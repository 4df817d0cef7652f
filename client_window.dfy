/**
 * The desktop client's Window (src/main/kotlin/com/peinbol/client/Window.kt):
 * the UI-element registry that forwards drawables to the Nuklear drawer,
 * the camera fields behind their clamping setters, the mouse deltas, and
 * the list of boxes to draw.  GLFW window set-up, drawing and the frame
 * loop are outside the model; the drawer's and GLFW's calls are recorded.
 */
module ClientWindow {
  import opened Wrappers
  import Util
  import opened UiRegistry
  import Boxes

  /** What the window asks of its Nuklear drawer (NkGLBackend). */
  datatype DrawerCall = AddDrawable(d: Drawable) | RemoveDrawable(d: Drawable)

  datatype CursorMode = CursorNormal | CursorHidden

  /** The GLFW cursor calls the mouseVisible setter makes. */
  datatype CursorCall = SetInputMode(mode: CursorMode) | SetCursorPos(x: real, y: real)

  /** The cursor mode the mouseVisible setter selects: a visible mouse means a captured, hidden cursor. */
  function CursorModeFor(visible: bool): CursorMode
  {
    if !visible then CursorNormal else CursorHidden
  }

  class Window {
    var width: int
    var height: int
    var boxes: seq<Boxes.Box>
    var fov: real
    var aspectRatioMultiplier: real
    var cameraPosX: real
    var cameraPosY: real
    var cameraPosZ: real
    var cameraRotX: real
    var cameraRotY: real
    var cameraRotZ: real
    var mouseDeltaX: real
    var mouseDeltaY: real
    var mouseVisible: bool
    var uiDrawables: map<ClassName, Drawable>
    var drawerCalls: seq<DrawerCall>
    var cursorCalls: seq<CursorCall>

    /** Angles and deltas within their setters' ranges. */
    ghost predicate Valid()
      reads this
    {
      -Util.MAX_PITCH <= cameraRotX <= Util.MAX_PITCH
      && -Util.FULL_TURN < cameraRotY < Util.FULL_TURN
      && -Util.FULL_TURN < cameraRotZ < Util.FULL_TURN
    }

    constructor ()
      ensures Valid()
      ensures width == 800 && height == 600 && boxes == [] && fov == 30.0 && aspectRatioMultiplier == 1.0
      ensures cameraPosX == 0.0 && cameraPosY == 0.0 && cameraPosZ == 0.0
      ensures cameraRotX == 0.0 && cameraRotY == 0.0 && cameraRotZ == 0.0
      ensures mouseDeltaX == 0.0 && mouseDeltaY == 0.0 && !mouseVisible
      ensures uiDrawables == map[] && drawerCalls == [] && cursorCalls == []
    {
      width := 800;
      height := 600;
      boxes := [];
      fov := 30.0;
      aspectRatioMultiplier := 1.0;
      cameraPosX, cameraPosY, cameraPosZ := 0.0, 0.0, 0.0;
      cameraRotX, cameraRotY, cameraRotZ := 0.0, 0.0, 0.0;
      mouseDeltaX, mouseDeltaY := 0.0, 0.0;
      mouseVisible := false;
      uiDrawables := map[];
      drawerCalls := [];
      cursorCalls := [];
    }

    /** registerUIElement: on success the drawable is also handed to the drawer, once. */
    method RegisterUIElement(clazz: ClassName, drawable: Drawable) returns (r: Result<(), string>)
      modifies this
      ensures r.Ok? <==> clazz !in old(uiDrawables)
      ensures r.Ok? ==> uiDrawables == Register(old(uiDrawables), clazz, drawable).value
                        && drawerCalls == old(drawerCalls) + [AddDrawable(drawable)]
      ensures r.Err? ==> uiDrawables == old(uiDrawables) && drawerCalls == old(drawerCalls)
      ensures boxes == old(boxes) && cursorCalls == old(cursorCalls) && mouseVisible == old(mouseVisible)
      ensures cameraRotX == old(cameraRotX) && cameraRotY == old(cameraRotY) && cameraRotZ == old(cameraRotZ)
    {
      var reg := Register(uiDrawables, clazz, drawable);
      if reg.Err? {
        return Err(reg.error);
      }
      uiDrawables := reg.value;
      drawerCalls := drawerCalls + [AddDrawable(drawable)];
      r := Ok(());
    }

    function GetUIElement(clazz: ClassName): Option<Drawable>
      reads this
    {
      Get(uiDrawables, clazz)
    }

    /** unregisterUIElement: on success the same drawable is taken back from the drawer. */
    method UnregisterUIElement(clazz: ClassName) returns (r: Result<(), string>)
      modifies this
      ensures r.Ok? <==> clazz in old(uiDrawables)
      ensures r.Ok? ==> uiDrawables == Unregister(old(uiDrawables), clazz).value
                        && drawerCalls == old(drawerCalls) + [RemoveDrawable(old(uiDrawables)[clazz])]
      ensures r.Err? ==> uiDrawables == old(uiDrawables) && drawerCalls == old(drawerCalls)
      ensures boxes == old(boxes) && cursorCalls == old(cursorCalls) && mouseVisible == old(mouseVisible)
      ensures cameraRotX == old(cameraRotX) && cameraRotY == old(cameraRotY) && cameraRotZ == old(cameraRotZ)
    {
      if clazz !in uiDrawables {
        return Err("class doesn't have a drawable registered.");
      }
      var drawable := uiDrawables[clazz];
      uiDrawables := uiDrawables - {clazz};
      drawerCalls := drawerCalls + [RemoveDrawable(drawable)];
      r := Ok(());
    }

    method SetCameraRotX(value: real)
      requires Valid()
      modifies this
      ensures Valid() && cameraRotX == Util.PitchOf(value)
      ensures cameraRotY == old(cameraRotY) && cameraRotZ == old(cameraRotZ)
      ensures mouseVisible == old(mouseVisible) && boxes == old(boxes) && uiDrawables == old(uiDrawables)
      ensures cameraPosX == old(cameraPosX) && cameraPosY == old(cameraPosY) && cameraPosZ == old(cameraPosZ)
      ensures fov == old(fov) && aspectRatioMultiplier == old(aspectRatioMultiplier)
    {
      cameraRotX := Util.FMod360(Util.CoerceIn(value, -85.0, 85.0));
    }

    method SetCameraRotY(value: real)
      requires Valid()
      modifies this
      ensures Valid() && cameraRotY == Util.FMod360(value)
      ensures cameraRotX == old(cameraRotX) && cameraRotZ == old(cameraRotZ)
      ensures mouseVisible == old(mouseVisible) && boxes == old(boxes) && uiDrawables == old(uiDrawables)
      ensures cameraPosX == old(cameraPosX) && cameraPosY == old(cameraPosY) && cameraPosZ == old(cameraPosZ)
      ensures fov == old(fov) && aspectRatioMultiplier == old(aspectRatioMultiplier)
    {
      cameraRotY := Util.FMod360(value);
    }

    method SetCameraRotZ(value: real)
      requires Valid()
      modifies this
      ensures Valid() && cameraRotZ == Util.FMod360(value)
      ensures cameraRotX == old(cameraRotX) && cameraRotY == old(cameraRotY)
      ensures mouseVisible == old(mouseVisible) && boxes == old(boxes) && uiDrawables == old(uiDrawables)
      ensures cameraPosX == old(cameraPosX) && cameraPosY == old(cameraPosY) && cameraPosZ == old(cameraPosZ)
      ensures fov == old(fov) && aspectRatioMultiplier == old(aspectRatioMultiplier)
    {
      cameraRotZ := Util.FMod360(value);
    }

    /** The mouseVisible setter: switch the cursor mode, re-centre the cursor, zero both deltas. */
    method SetMouseVisible(value: bool)
      requires Valid()
      modifies this
      ensures Valid() && mouseVisible == value && mouseDeltaX == 0.0 && mouseDeltaY == 0.0
      ensures cursorCalls == old(cursorCalls)
        + [SetInputMode(CursorModeFor(value)), SetCursorPos(width as real / 2.0, height as real / 2.0)]
      ensures cameraRotX == old(cameraRotX) && cameraRotY == old(cameraRotY) && cameraRotZ == old(cameraRotZ)
      ensures boxes == old(boxes) && uiDrawables == old(uiDrawables) && drawerCalls == old(drawerCalls)
      ensures width == old(width) && height == old(height)
    {
      if !value {
        cursorCalls := cursorCalls + [SetInputMode(CursorNormal)];
      } else {
        cursorCalls := cursorCalls + [SetInputMode(CursorHidden)];
      }
      cursorCalls := cursorCalls + [SetCursorPos(width as real / 2.0, height as real / 2.0)];
      mouseDeltaX := 0.0;
      mouseDeltaY := 0.0;
      mouseVisible := value;
    }
  }
}
