/**
 * The UIDrawer interface the overlays draw through (a thin layer over the
 * Nuklear context): every call is recorded in `calls`.  What `begin`
 * returns is decided by Nuklear and is a parameter of each drawing method.
 */
module UiDrawing {
  datatype Rect = Rect(x: real, y: real, w: real, h: real)

  datatype DrawCall =
    | Begin(title: string, rect: Rect, background: int)
    | LayoutRowDynamic(height: real, columns: int)
    | Label(text: string, align: int)
    | StrokeCircle(x: real, y: real, diameter: real, thickness: real, color: int)
    | FillCircle(x: real, y: real, diameter: real, color: int)
    | End

  class Drawer {
    var calls: seq<DrawCall>

    constructor ()
      ensures calls == []
    {
      calls := [];
    }

    method Record(c: DrawCall)
      modifies this
      ensures calls == old(calls) + [c]
    {
      calls := calls + [c];
    }
  }
}
