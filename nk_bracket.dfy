/**
 * The window brackets of the desktop client's Nuklear helpers
 * (src/main/kotlin/com/peinbol/client/NkUIDrawable.kt): a transparent window
 * pushes two style overrides, opens the window, runs its contents only if
 * the window is open, closes it and pops the overrides again; the default
 * window does the same without the overrides.
 *
 * The Nuklear context is a class whose calls are recorded in `trace` and
 * whose two style stacks are fields; what nk_begin returns (window open and
 * not collapsed) is decided inside Nuklear and is a parameter here, and the
 * caller's block is a single `RunBlock` event.
 */
module NkBracket {
  /** The style slots the helpers override. */
  datatype Slot = WindowBackground | WindowFixedBackground

  datatype Rgba = Rgba(r: int, g: int, b: int, a: int)

  datatype StyleItem = ItemColor(color: Rgba)

  datatype UiCall =
    | PushColor(slot: Slot, color: Rgba)
    | PushStyleItem(slot: Slot, item: StyleItem)
    | Begin(title: string, x: real, y: real, w: real, h: real, flags: int)
    | RunBlock
    | End
    | PopStyleItem
    | PopColor

  /** nk_rgba(0, 0, 0, 0). */
  const TRANSPARENT := Rgba(0, 0, 0, 0)

  /** NK_WINDOW_NO_SCROLLBAR, the default flags. */
  const NK_WINDOW_NO_SCROLLBAR := 32

  /** The calls of nkBeginTransparentWindow when nk_begin returns `isOpen`. */
  function TransparentCalls(title: string, x: real, y: real, w: real, h: real, flags: int, isOpen: bool): seq<UiCall>
  {
    [PushColor(WindowBackground, TRANSPARENT),
     PushStyleItem(WindowFixedBackground, ItemColor(TRANSPARENT)),
     Begin(title, x, y, w, h, flags)]
    + (if isOpen then [RunBlock] else [])
    + [End, PopStyleItem, PopColor]
  }

  /** The calls of nkBeginDefaultWindow when nk_begin returns `isOpen`. */
  function DefaultCalls(title: string, x: real, y: real, w: real, h: real, flags: int, isOpen: bool): seq<UiCall>
  {
    [Begin(title, x, y, w, h, flags)] + (if isOpen then [RunBlock] else []) + [End]
  }

  /** How many style entries a call leaves pushed. */
  function DepthChange(c: UiCall): int
  {
    match c
    case PushColor(_, _) => 1
    case PushStyleItem(_, _) => 1
    case PopStyleItem => -1
    case PopColor => -1
    case _ => 0
  }

  /** The net style-stack depth a call sequence leaves behind. */
  function Depth(cs: seq<UiCall>): int
  {
    if cs == [] then 0 else Depth(cs[..|cs| - 1]) + DepthChange(cs[|cs| - 1])
  }

  lemma {:induction false} DepthAppend(a: seq<UiCall>, b: seq<UiCall>)
    ensures Depth(a + b) == Depth(a) + Depth(b)
  {
    if b == [] {
      assert a + b == a;
    } else {
      DepthAppend(a, b[..|b| - 1]);
      assert (a + b)[..|a + b| - 1] == a + b[..|b| - 1];
    }
  }

  lemma DepthOne(c: UiCall)
    ensures Depth([c]) == DepthChange(c)
  {
    assert [c][..0] == [];
  }

  /**
   * The transparent bracket leaves the style stack as deep as it found it,
   * and never has more than the two overrides pushed at any point.
   */
  lemma {:induction false} TransparentBalanced(title: string, x: real, y: real, w: real, h: real, flags: int, isOpen: bool)
    ensures Depth(TransparentCalls(title, x, y, w, h, flags, isOpen)) == 0
    ensures var cs := TransparentCalls(title, x, y, w, h, flags, isOpen);
      forall k :: 0 <= k <= |cs| ==> 0 <= Depth(cs[..k]) <= 2
  {
    var cs := TransparentCalls(title, x, y, w, h, flags, isOpen);
    var n := |cs|;
    TransparentLifo(title, x, y, w, h, flags, isOpen);
    assert Bracket(cs);
    forall k | 0 <= k <= n
      ensures 0 <= Depth(cs[..k]) <= 2 && (k == n ==> Depth(cs[..k]) == 0)
    {
      if k > 0 {
        PrefixDepth(cs, k);
      } else {
        assert cs[..k] == [];
      }
    }
    assert cs[..n] == cs;
  }

  /** The depth of a prefix of the transparent bracket: up to 2 while open, 0 at the end. */
  lemma {:induction false} PrefixDepth(cs: seq<UiCall>, k: nat)
    requires Bracket(cs)
    requires 0 < k <= |cs|
    ensures 0 <= Depth(cs[..k]) <= 2 && (k == |cs| ==> Depth(cs[..k]) == 0)
  {
    var n := |cs|;
    if k == 1 {
      PrefixStep(cs, 0);
      assert cs[..0] == [];
    } else if k <= n - 2 {
      PrefixTwo(cs, k);
    } else {
      PrefixTwo(cs, n - 2);
      PrefixStep(cs, n - 2);
      if k == n {
        PrefixStep(cs, n - 1);
      }
    }
  }

  /** Two pushes first, two pops last, and nothing in between that changes the depth. */
  predicate Bracket(cs: seq<UiCall>)
  {
    |cs| >= 4 && DepthChange(cs[0]) == 1 && DepthChange(cs[1]) == 1
    && DepthChange(cs[|cs| - 2]) == -1 && DepthChange(cs[|cs| - 1]) == -1
    && forall k :: 2 <= k < |cs| - 2 ==> DepthChange(cs[k]) == 0
  }

  /** One more call of the prefix adds its own change to the depth. */
  lemma PrefixStep(cs: seq<UiCall>, k: nat)
    requires k < |cs|
    ensures Depth(cs[..k + 1]) == Depth(cs[..k]) + DepthChange(cs[k])
  {
    assert cs[..k + 1][..k] == cs[..k];
  }

  /** Between the two pushes and the two pops both overrides are on the stack. */
  lemma {:induction false} PrefixTwo(cs: seq<UiCall>, k: nat)
    requires Bracket(cs)
    requires 2 <= k <= |cs| - 2
    ensures Depth(cs[..k]) == 2
    decreases k
  {
    if k == 2 {
      PrefixStep(cs, 0);
      PrefixStep(cs, 1);
      assert cs[..0] == [];
    } else {
      PrefixTwo(cs, k - 1);
      PrefixStep(cs, k - 1);
    }
  }

  /** Pops undo the pushes in reverse order: style item before colour. */
  lemma TransparentLifo(title: string, x: real, y: real, w: real, h: real, flags: int, isOpen: bool)
    ensures var cs := TransparentCalls(title, x, y, w, h, flags, isOpen);
      cs[0].PushColor? && cs[1].PushStyleItem?
      && cs[|cs| - 2] == PopStyleItem && cs[|cs| - 1] == PopColor
      && forall k :: 2 <= k < |cs| - 2 ==> DepthChange(cs[k]) == 0
  {
  }

  /**
   * nk_end runs exactly once whether or not the window is open, and the block
   * runs (once, between nk_begin and nk_end) if and only if it did.  The
   * overrides are both fully transparent.
   */
  lemma TransparentBlockIffOpened(title: string, x: real, y: real, w: real, h: real, flags: int, isOpen: bool)
    ensures var cs := TransparentCalls(title, x, y, w, h, flags, isOpen);
      (RunBlock in cs <==> isOpen)
      && (isOpen ==> cs[3] == RunBlock && cs[4] == End)
      && (forall i, j :: 0 <= i < j < |cs| && cs[i] == End ==> cs[j] != End)
      && End in cs
      && cs[0] == PushColor(WindowBackground, Rgba(0, 0, 0, 0))
      && cs[1] == PushStyleItem(WindowFixedBackground, ItemColor(Rgba(0, 0, 0, 0)))
  {
  }

  /** The default bracket pushes nothing, ends once, and runs the block iff the window is open. */
  lemma DefaultBracket(title: string, x: real, y: real, w: real, h: real, flags: int, isOpen: bool)
    ensures var cs := DefaultCalls(title, x, y, w, h, flags, isOpen);
      Depth(cs) == 0
      && (forall k :: 0 <= k < |cs| ==> DepthChange(cs[k]) == 0)
      && (RunBlock in cs <==> isOpen)
      && cs[|cs| - 1] == End && (forall k :: 0 <= k < |cs| - 1 ==> cs[k] != End)
  {
    var cs := DefaultCalls(title, x, y, w, h, flags, isOpen);
    var b := if isOpen then [RunBlock] else [];
    DepthAppend([Begin(title, x, y, w, h, flags)] + b, [End]);
    DepthAppend([Begin(title, x, y, w, h, flags)], b);
    DepthOne(Begin(title, x, y, w, h, flags));
    DepthOne(End);
    if isOpen {
      DepthOne(RunBlock);
    }
  }

  /** The Nuklear context: its call log and the two style stacks the helpers touch. */
  class NkContext {
    var trace: seq<UiCall>
    var colorStack: seq<(Slot, Rgba)>
    var itemStack: seq<(Slot, StyleItem)>

    constructor ()
      ensures trace == [] && colorStack == [] && itemStack == []
    {
      trace := [];
      colorStack := [];
      itemStack := [];
    }

    method PushColorOverride(slot: Slot, color: Rgba)
      modifies this
      ensures trace == old(trace) + [PushColor(slot, color)]
      ensures colorStack == old(colorStack) + [(slot, color)] && itemStack == old(itemStack)
    {
      trace := trace + [PushColor(slot, color)];
      colorStack := colorStack + [(slot, color)];
    }

    method PushItemOverride(slot: Slot, item: StyleItem)
      modifies this
      ensures trace == old(trace) + [PushStyleItem(slot, item)]
      ensures itemStack == old(itemStack) + [(slot, item)] && colorStack == old(colorStack)
    {
      trace := trace + [PushStyleItem(slot, item)];
      itemStack := itemStack + [(slot, item)];
    }

    /** nk_style_pop_color: a pop on an empty stack changes nothing. */
    method PopColorOverride()
      modifies this
      ensures trace == old(trace) + [PopColor] && itemStack == old(itemStack)
      ensures colorStack == if old(colorStack) == [] then [] else old(colorStack)[..|old(colorStack)| - 1]
    {
      trace := trace + [PopColor];
      if colorStack != [] {
        colorStack := colorStack[..|colorStack| - 1];
      }
    }

    /** nk_style_pop_style_item: a pop on an empty stack changes nothing. */
    method PopItemOverride()
      modifies this
      ensures trace == old(trace) + [PopStyleItem] && colorStack == old(colorStack)
      ensures itemStack == if old(itemStack) == [] then [] else old(itemStack)[..|old(itemStack)| - 1]
    {
      trace := trace + [PopStyleItem];
      if itemStack != [] {
        itemStack := itemStack[..|itemStack| - 1];
      }
    }

    method Record(c: UiCall)
      modifies this
      ensures trace == old(trace) + [c] && colorStack == old(colorStack) && itemStack == old(itemStack)
    {
      trace := trace + [c];
    }
  }

  /** nkBeginTransparentWindow; `isOpen` is what nk_begin returns. */
  method BeginTransparentWindow(ctx: NkContext, title: string, x: real, y: real, w: real, h: real,
                                flags: int, isOpen: bool)
    modifies ctx
    ensures ctx.trace == old(ctx.trace) + TransparentCalls(title, x, y, w, h, flags, isOpen)
    ensures ctx.colorStack == old(ctx.colorStack) && ctx.itemStack == old(ctx.itemStack)
  {
    ctx.PushColorOverride(WindowBackground, TRANSPARENT);
    ctx.PushItemOverride(WindowFixedBackground, ItemColor(TRANSPARENT));
    ctx.Record(Begin(title, x, y, w, h, flags));
    if isOpen {
      ctx.Record(RunBlock);
    }
    ctx.Record(End);
    ctx.PopItemOverride();
    ctx.PopColorOverride();
  }

  /** nkBeginDefaultWindow; `isOpen` is what nk_begin returns. */
  method BeginDefaultWindow(ctx: NkContext, title: string, x: real, y: real, w: real, h: real,
                            flags: int, isOpen: bool)
    modifies ctx
    ensures ctx.trace == old(ctx.trace) + DefaultCalls(title, x, y, w, h, flags, isOpen)
    ensures ctx.colorStack == old(ctx.colorStack) && ctx.itemStack == old(ctx.itemStack)
  {
    ctx.Record(Begin(title, x, y, w, h, flags));
    if isOpen {
      ctx.Record(RunBlock);
    }
    ctx.Record(End);
  }
}
