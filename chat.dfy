/**
 * The chat overlays: the desktop ChatUI (src/main/kotlin/com/peinbol/client/
 * ChatUI.kt) and the Android one (NativeActivityTest/app/src/main/java/io/
 * snower/game/client/ChatUI.kt).  Both keep the last 20 messages with their
 * creation time, drop the ones older than 10 s when drawn, and draw one
 * right-aligned label per message in a window sized to the longest one,
 * measured as Kotlin measures it, in UTF-16 code units.
 *
 * The clock is the `now` parameter; the drawing calls are recorded in the
 * drawer's `calls`.
 */
module Chat {
  import opened UiDrawing
  import Seqs

  const MAX_MESSAGES := 20
  const MSG_EXPIRY_MILLIS := 10 * 1000
  const WIDTH_PER_CHARACTER := 8.25
  const PADDING := 15.0
  const LINE_HEIGHT := 24.0
  const ROW_HEIGHT := 20.0
  /** rgba(0, 0, 0, 100): the Android colour is 0x00000064. */
  const BLACK_TRANSPARENT := 0x64
  const TEXT_RIGHT := 2

  datatype MessageEntry = MessageEntry(msg: string, timeOfCreation: int)

  // ---------------------------------------------------------------------
  // The message log

  /** `messages += entry`, then `takeLast(20)` when the log has grown past 20. */
  function Appended(log: seq<MessageEntry>, entry: MessageEntry): (r: seq<MessageEntry>)
    ensures |r| <= MAX_MESSAGES && |r| > 0 && r[|r| - 1] == entry
    ensures |r| == if |log| + 1 > MAX_MESSAGES then MAX_MESSAGES else |log| + 1
    ensures r == (log + [entry])[|log| + 1 - |r|..]
  {
    var grown := log + [entry];
    if |grown| > MAX_MESSAGES then grown[|grown| - MAX_MESSAGES..] else grown
  }

  /** Below the bound nothing is dropped; at the bound exactly the oldest entry is. */
  lemma AppendedDropsOldest(log: seq<MessageEntry>, entry: MessageEntry)
    requires |log| <= MAX_MESSAGES
    ensures |log| < MAX_MESSAGES ==> Appended(log, entry) == log + [entry]
    ensures |log| == MAX_MESSAGES ==> Appended(log, entry) == log[1..] + [entry]
  {
    if |log| == MAX_MESSAGES {
      assert (log + [entry])[1..] == log[1..] + [entry];
    }
  }

  predicate Young(e: MessageEntry, now: int)
  {
    now - e.timeOfCreation < MSG_EXPIRY_MILLIS
  }

  /** `messages.filter { now - it.timeOfCreation < MSG_EXPIRY_MILLIS }`. */
  function Fresh(log: seq<MessageEntry>, now: int): (r: seq<MessageEntry>)
    ensures |r| <= |log|
    ensures forall e :: e in r ==> e in log && Young(e, now)
    ensures forall e :: e in log && Young(e, now) ==> e in r
  {
    if log == [] then []
    else
      var init := Fresh(log[..|log| - 1], now);
      var last := log[|log| - 1];
      assert forall e :: e in log ==> e in log[..|log| - 1] || e == last;
      if Young(last, now) then init + [last] else init
  }

  /** The filter keeps order: it distributes over concatenation. */
  lemma {:induction false} FreshAppend(a: seq<MessageEntry>, b: seq<MessageEntry>, now: int)
    ensures Fresh(a + b, now) == Fresh(a, now) + Fresh(b, now)
  {
    if b == [] {
      assert a + b == a;
    } else {
      var b', x := b[..|b| - 1], b[|b| - 1];
      FreshAppend(a, b', now);
      assert (a + b)[..|a + b| - 1] == a + b';
      assert (a + b)[|a + b| - 1] == x;
      if Young(x, now) {
        Seqs.AppendAssoc(Fresh(a, now), Fresh(b', now), [x]);
      }
    }
  }

  /** A log of young entries is kept whole. */
  lemma {:induction false} FreshKeepsYoung(log: seq<MessageEntry>, now: int)
    requires forall i :: 0 <= i < |log| ==> Young(log[i], now)
    ensures Fresh(log, now) == log
  {
    if log != [] {
      FreshKeepsYoung(log[..|log| - 1], now);
      assert log[..|log| - 1] + [log[|log| - 1]] == log;
    }
  }

  // ---------------------------------------------------------------------
  // The window

  /** Kotlin's `String.length` counts UTF-16 code units: a character above U+FFFF takes a surrogate pair. */
  function CodeUnits(c: char): (n: nat)
    ensures n == 1 || n == 2
    ensures n == 2 <==> c as int >= 0x10000
  {
    if c as int >= 0x10000 then 2 else 1
  }

  /** The length of a message as the source measures it, in UTF-16 code units. */
  function Utf16Length(s: string): (n: nat)
    ensures |s| <= n <= 2 * |s|
    ensures n == |s| <==> forall i :: 0 <= i < |s| ==> s[i] as int < 0x10000
  {
    if s == [] then 0
    else
      var init := s[..|s| - 1];
      assert forall i :: 0 <= i < |init| ==> init[i] == s[i];
      Utf16Length(init) + CodeUnits(s[|s| - 1])
  }

  /** An emoji is one character but two code units, so it is as wide as two letters. */
  lemma EmojiTakesTwoUnits()
    ensures Utf16Length("\U{1F600}") == 2
    ensures Utf16Length("ab") == 2
  {
    assert "\U{1F600}"[..0] == [];
    assert "ab"[..1] == "a" && "a"[..0] == [];
  }

  /** The length, in code units, of the longest message. */
  function LongestLength(log: seq<MessageEntry>): (n: nat)
    requires log != []
    ensures forall e :: e in log ==> Utf16Length(e.msg) <= n
    ensures exists e :: e in log && Utf16Length(e.msg) == n
  {
    if |log| == 1 then Utf16Length(log[0].msg)
    else
      var rest := LongestLength(log[1..]);
      assert forall e :: e in log ==> e == log[0] || e in log[1..];
      if Utf16Length(log[0].msg) >= rest then Utf16Length(log[0].msg) else rest
  }

  /**
   * The chat window: as wide as the longest message at 8.25 per UTF-16 code
   * unit (1 unit when empty), 24 per line, 15 from the top right.
   */
  function ChatWindow(log: seq<MessageEntry>, screenWidth: real): (r: Rect)
    ensures r.h == |log| as real * LINE_HEIGHT && r.y == PADDING
    ensures r.x + r.w + PADDING == screenWidth
    ensures log == [] ==> r.w == WIDTH_PER_CHARACTER
    ensures forall e :: e in log ==> Utf16Length(e.msg) as real * WIDTH_PER_CHARACTER <= r.w
    ensures log != [] ==> exists e :: e in log && r.w == Utf16Length(e.msg) as real * WIDTH_PER_CHARACTER
  {
    var longestMsg := if log == [] then 1 else LongestLength(log);
    var width := longestMsg as real * WIDTH_PER_CHARACTER;
    Rect(screenWidth - width - PADDING, PADDING, width, |log| as real * LINE_HEIGHT)
  }

  /** A one-emoji log gets a window two code units wide: 16.5. */
  lemma EmojiWindow(screenWidth: real, t: int)
    ensures ChatWindow([MessageEntry("\U{1F600}", t)], screenWidth).w == 16.5
  {
    EmojiTakesTwoUnits();
  }

  /** The rows the label loop draws: one dynamic row and one right-aligned label per message. */
  function Rows(log: seq<MessageEntry>): (r: seq<DrawCall>)
    ensures |r| == 2 * |log|
    ensures forall c :: c in r ==> c.LayoutRowDynamic? || c.Label?
    ensures forall i :: 0 <= i < |log| ==>
      r[2 * i] == LayoutRowDynamic(ROW_HEIGHT, 1) && r[2 * i + 1] == Label(log[i].msg, TEXT_RIGHT)
  {
    if log == [] then []
    else
      var init := log[..|log| - 1];
      var rest := Rows(init);
      assert forall i :: 0 <= i < |init| ==> init[i] == log[i];
      rest + [LayoutRowDynamic(ROW_HEIGHT, 1), Label(log[|log| - 1].msg, TEXT_RIGHT)]
  }

  /** Exactly one Begin and one End per draw, around the rows. */
  lemma BeginEndPaired(log: seq<MessageEntry>, rect: Rect, background: int, rows: seq<DrawCall>)
    requires rows == [] || rows == Rows(log)
    ensures var cs := [Begin("Chat", rect, background)] + rows + [End];
      cs[0].Begin? && cs[|cs| - 1] == End
      && forall k :: 0 < k < |cs| - 1 ==> !cs[k].Begin? && cs[k] != End
  {
    var cs := [Begin("Chat", rect, background)] + rows + [End];
    forall k | 0 < k < |cs| - 1 ensures !cs[k].Begin? && cs[k] != End {
      assert cs[k] == rows[k - 1] && rows[k - 1] in rows;
    }
  }

  /** The label loop of both draw methods. */
  method DrawRows(drawer: Drawer, messages: seq<MessageEntry>)
    modifies drawer
    ensures drawer.calls == old(drawer.calls) + Rows(messages)
  {
    var i := 0;
    while i < |messages|
      invariant 0 <= i <= |messages|
      invariant drawer.calls == old(drawer.calls) + Rows(messages[..i])
    {
      assert messages[..i + 1][..i] == messages[..i];
      drawer.Record(LayoutRowDynamic(ROW_HEIGHT, 1));
      drawer.Record(Label(messages[i].msg, TEXT_RIGHT));
      i := i + 1;
    }
    assert messages[..i] == messages;
  }

  /** The desktop chat overlay. */
  class DesktopChatUI {
    var messages: seq<MessageEntry>

    /** The log never holds more than the last 20 messages. */
    ghost predicate Valid()
      reads this
    {
      |messages| <= MAX_MESSAGES
    }

    constructor ()
      ensures Valid() && messages == []
    {
      messages := [];
    }

    method AddMessage(msg: string, now: int)
      modifies this
      ensures Valid() && messages == Appended(old(messages), MessageEntry(msg, now))
    {
      messages := messages + [MessageEntry(msg, now)];
      if |messages| > 20 {
        messages := messages[|messages| - 20..];
      }
    }

    /**
     * draw: expire old entries, then open the transparent "Chat" window;
     * the labels are drawn only if the window opened (`isOpen`).  Begin stands
     * for nkBeginTransparentWindow called with `background =` the chat's
     * translucent black.  The helper in NkUIDrawable.kt:10-18 declares no
     * such parameter, so this call is modelled against a version of the
     * helper that takes one: Begin records the background asked for, and
     * the push/pop bracket of the helper as written is NkBracket's.
     */
    method Draw(drawer: Drawer, screenWidth: real, screenHeight: real, now: int, isOpen: bool)
      modifies this, drawer
      ensures old(Valid()) ==> Valid()
      ensures messages == Fresh(old(messages), now)
      ensures drawer.calls == old(drawer.calls)
        + [Begin("Chat", ChatWindow(messages, screenWidth), BLACK_TRANSPARENT)]
        + (if isOpen then Rows(messages) else [])
        + [End]
    {
      messages := Fresh(messages, now);
      var rect := ChatWindow(messages, screenWidth);
      drawer.Record(Begin("Chat", rect, BLACK_TRANSPARENT));
      if isOpen {
        DrawRows(drawer, messages);
      }
      drawer.Record(End);
    }
  }

  /** The Android chat overlay, which can be hidden. */
  class AndroidChatUI {
    var messages: seq<MessageEntry>
    var visible: bool

    /** The log never holds more than the last 20 messages. */
    ghost predicate Valid()
      reads this
    {
      |messages| <= MAX_MESSAGES
    }

    constructor ()
      ensures Valid() && messages == [] && visible
    {
      messages := [];
      visible := true;
    }

    method AddMessage(msg: string, now: int)
      modifies this
      ensures Valid() && messages == Appended(old(messages), MessageEntry(msg, now)) && visible == old(visible)
    {
      messages := messages + [MessageEntry(msg, now)];
      if |messages| > 20 {
        messages := messages[|messages| - 20..];
      }
    }

    /**
     * draw: nothing at all while hidden (not even the expiry); otherwise
     * expire, then begin, one row per message whatever begin returned, end.
     */
    method Draw(drawer: Drawer, screenWidth: real, screenHeight: real, now: int)
      modifies this, drawer
      ensures old(Valid()) ==> Valid()
      ensures visible == old(visible)
      ensures !visible ==> messages == old(messages) && drawer.calls == old(drawer.calls)
      ensures visible ==> (messages == Fresh(old(messages), now)
        && drawer.calls == old(drawer.calls)
           + [Begin("Chat", ChatWindow(messages, screenWidth), BLACK_TRANSPARENT)]
           + Rows(messages) + [End])
    {
      if !visible {
        return;
      }
      messages := Fresh(messages, now);
      var rect := ChatWindow(messages, screenWidth);
      drawer.Record(Begin("Chat", rect, BLACK_TRANSPARENT));
      DrawRows(drawer, messages);
      drawer.Record(End);
    }
  }
}
