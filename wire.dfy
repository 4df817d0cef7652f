/**
 * The binary framing of src/main/kotlin/com/peinbol/Messages.kt.
 *
 * Every frame is a 4-byte type tag followed by a payload whose length is
 * fixed per tag.  Ints are 4 bytes big-endian two's complement, booleans one
 * byte, doubles the 8 big-endian bytes of their IEEE 754 binary64 pattern
 * (the codec never does arithmetic on them, so they stay opaque here).
 */
module Messages {
  import opened Wrappers
  import Util
  import Seqs

  type byte = x: int | 0 <= x < 0x100
  type int32 = x: int | -0x8000_0000 <= x < 0x8000_0000
  /** The raw binary64 bit pattern of a Kotlin Double. */
  type Double = x: int | 0 <= x < 0x1_0000_0000_0000_0000

  // client-to-server
  const SYNC_INPUT_STATE: int32 := 1
  // server-to-client
  const SPAWN_BOX: int32 := 2
  const UPDATE_BOX: int32 := 3
  const SPAWN_PLAYER: int32 := 4

  /** How many payload bytes follow each tag. */
  const MESSAGE_TYPE_BYTES: map<int32, nat> := map[
    SYNC_INPUT_STATE := 1 * 7 + 8 * 2,
    SPAWN_PLAYER := 4,
    UPDATE_BOX := 4 + 8 * 3 + 8 * 3,
    SPAWN_BOX := 4 + 8 * 3 + 8 * 3 + 8 * 3 + 1
  ]

  datatype Message =
    | InputState(forward: bool, backwards: bool, left: bool, right: bool,
                 fire: bool, jump: bool, walk: bool, cameraX: Double, cameraY: Double)
    | Spawn(boxId: int32)
    | BoxAdded(id: int32, x: Double, y: Double, z: Double,
               sx: Double, sy: Double, sz: Double,
               vx: Double, vy: Double, vz: Double, affectedByPhysics: bool)
    | BoxUpdateMotion(id: int32, x: Double, y: Double, z: Double,
                      vx: Double, vy: Double, vz: Double)

  /** What `send` may be handed: one of the four message classes, or any other object. */
  datatype Outgoing = Known(msg: Message) | OtherObject

  datatype Error =
    | IndexOutOfBounds          // a read past the readable bytes
    | InvalidMessageType(tag: int32)   // error(...) in receive
    | InvalidMessageObject      // error(...) in send
    | NoSizeForType(tag: int32) // the `!!` on MESSAGE_TYPE_BYTES in the decoder

  // ---------------------------------------------------------------------
  // Primitive encodings

  function Pow256(n: nat): (p: nat)
    ensures p > 0
  {
    if n == 0 then 1 else 256 * Pow256(n - 1)
  }

  lemma DivBelow(v: nat, p: nat)
    requires v < 256 * p
    ensures v / 256 < p
  {
  }

  lemma ShiftBelow(hi: nat, lo: byte, p: nat)
    requires hi < p
    ensures hi * 256 + lo < 256 * p
  {
    assert hi * 256 <= (p - 1) * 256;
  }

  /** The n-byte big-endian representation of v. */
  function ToBigEndian(v: nat, n: nat): (r: seq<byte>)
    requires v < Pow256(n)
    ensures |r| == n
  {
    if n == 0 then []
    else
      DivBelow(v, Pow256(n - 1));
      ToBigEndian(v / 256, n - 1) + [v % 256]
  }

  /** The value of a big-endian byte string; it fits the string's width. */
  function FromBigEndian(s: seq<byte>): (v: nat)
    ensures v < Pow256(|s|)
  {
    if s == [] then 0
    else
      var hi := FromBigEndian(s[..|s| - 1]);
      ShiftBelow(hi, s[|s| - 1], Pow256(|s| - 1));
      hi * 256 + s[|s| - 1]
  }

  lemma {:induction false} FromToBigEndian(v: nat, n: nat)
    requires v < Pow256(n)
    ensures FromBigEndian(ToBigEndian(v, n)) == v
  {
    if n > 0 {
      DivBelow(v, Pow256(n - 1));
      var s := ToBigEndian(v, n);
      assert s[..n - 1] == ToBigEndian(v / 256, n - 1);
      FromToBigEndian(v / 256, n - 1);
    }
  }

  lemma {:induction false} ToFromBigEndian(s: seq<byte>)
    ensures ToBigEndian(FromBigEndian(s), |s|) == s
  {
    if s != [] {
      var n := |s|;
      var hi := FromBigEndian(s[..n - 1]);
      Util.DivModUnique(hi * 256 + s[n - 1], 256, hi, s[n - 1]);
      ToFromBigEndian(s[..n - 1]);
      assert s == s[..n - 1] + [s[n - 1]];
    }
  }

  lemma Pow256Four()
    ensures Pow256(4) == 0x1_0000_0000
  {
  }

  lemma Pow256Eight()
    ensures Pow256(8) == 0x1_0000_0000_0000_0000
  {
  }

  /** writeInt: two's complement, big-endian. */
  function IntBytes(v: int32): (r: seq<byte>)
    ensures |r| == 4
  {
    Pow256Four();
    ToBigEndian(if v < 0 then v + 0x1_0000_0000 else v, 4)
  }

  /** readInt on four bytes. */
  function IntOf(s: seq<byte>): int32
    requires |s| == 4
  {
    Pow256Four();
    var u := FromBigEndian(s);
    if u >= 0x8000_0000 then u - 0x1_0000_0000 else u
  }

  function DoubleBytes(d: Double): (r: seq<byte>)
    ensures |r| == 8
  {
    Pow256Eight();
    ToBigEndian(d, 8)
  }

  function DoubleOf(s: seq<byte>): Double
    requires |s| == 8
  {
    Pow256Eight();
    FromBigEndian(s)
  }

  /** writeBoolean writes 1 for true and 0 for false; readBoolean is true for any non-zero byte. */
  function BoolByte(b: bool): byte { if b then 1 else 0 }

  lemma IntRoundTrip(v: int32)
    ensures IntOf(IntBytes(v)) == v
  {
    Pow256Four();
    FromToBigEndian(if v < 0 then v + 0x1_0000_0000 else v, 4);
  }

  lemma DoubleRoundTrip(d: Double)
    ensures DoubleOf(DoubleBytes(d)) == d
  {
    Pow256Eight();
    FromToBigEndian(d, 8);
  }

  // ---------------------------------------------------------------------
  // Messages as byte strings

  /** The tag `send` chooses for each kind. */
  function TypeOf(m: Message): int32
  {
    match m
    case InputState(_, _, _, _, _, _, _, _, _) => SYNC_INPUT_STATE
    case Spawn(_) => SPAWN_PLAYER
    case BoxAdded(_, _, _, _, _, _, _, _, _, _, _) => SPAWN_BOX
    case BoxUpdateMotion(_, _, _, _, _, _, _) => UPDATE_BOX
  }

  /** The bytes the write* helper of m's kind appends, field by field. */
  function PayloadOf(m: Message): seq<byte>
  {
    match m
    case InputState(f, b, l, r, fire, j, w, cx, cy) =>
      [BoolByte(f), BoolByte(b), BoolByte(l), BoolByte(r), BoolByte(fire), BoolByte(j), BoolByte(w)]
      + DoubleBytes(cx) + DoubleBytes(cy)
    case Spawn(id) => IntBytes(id)
    case BoxAdded(id, x, y, z, sx, sy, sz, vx, vy, vz, a) =>
      IntBytes(id) + DoubleBytes(x) + DoubleBytes(y) + DoubleBytes(z)
      + DoubleBytes(sx) + DoubleBytes(sy) + DoubleBytes(sz)
      + DoubleBytes(vx) + DoubleBytes(vy) + DoubleBytes(vz) + [BoolByte(a)]
    case BoxUpdateMotion(id, x, y, z, vx, vy, vz) =>
      IntBytes(id) + DoubleBytes(x) + DoubleBytes(y) + DoubleBytes(z)
      + DoubleBytes(vx) + DoubleBytes(vy) + DoubleBytes(vz)
  }

  /** The buffer `send` passes to writeAndFlush: tag, then payload. */
  function FrameOf(m: Message): seq<byte>
  {
    IntBytes(TypeOf(m)) + PayloadOf(m)
  }

  /** What `send` produces for an object: the frame, or the error of its `when`. */
  function Encode(obj: Outgoing): (r: Result<seq<byte>, Error>)
    ensures r.Ok? <==> obj.Known?
    ensures r.Ok? ==> TypeOf(obj.msg) in MESSAGE_TYPE_BYTES && |r.value| == 4 + MESSAGE_TYPE_BYTES[TypeOf(obj.msg)]
  {
    match obj
    case Known(m) => PayloadSize(m); Ok(FrameOf(m))
    case OtherObject => Err(InvalidMessageObject)
  }

  // The read* helpers over the readable bytes, by field offset.

  function ParseInputState(s: seq<byte>): Result<Message, Error>
  {
    if |s| < 23 then Err(IndexOutOfBounds)
    else Ok(InputState(s[0] != 0, s[1] != 0, s[2] != 0, s[3] != 0, s[4] != 0, s[5] != 0, s[6] != 0,
                       DoubleOf(s[7..15]), DoubleOf(s[15..23])))
  }

  function ParseSpawn(s: seq<byte>): Result<Message, Error>
  {
    if |s| < 4 then Err(IndexOutOfBounds) else Ok(Spawn(IntOf(s[..4])))
  }

  function ParseBoxAdded(s: seq<byte>): Result<Message, Error>
  {
    if |s| < 77 then Err(IndexOutOfBounds)
    else Ok(BoxAdded(IntOf(s[..4]),
                     DoubleOf(s[4..12]), DoubleOf(s[12..20]), DoubleOf(s[20..28]),
                     DoubleOf(s[28..36]), DoubleOf(s[36..44]), DoubleOf(s[44..52]),
                     DoubleOf(s[52..60]), DoubleOf(s[60..68]), DoubleOf(s[68..76]),
                     s[76] != 0))
  }

  function ParseBoxUpdateMotion(s: seq<byte>): Result<Message, Error>
  {
    if |s| < 52 then Err(IndexOutOfBounds)
    else Ok(BoxUpdateMotion(IntOf(s[..4]),
                            DoubleOf(s[4..12]), DoubleOf(s[12..20]), DoubleOf(s[20..28]),
                            DoubleOf(s[28..36]), DoubleOf(s[36..44]), DoubleOf(s[44..52])))
  }

  /** `receive`: read the tag, then dispatch on it. */
  function Decode(s: seq<byte>): (r: Result<Message, Error>)
    ensures |s| < 4 ==> r == Err(IndexOutOfBounds)
    ensures r.Ok? ==> TypeOf(r.value) in MESSAGE_TYPE_BYTES && |s| >= 4 + MESSAGE_TYPE_BYTES[TypeOf(r.value)]
  {
    RegisteredSizes();
    if |s| < 4 then Err(IndexOutOfBounds) else ParseBody(IntOf(s[..4]), s[4..])
  }

  /** The `when` on the tag: the reader of that kind on the bytes after the tag. */
  function ParseBody(tag: int32, rest: seq<byte>): Result<Message, Error>
  {
    if tag == SYNC_INPUT_STATE then ParseInputState(rest)
    else if tag == SPAWN_PLAYER then ParseSpawn(rest)
    else if tag == SPAWN_BOX then ParseBoxAdded(rest)
    else if tag == UPDATE_BOX then ParseBoxUpdateMotion(rest)
    else Err(InvalidMessageType(tag))
  }

  /** One call of the replaying frame decoder on the bytes readable so far. */
  datatype FrameStep =
    | Frame(frame: seq<byte>, consumed: nat) // one frame emitted, `consumed` bytes taken
    | NeedMore                               // replay: nothing taken, wait for more bytes
    | Failed(error: Error)

  function SplitFrame(s: seq<byte>): (r: FrameStep)
    ensures |s| < 4 ==> r.NeedMore?
    ensures r.Frame? ==> 4 < r.consumed <= |s| && |r.frame| == r.consumed
  {
    RegisteredSizes();
    if |s| < 4 then NeedMore
    else
      var tag := IntOf(s[..4]);
      if tag !in MESSAGE_TYPE_BYTES then Failed(NoSizeForType(tag))
      else if |s| < 4 + MESSAGE_TYPE_BYTES[tag] then NeedMore
      else Frame(IntBytes(tag) + s[4..4 + MESSAGE_TYPE_BYTES[tag]], 4 + MESSAGE_TYPE_BYTES[tag])
  }

  // ---------------------------------------------------------------------
  // Properties of the framing

  /** The four tags are pairwise distinct: the tag determines the kind. */
  lemma TagsDistinct(m1: Message, m2: Message)
    requires TypeOf(m1) == TypeOf(m2)
    ensures m1.InputState? == m2.InputState? && m1.Spawn? == m2.Spawn?
    ensures m1.BoxAdded? == m2.BoxAdded? && m1.BoxUpdateMotion? == m2.BoxUpdateMotion?
  {
  }

  /** Each writer emits exactly the byte count registered for its tag: 23, 4, 77, 52. */
  lemma PayloadSize(m: Message)
    ensures TypeOf(m) in MESSAGE_TYPE_BYTES
    ensures |PayloadOf(m)| == MESSAGE_TYPE_BYTES[TypeOf(m)]
    ensures |FrameOf(m)| == 4 + MESSAGE_TYPE_BYTES[TypeOf(m)]
  {
  }

  /** The registered sizes, spelled out. */
  lemma RegisteredSizes()
    ensures MESSAGE_TYPE_BYTES[SYNC_INPUT_STATE] == 23 && MESSAGE_TYPE_BYTES[SPAWN_PLAYER] == 4
    ensures MESSAGE_TYPE_BYTES[UPDATE_BOX] == 52 && MESSAGE_TYPE_BYTES[SPAWN_BOX] == 77
    ensures MESSAGE_TYPE_BYTES.Keys == {1, 2, 3, 4}
  {
  }

  /** A sent frame starts with the kind's tag, which reads back as that tag. */
  lemma FrameTag(m: Message, rest: seq<byte>)
    ensures (FrameOf(m) + rest)[..4] == IntBytes(TypeOf(m))
    ensures IntOf((FrameOf(m) + rest)[..4]) == TypeOf(m)
    ensures (FrameOf(m) + rest)[4..4 + |PayloadOf(m)|] == PayloadOf(m)
  {
    IntRoundTrip(TypeOf(m));
    assert (FrameOf(m) + rest)[..4] == IntBytes(TypeOf(m));
  }

  /** Reader and writer of InputState visit the seven booleans, then cameraX, then cameraY. */
  lemma ParseInputStatePayload(m: Message, rest: seq<byte>)
    requires m.InputState?
    ensures ParseInputState(PayloadOf(m) + rest) == Ok(m)
  {
    var s := PayloadOf(m) + rest;
    assert s[7..15] == DoubleBytes(m.cameraX);
    assert s[15..23] == DoubleBytes(m.cameraY);
    DoubleRoundTrip(m.cameraX);
    DoubleRoundTrip(m.cameraY);
  }

  lemma ParseSpawnPayload(m: Message, rest: seq<byte>)
    requires m.Spawn?
    ensures ParseSpawn(PayloadOf(m) + rest) == Ok(m)
  {
    assert (PayloadOf(m) + rest)[..4] == IntBytes(m.boxId);
    IntRoundTrip(m.boxId);
  }

  /** The first 52 bytes of a BoxAdded payload are laid out as a BoxUpdateMotion's. */
  lemma BoxAddedLayout(m: Message, rest: seq<byte>)
    requires m.BoxAdded?
    ensures var s := PayloadOf(m) + rest;
      |s| >= 77 && s[..4] == IntBytes(m.id)
      && s[4..12] == DoubleBytes(m.x) && s[12..20] == DoubleBytes(m.y) && s[20..28] == DoubleBytes(m.z)
      && s[28..36] == DoubleBytes(m.sx) && s[36..44] == DoubleBytes(m.sy) && s[44..52] == DoubleBytes(m.sz)
      && s[52..60] == DoubleBytes(m.vx) && s[60..68] == DoubleBytes(m.vy) && s[68..76] == DoubleBytes(m.vz)
      && s[76] == BoolByte(m.affectedByPhysics)
  {
  }

  lemma ParseBoxAddedPayload(m: Message, rest: seq<byte>)
    requires m.BoxAdded?
    ensures ParseBoxAdded(PayloadOf(m) + rest) == Ok(m)
  {
    BoxAddedLayout(m, rest);
    IntRoundTrip(m.id);
    DoubleRoundTrip(m.x); DoubleRoundTrip(m.y); DoubleRoundTrip(m.z);
    DoubleRoundTrip(m.sx); DoubleRoundTrip(m.sy); DoubleRoundTrip(m.sz);
    DoubleRoundTrip(m.vx); DoubleRoundTrip(m.vy); DoubleRoundTrip(m.vz);
  }

  lemma BoxUpdateMotionLayout(m: Message, rest: seq<byte>)
    requires m.BoxUpdateMotion?
    ensures var s := PayloadOf(m) + rest;
      |s| >= 52 && s[..4] == IntBytes(m.id)
      && s[4..12] == DoubleBytes(m.x) && s[12..20] == DoubleBytes(m.y) && s[20..28] == DoubleBytes(m.z)
      && s[28..36] == DoubleBytes(m.vx) && s[36..44] == DoubleBytes(m.vy) && s[44..52] == DoubleBytes(m.vz)
  {
  }

  lemma ParseBoxUpdateMotionPayload(m: Message, rest: seq<byte>)
    requires m.BoxUpdateMotion?
    ensures ParseBoxUpdateMotion(PayloadOf(m) + rest) == Ok(m)
  {
    BoxUpdateMotionLayout(m, rest);
    IntRoundTrip(m.id);
    DoubleRoundTrip(m.x); DoubleRoundTrip(m.y); DoubleRoundTrip(m.z);
    DoubleRoundTrip(m.vx); DoubleRoundTrip(m.vy); DoubleRoundTrip(m.vz);
  }

  /** Reader and writer of each kind visit the same fields in the same order. */
  lemma ParsePayload(m: Message, rest: seq<byte>)
    ensures m.InputState? ==> ParseInputState(PayloadOf(m) + rest) == Ok(m)
    ensures m.Spawn? ==> ParseSpawn(PayloadOf(m) + rest) == Ok(m)
    ensures m.BoxAdded? ==> ParseBoxAdded(PayloadOf(m) + rest) == Ok(m)
    ensures m.BoxUpdateMotion? ==> ParseBoxUpdateMotion(PayloadOf(m) + rest) == Ok(m)
  {
    match m
    case InputState(_, _, _, _, _, _, _, _, _) => ParseInputStatePayload(m, rest);
    case Spawn(_) => ParseSpawnPayload(m, rest);
    case BoxAdded(_, _, _, _, _, _, _, _, _, _, _) => ParseBoxAddedPayload(m, rest);
    case BoxUpdateMotion(_, _, _, _, _, _, _) => ParseBoxUpdateMotionPayload(m, rest);
  }

  /** Round trip: `receive` on the bytes `send` produced yields the same message. */
  lemma {:induction false} SendReceive(m: Message, rest: seq<byte>)
    ensures Encode(Known(m)).Ok?
    ensures Decode(Encode(Known(m)).value + rest) == Ok(m)
  {
    var s := FrameOf(m) + rest;
    FrameTag(m, rest);
    assert s[4..] == PayloadOf(m) + rest;
    assert Decode(s) == ParseBody(TypeOf(m), PayloadOf(m) + rest);
    ParsePayload(m, rest);
  }

  /** An unknown tag is an error in `receive`; an unknown object is an error in `send`. */
  lemma UnknownTagRejected(tag: int32, rest: seq<byte>)
    requires tag !in MESSAGE_TYPE_BYTES
    ensures Decode(IntBytes(tag) + rest) == Err(InvalidMessageType(tag))
    ensures SplitFrame(IntBytes(tag) + rest) == Failed(NoSizeForType(tag))
    ensures Encode(OtherObject) == Err(InvalidMessageObject)
  {
    IntRoundTrip(tag);
    assert (IntBytes(tag) + rest)[..4] == IntBytes(tag);
  }

  /** A successfully received message has the kind its leading tag names. */
  lemma DecodeDispatch(s: seq<byte>)
    requires Decode(s).Ok?
    ensures |s| >= 4 && TypeOf(Decode(s).value) == IntOf(s[..4])
  {
  }

  /**
   * The decoder takes exactly 4 + size bytes and emits a frame of that length
   * whose tag and payload are the bytes it took; it asks for more input exactly
   * when a known frame is incomplete.
   */
  lemma SplitFrameExact(s: seq<byte>)
    ensures SplitFrame(s).Frame? ==>
      var c := SplitFrame(s).consumed;
      |s| >= 4 && IntOf(s[..4]) in MESSAGE_TYPE_BYTES
      && c == 4 + MESSAGE_TYPE_BYTES[IntOf(s[..4])] && c <= |s|
      && SplitFrame(s).frame == s[..c]
    ensures SplitFrame(s).NeedMore? <==>
      |s| < 4 || (IntOf(s[..4]) in MESSAGE_TYPE_BYTES && |s| < 4 + MESSAGE_TYPE_BYTES[IntOf(s[..4])])
  {
    if |s| >= 4 {
      var u := FromBigEndian(s[..4]);
      Pow256Four();
      ToFromBigEndian(s[..4]);
      assert IntBytes(IntOf(s[..4])) == s[..4];
      var tag := IntOf(s[..4]);
      if tag in MESSAGE_TYPE_BYTES && |s| >= 4 + MESSAGE_TYPE_BYTES[tag] {
        var c := 4 + MESSAGE_TYPE_BYTES[tag];
        assert s[..c] == s[..4] + s[4..c];
      }
    }
  }

  /** A sent frame passes the decoder whole, and the emitted frame receives as the message. */
  lemma {:induction false} SendSplitReceive(m: Message, rest: seq<byte>)
    ensures SplitFrame(FrameOf(m) + rest) == Frame(FrameOf(m), |FrameOf(m)|)
    ensures Decode(SplitFrame(FrameOf(m) + rest).frame) == Ok(m)
  {
    var s := FrameOf(m) + rest;
    FrameTag(m, rest);
    PayloadSize(m);
    assert s[4..4 + MESSAGE_TYPE_BYTES[TypeOf(m)]] == PayloadOf(m);
    SendReceive(m, []);
    assert FrameOf(m) + [] == FrameOf(m);
  }

  // ---------------------------------------------------------------------
  // The netty buffer and channel

  /** A ByteBuf: the bytes written so far and the reader index into them. */
  class ByteBuf {
    var bytes: seq<byte>
    var readerIndex: nat

    ghost predicate Valid()
      reads this
    {
      readerIndex <= |bytes|
    }

    /** The bytes not yet read. */
    function Readable(): seq<byte>
      reads this
      requires Valid()
    {
      bytes[readerIndex..]
    }

    constructor Empty()
      ensures Valid() && bytes == [] && readerIndex == 0
    {
      bytes := [];
      readerIndex := 0;
    }

    constructor Wrap(data: seq<byte>)
      ensures Valid() && bytes == data && readerIndex == 0
    {
      bytes := data;
      readerIndex := 0;
    }

    method WriteBytes(s: seq<byte>)
      requires Valid()
      modifies this
      ensures Valid() && bytes == old(bytes) + s && readerIndex == old(readerIndex)
    {
      bytes := bytes + s;
    }

    method WriteInt(v: int32)
      requires Valid()
      modifies this
      ensures Valid() && bytes == old(bytes) + IntBytes(v) && readerIndex == old(readerIndex)
    {
      WriteBytes(IntBytes(v));
    }

    method WriteDouble(d: Double)
      requires Valid()
      modifies this
      ensures Valid() && bytes == old(bytes) + DoubleBytes(d) && readerIndex == old(readerIndex)
    {
      WriteBytes(DoubleBytes(d));
    }

    method WriteBoolean(b: bool)
      requires Valid()
      modifies this
      ensures Valid() && bytes == old(bytes) + [BoolByte(b)] && readerIndex == old(readerIndex)
    {
      WriteBytes([BoolByte(b)]);
    }

    /** readBytes(n): the next n bytes, or IndexOutOfBounds with nothing consumed. */
    method ReadBytes(n: nat) returns (r: Result<seq<byte>, Error>)
      requires Valid()
      modifies this
      ensures Valid() && bytes == old(bytes)
      ensures n <= |old(Readable())| ==> r == Ok(old(Readable())[..n]) && readerIndex == old(readerIndex) + n
      ensures n > |old(Readable())| ==> r == Err(IndexOutOfBounds) && readerIndex == old(readerIndex)
    {
      if readerIndex + n > |bytes| {
        return Err(IndexOutOfBounds);
      }
      assert bytes[readerIndex..][..n] == bytes[readerIndex..readerIndex + n];
      r := Ok(bytes[readerIndex..readerIndex + n]);
      readerIndex := readerIndex + n;
    }

    method ReadInt() returns (r: Result<int32, Error>)
      requires Valid()
      modifies this
      ensures Valid() && bytes == old(bytes)
      ensures 4 <= |old(Readable())| ==> r == Ok(IntOf(old(Readable())[..4])) && readerIndex == old(readerIndex) + 4
      ensures 4 > |old(Readable())| ==> r == Err(IndexOutOfBounds) && readerIndex == old(readerIndex)
    {
      var s :- ReadBytes(4);
      return Ok(IntOf(s));
    }

    method ReadDouble() returns (r: Result<Double, Error>)
      requires Valid()
      modifies this
      ensures Valid() && bytes == old(bytes)
      ensures 8 <= |old(Readable())| ==> r == Ok(DoubleOf(old(Readable())[..8])) && readerIndex == old(readerIndex) + 8
      ensures 8 > |old(Readable())| ==> r == Err(IndexOutOfBounds) && readerIndex == old(readerIndex)
    {
      var s :- ReadBytes(8);
      return Ok(DoubleOf(s));
    }

    method ReadBoolean() returns (r: Result<bool, Error>)
      requires Valid()
      modifies this
      ensures Valid() && bytes == old(bytes)
      ensures 1 <= |old(Readable())| ==> r == Ok(old(Readable())[0] != 0) && readerIndex == old(readerIndex) + 1
      ensures 1 > |old(Readable())| ==> r == Err(IndexOutOfBounds) && readerIndex == old(readerIndex)
    {
      var s :- ReadBytes(1);
      return Ok(s[0] != 0);
    }
  }

  /** A channel, seen through what writeAndFlush has been given. */
  class Channel {
    var flushed: seq<seq<byte>>

    constructor ()
      ensures flushed == []
    {
      flushed := [];
    }
  }

  // ---------------------------------------------------------------------
  // The write* helpers

  method WriteInputState(m: Message, buf: ByteBuf)
    requires m.InputState? && buf.Valid()
    modifies buf
    ensures buf.Valid() && buf.bytes == old(buf.bytes) + PayloadOf(m) && buf.readerIndex == old(buf.readerIndex)
  {
    ghost var b0 := buf.bytes;
    WriteFlags(m, buf);
    ghost var b1 := buf.bytes;
    buf.WriteDouble(m.cameraX);
    buf.WriteDouble(m.cameraY);
    ghost var dx, dy := DoubleBytes(m.cameraX), DoubleBytes(m.cameraY);
    ghost var flags := b1[|b0|..];
    assert b1 == b0 + flags;
    assert buf.bytes == b1 + dx + dy;
    Seqs.AppendAssoc(b0, flags, dx);
    Seqs.AppendAssoc(b0, flags + dx, dy);
  }

  /** The seven movement flags of an InputState, in wire order. */
  method WriteFlags(m: Message, buf: ByteBuf)
    requires m.InputState? && buf.Valid()
    modifies buf
    ensures buf.Valid() && buf.readerIndex == old(buf.readerIndex)
    ensures buf.bytes == old(buf.bytes) + [BoolByte(m.forward), BoolByte(m.backwards), BoolByte(m.left),
                                           BoolByte(m.right), BoolByte(m.fire), BoolByte(m.jump), BoolByte(m.walk)]
  {
    ghost var b0 := buf.bytes;
    WriteBooleans(m.forward, m.backwards, m.left, buf);
    WriteBooleans(m.right, m.fire, m.jump, buf);
    buf.WriteBoolean(m.walk);
    ghost var f1 := [BoolByte(m.forward), BoolByte(m.backwards), BoolByte(m.left)];
    ghost var f2 := [BoolByte(m.right), BoolByte(m.fire), BoolByte(m.jump)];
    Seqs.AppendAssoc(b0, f1, f2);
    Seqs.AppendAssoc(b0, f1 + f2, [BoolByte(m.walk)]);
    assert f1 + f2 + [BoolByte(m.walk)] == [BoolByte(m.forward), BoolByte(m.backwards), BoolByte(m.left),
                                           BoolByte(m.right), BoolByte(m.fire), BoolByte(m.jump), BoolByte(m.walk)];
  }

  /** Three writeBoolean calls in a row. */
  method WriteBooleans(a: bool, b: bool, c: bool, buf: ByteBuf)
    requires buf.Valid()
    modifies buf
    ensures buf.Valid() && buf.readerIndex == old(buf.readerIndex)
    ensures buf.bytes == old(buf.bytes) + [BoolByte(a), BoolByte(b), BoolByte(c)]
  {
    buf.WriteBoolean(a);
    buf.WriteBoolean(b);
    buf.WriteBoolean(c);
  }

  method WriteSpawn(m: Message, buf: ByteBuf)
    requires m.Spawn? && buf.Valid()
    modifies buf
    ensures buf.Valid() && buf.bytes == old(buf.bytes) + PayloadOf(m) && buf.readerIndex == old(buf.readerIndex)
  {
    buf.WriteInt(m.boxId);
  }

  method WriteBoxAdded(m: Message, buf: ByteBuf)
    requires m.BoxAdded? && buf.Valid()
    modifies buf
    ensures buf.Valid() && buf.bytes == old(buf.bytes) + PayloadOf(m) && buf.readerIndex == old(buf.readerIndex)
  {
    ghost var b0 := buf.bytes;
    buf.WriteInt(m.id);
    WriteDoubles3(m.x, m.y, m.z, buf);
    ghost var b1 := buf.bytes;
    assert b1 == b0 + IntBytes(m.id) + DoubleBytes(m.x) + DoubleBytes(m.y) + DoubleBytes(m.z);
    WriteDoubles3(m.sx, m.sy, m.sz, buf);
    ghost var b2 := buf.bytes;
    assert b2 == b1 + DoubleBytes(m.sx) + DoubleBytes(m.sy) + DoubleBytes(m.sz);
    WriteDoubles3(m.vx, m.vy, m.vz, buf);
    buf.WriteBoolean(m.affectedByPhysics);
  }

  method WriteBoxUpdateMotion(m: Message, buf: ByteBuf)
    requires m.BoxUpdateMotion? && buf.Valid()
    modifies buf
    ensures buf.Valid() && buf.bytes == old(buf.bytes) + PayloadOf(m) && buf.readerIndex == old(buf.readerIndex)
  {
    buf.WriteInt(m.id);
    WriteDoubles3(m.x, m.y, m.z, buf);
    WriteDoubles3(m.vx, m.vy, m.vz, buf);
  }

  /** Three consecutive writeDouble calls (a position, a size or a velocity). */
  method WriteDoubles3(a: Double, b: Double, c: Double, buf: ByteBuf)
    requires buf.Valid()
    modifies buf
    ensures buf.Valid() && buf.readerIndex == old(buf.readerIndex)
    ensures buf.bytes == old(buf.bytes) + DoubleBytes(a) + DoubleBytes(b) + DoubleBytes(c)
  {
    buf.WriteDouble(a);
    buf.WriteDouble(b);
    buf.WriteDouble(c);
  }

  /** `send`: pick the tag, write tag and payload into a fresh buffer, flush it. */
  method Send(channel: Channel, obj: Outgoing) returns (r: Result<(), Error>)
    modifies channel
    ensures r == (if obj.Known? then Ok(()) else Err(InvalidMessageObject))
    ensures obj.Known? ==> channel.flushed == old(channel.flushed) + [Encode(obj).value]
    ensures obj.OtherObject? ==> channel.flushed == old(channel.flushed)
  {
    if obj.OtherObject? {
      return Err(InvalidMessageObject);
    }
    var m := obj.msg;
    var buf := new ByteBuf.Empty();
    buf.WriteInt(TypeOf(m));
    match m {
      case InputState(_, _, _, _, _, _, _, _, _) => WriteInputState(m, buf);
      case Spawn(_) => WriteSpawn(m, buf);
      case BoxAdded(_, _, _, _, _, _, _, _, _, _, _) => WriteBoxAdded(m, buf);
      case BoxUpdateMotion(_, _, _, _, _, _, _) => WriteBoxUpdateMotion(m, buf);
    }
    assert buf.bytes == FrameOf(m);
    channel.flushed := channel.flushed + [buf.bytes];
    r := Ok(());
  }

  // ---------------------------------------------------------------------
  // The read* helpers and `receive`

  method ReadInputState(buf: ByteBuf) returns (r: Result<Message, Error>)
    requires buf.Valid()
    modifies buf
    ensures buf.Valid() && buf.bytes == old(buf.bytes)
    ensures r == ParseInputState(old(buf.Readable()))
    ensures r.Ok? ==> buf.readerIndex == old(buf.readerIndex) + 23
  {
    ghost var s := buf.Readable();
    var flags1 :- ReadBooleans3(buf);
    assert buf.Readable() == s[3..];
    var flags2 :- ReadBooleans3(buf);
    assert buf.Readable() == s[6..];
    var w :- buf.ReadBoolean();
    assert buf.Readable() == s[7..];
    var cx :- buf.ReadDouble();
    assert buf.Readable() == s[15..];
    var cy :- buf.ReadDouble();
    assert s[7..][..8] == s[7..15] && s[15..][..8] == s[15..23];
    r := Ok(InputState(flags1.0, flags1.1, flags1.2, flags2.0, flags2.1, flags2.2, w, cx, cy));
  }

  /** Three consecutive readBoolean calls (part of the movement flags). */
  method ReadBooleans3(buf: ByteBuf) returns (r: Result<(bool, bool, bool), Error>)
    requires buf.Valid()
    modifies buf
    ensures buf.Valid() && buf.bytes == old(buf.bytes)
    ensures var s := old(buf.Readable());
      if |s| < 3 then r == Err(IndexOutOfBounds)
      else r == Ok((s[0] != 0, s[1] != 0, s[2] != 0)) && buf.readerIndex == old(buf.readerIndex) + 3
  {
    ghost var s := buf.Readable();
    var a :- buf.ReadBoolean();
    assert buf.Readable() == s[1..];
    var b :- buf.ReadBoolean();
    assert buf.Readable() == s[2..];
    var c :- buf.ReadBoolean();
    r := Ok((a, b, c));
  }

  method ReadSpawn(buf: ByteBuf) returns (r: Result<Message, Error>)
    requires buf.Valid()
    modifies buf
    ensures buf.Valid() && buf.bytes == old(buf.bytes)
    ensures r == ParseSpawn(old(buf.Readable()))
    ensures r.Ok? ==> buf.readerIndex == old(buf.readerIndex) + 4
  {
    var id :- buf.ReadInt();
    r := Ok(Spawn(id));
  }

  /** Three consecutive readDouble calls (a position, a size or a velocity). */
  method ReadDoubles3(buf: ByteBuf) returns (r: Result<(Double, Double, Double), Error>)
    requires buf.Valid()
    modifies buf
    ensures buf.Valid() && buf.bytes == old(buf.bytes)
    ensures var s := old(buf.Readable());
      if |s| < 24 then r == Err(IndexOutOfBounds)
      else r == Ok((DoubleOf(s[..8]), DoubleOf(s[8..16]), DoubleOf(s[16..24])))
           && buf.readerIndex == old(buf.readerIndex) + 24
  {
    ghost var s := buf.Readable();
    var a :- buf.ReadDouble();
    assert buf.Readable() == s[8..];
    var b :- buf.ReadDouble();
    assert buf.Readable() == s[16..];
    var c :- buf.ReadDouble();
    assert s[8..][..8] == s[8..16] && s[16..][..8] == s[16..24];
    r := Ok((a, b, c));
  }

  method ReadBoxAdded(buf: ByteBuf) returns (r: Result<Message, Error>)
    requires buf.Valid()
    modifies buf
    ensures buf.Valid() && buf.bytes == old(buf.bytes)
    ensures r == ParseBoxAdded(old(buf.Readable()))
    ensures r.Ok? ==> buf.readerIndex == old(buf.readerIndex) + 77
  {
    ghost var s := buf.Readable();
    var id :- buf.ReadInt();
    assert buf.Readable() == s[4..];
    var pos :- ReadDoubles3(buf);
    assert buf.Readable() == s[28..];
    var size :- ReadDoubles3(buf);
    assert buf.Readable() == s[52..];
    var vel :- ReadDoubles3(buf);
    assert buf.Readable() == s[76..];
    var a :- buf.ReadBoolean();
    assert s[4..][..8] == s[4..12] && s[4..][8..16] == s[12..20] && s[4..][16..24] == s[20..28];
    assert s[28..][..8] == s[28..36] && s[28..][8..16] == s[36..44] && s[28..][16..24] == s[44..52];
    assert s[52..][..8] == s[52..60] && s[52..][8..16] == s[60..68] && s[52..][16..24] == s[68..76];
    r := Ok(BoxAdded(id, pos.0, pos.1, pos.2, size.0, size.1, size.2, vel.0, vel.1, vel.2, a));
  }

  method ReadBoxUpdateMotion(buf: ByteBuf) returns (r: Result<Message, Error>)
    requires buf.Valid()
    modifies buf
    ensures buf.Valid() && buf.bytes == old(buf.bytes)
    ensures r == ParseBoxUpdateMotion(old(buf.Readable()))
    ensures r.Ok? ==> buf.readerIndex == old(buf.readerIndex) + 52
  {
    ghost var s := buf.Readable();
    var id :- buf.ReadInt();
    assert buf.Readable() == s[4..];
    var pos :- ReadDoubles3(buf);
    assert buf.Readable() == s[28..];
    var vel :- ReadDoubles3(buf);
    assert s[4..][..8] == s[4..12] && s[4..][8..16] == s[12..20] && s[4..][16..24] == s[20..28];
    assert s[28..][..8] == s[28..36] && s[28..][8..16] == s[36..44] && s[28..][16..24] == s[44..52];
    r := Ok(BoxUpdateMotion(id, pos.0, pos.1, pos.2, vel.0, vel.1, vel.2));
  }

  /** `receive`: the message at the reader index; on success exactly one frame is consumed. */
  method Receive(buf: ByteBuf) returns (r: Result<Message, Error>)
    requires buf.Valid()
    modifies buf
    ensures buf.Valid() && buf.bytes == old(buf.bytes)
    ensures r == Decode(old(buf.Readable()))
    ensures r.Ok? ==> buf.readerIndex == old(buf.readerIndex) + |FrameOf(r.value)|
  {
    ghost var s := buf.Readable();
    var msgType :- buf.ReadInt();
    assert buf.Readable() == s[4..];
    if msgType == SYNC_INPUT_STATE {
      r := ReadInputState(buf);
    } else if msgType == SPAWN_PLAYER {
      r := ReadSpawn(buf);
    } else if msgType == SPAWN_BOX {
      r := ReadBoxAdded(buf);
    } else if msgType == UPDATE_BOX {
      r := ReadBoxUpdateMotion(buf);
    } else {
      r := Err(InvalidMessageType(msgType));
    }
    if r.Ok? {
      PayloadSize(r.value);
    }
  }

  /**
   * MessagesDecoder.decode: read the tag and its payload and copy both into a
   * new buffer.  When the bytes run out the replaying decoder rewinds the
   * reader index and waits (NeedMore).
   */
  method DecodeFrame(inBuf: ByteBuf) returns (step: FrameStep, newBuf: ByteBuf?)
    requires inBuf.Valid()
    modifies inBuf
    ensures inBuf.Valid() && inBuf.bytes == old(inBuf.bytes)
    ensures step == SplitFrame(old(inBuf.Readable()))
    ensures step.Frame? ==> newBuf != null && fresh(newBuf) && newBuf.Valid()
                            && newBuf.bytes == step.frame && newBuf.readerIndex == 0
                            && inBuf.readerIndex == old(inBuf.readerIndex) + step.consumed
    ensures step.NeedMore? ==> inBuf.readerIndex == old(inBuf.readerIndex)
    ensures !step.Frame? ==> newBuf == null
  {
    ghost var s := inBuf.Readable();
    var start := inBuf.readerIndex;
    newBuf := null;
    var t := inBuf.ReadInt();
    if t.Err? {
      inBuf.readerIndex := start;
      return NeedMore, null;
    }
    var tag := t.value;
    if tag !in MESSAGE_TYPE_BYTES {
      return Failed(NoSizeForType(tag)), null;
    }
    var msgByteCount := MESSAGE_TYPE_BYTES[tag];
    assert inBuf.Readable() == s[4..];
    var payload := inBuf.ReadBytes(msgByteCount);
    if payload.Err? {
      inBuf.readerIndex := start;
      return NeedMore, null;
    }
    assert s[4..][..msgByteCount] == s[4..4 + msgByteCount];
    newBuf := new ByteBuf.Empty();
    newBuf.WriteInt(tag);
    newBuf.WriteBytes(payload.value);
    step := Frame(newBuf.bytes, 4 + msgByteCount);
  }
}
