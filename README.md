# Peinbol, modelled in Dafny

Peinbol is a small multiplayer paintball game. A Kotlin server owns the
physics world. Desktop clients (LWJGL, OpenAL, Nuklear) and an Android
client (GLES2, a native Bullet binding, a Nuklear GLES2 backend in C)
connect to it. They send their keys and camera angles. The server sends
back the boxes of the world and how they move.

This project models the core of that game:

- the binary message framing (`Messages`) and the message values both
  servers and clients exchange (`Protocol`);
- the newer server's rules (`GameServer`) and the older server
  (`LegacyServer`): world generation, joining and leaving, input handling,
  shooting, hits, health and respawn, and streaming boxes to a newcomer;
- the desktop client (`DesktopClient`, `ClientWindow`): its message
  handling, key toggles, camera follow, the "drugs" effect and
  send-on-change input;
- the Android client (`AndroidClient`): its message handling, 3D sounds and
  camera; its touch controls (`Controls`); its renderer (`WorldRendering`);
  its texture wrapper (`Texture`); its Bullet binding (`BulletPhysics`);
  and its box (`Boxes`);
- the Nuklear side: the GLES2 backend in C (`NkGles`), the window style
  bracket of `NkUIDrawable` (`NkBracket`), the UI element registries
  (`UiRegistry`, `ClientWindow`) and both chat boxes (`Chat`);
- the desktop audio manager (`Audio`) and the integer helpers of `Util.kt`
  (`Util`).

Each module models one source file or a small group of closely related
ones. The groups are these:
- `Chat` holds both chat overlays, the desktop and the Android `ChatUI.kt`.
  They share their message log and their window rules.
- `Util` holds the helpers of `Util.kt`. It also holds the camera clamps of
  the desktop `Window.kt` (`CoerceIn`, `FMod360`, `PitchOf`), which the
  Android renderer shares, and the random draws of the newer `Server.kt`
  (`RandomSource`).
- The UI-element registry rules are defined once, on maps, in `UiRegistry`.
  It holds the Android `NuklearUIRenderer.kt`. `ClientWindow` holds the
  desktop `Window.kt` and applies the same rules to its own field.
- `Protocol`, `Geometry`, `GlContext`, `UiDrawing`, `Seqs` and `Wrappers`
  hold values and interfaces that several source files share.

Objects whose fields the source
updates in place become classes with `modifies` clauses. Pure
computations become functions, and lemmas state what they promise.

Calls into libraries are recorded as events appended to a `trace` or `sent`
sequence. These libraries are OpenGL, Bullet, netty, OpenAL and Nuklear.
The model does not run them: it states which calls are made, in which
order and with which arguments.

The wall clock is an explicit `now` parameter. `Random` and `Math.random`
are a fixed stream of draws (`Util.RandomSource`). Floating-point values
that the code computes with become `real`. Doubles that only travel on the
wire stay opaque 64-bit patterns. Kotlin's truncating integer `/` and `%`,
and the float `% 360f`, are written out explicitly.

Shared helpers that need no row of their own: `Wrappers` (Option, Result),
`Seqs` (duplicate-free sequences, which model Kotlin's insertion-ordered
sets), `Geometry` (vectors, quaternions, colours), `GlContext` (a recording
GL context) and `UiDrawing` (a recording Nuklear drawer).

## Model

| member | source | states |
|---|---|---|
| Util.TruncDiv | src/main/kotlin/com/peinbol/Util.kt:17 | Kotlin's `Long / Int` truncates toward zero, for operands of any sign: the quotient's magnitude is |a| / |b|, positive when the signs agree and negative otherwise. For a non-negative dividend and a positive divisor it agrees with floor division. |
| Util.TruncMod | src/main/kotlin/com/peinbol/Util.kt:16 | Kotlin's `%`: dividend = truncated quotient × divisor + remainder. The remainder takes the dividend's sign: in [0, |b|) for a non-negative dividend, in (-|b|, 0] for a negative one. For non-negative operands it is the Euclidean remainder. |
| Util.NextInt | src/main/kotlin/com/peinbol/Util.kt:13 | `Random().nextInt(bound)` lies in [0, bound). |
| Util.RandBetween | src/main/kotlin/com/peinbol/Util.kt:13 | `randBetween(min, max)` lies in [min, max). It requires max > min, because `nextInt` throws otherwise. |
| Util.GenerateId | src/main/kotlin/com/peinbol/Util.kt:11 | An id lies in [0, 0x7FFFFFFF). |
| Util.OscillatorBounds | src/main/kotlin/com/peinbol/Util.kt:15-23 | On `TimedOscillator`: For a positive period and a non-negative clock, `timedOscillator` lies in [0, millis]. |
| Util.OscillatorPhases | src/main/kotlin/com/peinbol/Util.kt:15-23 | On `TimedOscillator`: The value equals `now % millis` in even periods and `millis - now % millis` in odd ones. |
| Util.OscillatorSteps | src/main/kotlin/com/peinbol/Util.kt:15-23 | On `TimedOscillator`: It is a triangle wave: consecutive milliseconds differ by exactly ±1. |
| Util.OscillatorPeriodic | src/main/kotlin/com/peinbol/Util.kt:15-23 | On `TimedOscillator`: It repeats with period 2·millis. |
| Util.RandomSource.Between | src/main/kotlin/com/peinbol/Util.kt:13 | `randBetween` on the next draw of the stream: one draw is used, and the result lies in [min, max). |
| Util.RandomSource.Id | src/main/kotlin/com/peinbol/Util.kt:11 | `generateId` on the next draw: one draw is used, and the id lies in [0, 0x7FFFFFFF). |
| Util.RandomSource.Index | src/main/kotlin/com/peinbol/server/Server.kt:82-88 | `list.random()` on the next draw: one draw is used, and the index lies inside the list. |
| Util.RandomSource.Unit | src/main/kotlin/com/peinbol/server/Server.kt:321 | `Math.random()` on the next draw: one draw is used, and the value lies in [0, 1). |
| Util.UnitOf | src/main/kotlin/com/peinbol/server/Server.kt:321 | A draw read as a fraction lies in [0, 1). |
| Util.ReplaceSkips | src/main/kotlin/com/peinbol/server/Server.kt:201-203 | On `Replace`: `replace` leaves a prefix without the pattern's first character as it is and goes on after it. |
| Util.ReplaceNone | src/main/kotlin/com/peinbol/server/Server.kt:201-203 | On `Replace`: A string without the pattern's first character is left unchanged by `replace`. |
| Util.ReplaceHit | src/main/kotlin/com/peinbol/server/Server.kt:201-203 | On `Replace`: A string that starts with the pattern gets the replacement in its place, and `replace` goes on after the pattern. |
| Util.ReplacePasses | src/main/kotlin/com/peinbol/server/Server.kt:201-203 | On `Replace`: Replacing one placeholder passes over the other placeholder untouched. |
| Util.FillLater | src/main/kotlin/com/peinbol/server/Server.kt:201-203 | On `Replace`: Filling the later placeholder of a two-placeholder format leaves the earlier placeholder and the text around them intact. |
| Util.FillOnly | src/main/kotlin/com/peinbol/server/Server.kt:201-203 | On `Replace`: Filling the only placeholder left puts the value in its place and keeps the text around it. |
| Util.FillLaterFirst | src/main/kotlin/com/peinbol/server/Server.kt:201-203 | On `Replace`: Filling the later placeholder first, then the earlier one, gives the text with both values in their places. |
| Util.FillInOrder | src/main/kotlin/com/peinbol/server/Server.kt:201-203 | On `Replace`: Filling the earlier placeholder first, then the later one, gives the text with both values in their places. |
| Messages.ToBigEndian | src/main/kotlin/com/peinbol/Messages.kt:104-197 | The n-byte big-endian form of a value that fits in n bytes. Its length is n and each byte is below 256. |
| Messages.FromBigEndian | src/main/kotlin/com/peinbol/Messages.kt:90-197 | The value of a big-endian byte string fits in the string's width. |
| Messages.FromToBigEndian | src/main/kotlin/com/peinbol/Messages.kt:90-197 | Reading back the big-endian form of a value gives that value. |
| Messages.ToFromBigEndian | src/main/kotlin/com/peinbol/Messages.kt:90-197 | Writing the value of a byte string gives back the same bytes. |
| Messages.IntBytes | src/main/kotlin/com/peinbol/Messages.kt:122 | `writeInt` emits 4 bytes: two's complement, big-endian. |
| Messages.DoubleBytes | src/main/kotlin/com/peinbol/Messages.kt:112-113 | `writeDouble` emits the 8 big-endian bytes of the binary64 pattern. |
| Messages.IntRoundTrip | src/main/kotlin/com/peinbol/Messages.kt:122-127 | `readInt` after `writeInt` gives back the int, including negative ones. |
| Messages.DoubleRoundTrip | src/main/kotlin/com/peinbol/Messages.kt:112-113 | `readDouble` after `writeDouble` gives back the same bit pattern. |
| Messages.TagsDistinct | src/main/kotlin/com/peinbol/Messages.kt:15-20 | The four tags are pairwise distinct, so the tag determines the kind. |
| Messages.PayloadSize | src/main/kotlin/com/peinbol/Messages.kt:23-28 | Each writer emits exactly the byte count registered for its tag, and the frame is 4 bytes longer. |
| Messages.RegisteredSizes | src/main/kotlin/com/peinbol/Messages.kt:23-28 | The registered sizes are InputState 23, Spawn 4, BoxUpdateMotion 52 and BoxAdded 77. Tags 1 to 4 are the only keys. |
| Messages.FrameTag | src/main/kotlin/com/peinbol/Messages.kt:65-73 | A sent frame is the kind's 4-byte tag, which reads back as that tag, followed by exactly that kind's payload. |
| Messages.Encode | src/main/kotlin/com/peinbol/Messages.kt:56-75 | `send` succeeds exactly for the four known kinds; any other object is an error. A frame is 4 bytes of tag plus the size registered for its kind. |
| Messages.Decode | src/main/kotlin/com/peinbol/Messages.kt:44-53 | Fewer than 4 bytes is an index error. A decoded message has a registered kind, and the input held at least its tag and its registered payload size. |
| Messages.SplitFrame | src/main/kotlin/com/peinbol/Messages.kt:31-41 | Fewer than 4 bytes waits for more (the decoder replays). An emitted frame takes more than 4 bytes and no more than are readable, and is exactly as long as what it took. |
| Messages.ParseInputStatePayload | src/main/kotlin/com/peinbol/Messages.kt:90-114 | Reader and writer of InputState visit the same fields in the same order: seven booleans, then cameraX, then cameraY. |
| Messages.ParseSpawnPayload | src/main/kotlin/com/peinbol/Messages.kt:121-129 | Reading the Spawn payload gives back the box id. |
| Messages.BoxAddedLayout | src/main/kotlin/com/peinbol/Messages.kt:140-152 | The byte offsets of every BoxAdded field: id at 0, position at 4, size at 28, velocity at 52, the physics flag at 76. |
| Messages.ParseBoxAddedPayload | src/main/kotlin/com/peinbol/Messages.kt:140-168 | Reading the BoxAdded payload gives back every field. |
| Messages.BoxUpdateMotionLayout | src/main/kotlin/com/peinbol/Messages.kt:177-185 | The byte offsets of every BoxUpdateMotion field: id at 0, position at 4, velocity at 28. |
| Messages.ParseBoxUpdateMotionPayload | src/main/kotlin/com/peinbol/Messages.kt:177-197 | Reading the BoxUpdateMotion payload gives back every field. |
| Messages.ParsePayload | src/main/kotlin/com/peinbol/Messages.kt:90-197 | For every kind, the reader gives back the message its writer wrote, whatever bytes follow. |
| Messages.SendReceive | src/main/kotlin/com/peinbol/Messages.kt:44-75 | Round trip: `send` succeeds for all four kinds, and `receive` on its bytes, with anything after them, gives back the same message. |
| Messages.UnknownTagRejected | src/main/kotlin/com/peinbol/Messages.kt:31-75 | An unknown tag is an error in `receive` (line 51) and in the decoder's size lookup (line 34). An unknown object is an error in `send` (line 62). |
| Messages.DecodeDispatch | src/main/kotlin/com/peinbol/Messages.kt:44-53 | A message that `receive` accepts has the kind its leading tag names. |
| Messages.SplitFrameExact | src/main/kotlin/com/peinbol/Messages.kt:31-41 | The decoder takes exactly 4 + size bytes and emits them unchanged. It waits for more input exactly when fewer than 4 bytes, or an incomplete known frame, are readable. |
| Messages.SendSplitReceive | src/main/kotlin/com/peinbol/Messages.kt:31-75 | A sent frame passes the decoder whole, and the emitted frame receives as the sent message. |
| Messages.ByteBuf.Empty | src/main/kotlin/com/peinbol/Messages.kt:36 | A fresh buffer has no bytes and reader index 0. |
| Messages.ByteBuf.Wrap | src/main/kotlin/com/peinbol/Messages.kt:32 | A buffer over given bytes, with reader index 0. |
| Messages.ByteBuf.WriteBytes | src/main/kotlin/com/peinbol/Messages.kt:38 | `writeBytes` appends the bytes and leaves the reader index alone. |
| Messages.ByteBuf.WriteInt | src/main/kotlin/com/peinbol/Messages.kt:122 | `writeInt` appends the 4-byte form. |
| Messages.ByteBuf.WriteDouble | src/main/kotlin/com/peinbol/Messages.kt:112 | `writeDouble` appends the 8-byte form. |
| Messages.ByteBuf.WriteBoolean | src/main/kotlin/com/peinbol/Messages.kt:105 | `writeBoolean` appends the byte 1 or 0. |
| Messages.ByteBuf.ReadBytes | src/main/kotlin/com/peinbol/Messages.kt:35 | `readBytes(n)` returns the next n readable bytes and advances by n. With fewer than n readable it fails and consumes nothing. |
| Messages.ByteBuf.ReadInt | src/main/kotlin/com/peinbol/Messages.kt:33 | `readInt` returns the value of the next 4 bytes and advances by 4, or fails without consuming. |
| Messages.ByteBuf.ReadDouble | src/main/kotlin/com/peinbol/Messages.kt:99-100 | `readDouble` returns the next 8 bytes as a pattern and advances by 8, or fails without consuming. |
| Messages.ByteBuf.ReadBoolean | src/main/kotlin/com/peinbol/Messages.kt:92-98 | `readBoolean` is true for any non-zero byte and advances by 1, or fails without consuming. |
| Messages.Channel.constructor | src/main/kotlin/com/peinbol/Messages.kt:74 | A channel starts with nothing flushed. |
| Messages.WriteInputState | src/main/kotlin/com/peinbol/Messages.kt:104-114 | Appends exactly the InputState payload to the buffer. |
| Messages.WriteFlags | src/main/kotlin/com/peinbol/Messages.kt:105-111 | The seven movement flags are appended as one byte each, in wire order. |
| Messages.WriteBooleans | src/main/kotlin/com/peinbol/Messages.kt:105-107 | Three `writeBoolean` calls append exactly the three flag bytes. |
| Messages.WriteDoubles3 | src/main/kotlin/com/peinbol/Messages.kt:142-150 | Three `writeDouble` calls append exactly the three 8-byte patterns. |
| Messages.WriteSpawn | src/main/kotlin/com/peinbol/Messages.kt:121-123 | Appends exactly the Spawn payload. |
| Messages.WriteBoxAdded | src/main/kotlin/com/peinbol/Messages.kt:140-152 | Appends exactly the BoxAdded payload. |
| Messages.WriteBoxUpdateMotion | src/main/kotlin/com/peinbol/Messages.kt:177-185 | Appends exactly the BoxUpdateMotion payload. |
| Messages.Send | src/main/kotlin/com/peinbol/Messages.kt:56-75 | A known message flushes exactly one frame, which is its encoding. Any other object fails and flushes nothing. |
| Messages.ReadInputState | src/main/kotlin/com/peinbol/Messages.kt:90-102 | Reads what the InputState parser reads. On success it advances by 23 bytes. |
| Messages.ReadBooleans3 | src/main/kotlin/com/peinbol/Messages.kt:92-97 | Three `readBoolean` calls: three flags and 3 bytes, or a failure without running past the buffer. |
| Messages.ReadSpawn | src/main/kotlin/com/peinbol/Messages.kt:125-129 | Reads what the Spawn parser reads. On success it advances by 4 bytes. |
| Messages.ReadDoubles3 | src/main/kotlin/com/peinbol/Messages.kt:157-165 | Three consecutive `readDouble` calls: three patterns and 24 bytes, or a failure. |
| Messages.ReadBoxAdded | src/main/kotlin/com/peinbol/Messages.kt:154-168 | Reads what the BoxAdded parser reads. On success it advances by 77 bytes. |
| Messages.ReadBoxUpdateMotion | src/main/kotlin/com/peinbol/Messages.kt:187-197 | Reads what the BoxUpdateMotion parser reads. On success it advances by 52 bytes. |
| Messages.Receive | src/main/kotlin/com/peinbol/Messages.kt:44-53 | `receive` returns the decoding of the readable bytes. On success it consumes exactly one frame. |
| Messages.DecodeFrame | src/main/kotlin/com/peinbol/Messages.kt:31-41 | One decoder call. A complete frame goes into a fresh buffer holding tag and payload. A short input rewinds and waits. An unknown tag fails. |
| GameServer.Player.constructor | src/main/kotlin/com/peinbol/server/Server.kt:23-30 | A new player starts with lastShot 0 and health 100. |
| GameServer.StreamOf | src/main/kotlin/com/peinbol/server/Server.kt:281 | Streaming sends one BoxAdded per box to the newcomer, in list order. |
| GameServer.RegisteredConcat | src/main/kotlin/com/peinbol/server/Server.kt:375-379 | Registering two runs of boxes one after the other makes the same physics calls as registering their concatenation. |
| GameServer.AnnounceConcat | src/main/kotlin/com/peinbol/server/Server.kt:375-379 | Announcing two runs of boxes one after the other makes the same broadcasts as announcing their concatenation. |
| GameServer.CubesShape | src/main/kotlin/com/peinbol/server/Server.kt:72-92 | Cube k of the first loop is the cube built from draws d + 4k on. Each cube has size 1, mass 3 and physics on, a texture from the five listed, x and z in [−40, 40) and y = 2. |
| GameServer.CubeShape | src/main/kotlin/com/peinbol/server/Server.kt:73-90 | One cube built from four draws has size 1, mass 3, physics on, a texture from the five listed, x and z in [−40, 40) and y = 2. |
| GameServer.WallsShape | src/main/kotlin/com/peinbol/server/Server.kt:139-161 | Wall k of the random-wall loop is the wall built from draws d + 5k on. Each is 2 by 6 or 6 by 2 depending on the axis drawn, 3 to 9 high, static metal of mass 0, with x and z in [−50, 50) and y = 2. |
| GameServer.WallShape | src/main/kotlin/com/peinbol/server/Server.kt:141-160 | One random wall is 2 by 6 or 6 by 2, 3 to 9 high, static metal of mass 0, with x and z in [−50, 50) and y = 2. |
| GameServer.CubesStep | src/main/kotlin/com/peinbol/server/Server.kt:72-92 | One more pass of the cube loop appends the cube built from the next four draws. |
| GameServer.PerimeterStep | src/main/kotlin/com/peinbol/server/Server.kt:105-137 | One more perimeter wall appends the next of the four listed walls, grey brick and static, with the next draw as its id. |
| GameServer.WallsStep | src/main/kotlin/com/peinbol/server/Server.kt:139-161 | One more pass of the random-wall loop appends the wall built from the next five draws. |
| GameServer.WorldRegistered | src/main/kotlin/com/peinbol/server/Server.kt:70-162 | Registering the whole world is registering the cubes, then the base, then the perimeter, then the random walls. |
| GameServer.WorldAnnounced | src/main/kotlin/com/peinbol/server/Server.kt:70-162 | The announcements of the whole world are those of the 21 cubes, then the base with the next draw as its id, then the 4 perimeter walls, then the 26 random walls, each part drawing where the previous one stopped. |
| GameServer.HitKeepsHealthStep | src/main/kotlin/com/peinbol/server/Server.kt:188-212 | On `AfterHit`: A hit lowers health by 10, or resets it to 100 when it would reach 0. Health stays in {10, 20, …, 100}. |
| GameServer.TenHitsRespawn | src/main/kotlin/com/peinbol/server/Server.kt:188-212 | On `AfterHit`: From full health, n < 10 hits leave 100 − 10n, and the tenth hit restores 100. |
| GameServer.VolleySize | src/main/kotlin/com/peinbol/server/Server.kt:309-353 | At most 5 bullets fire in one update, and none unless fire or fire2 is held. |
| GameServer.VolleyGates | src/main/kotlin/com/peinbol/server/Server.kt:305-354 | Primary fire (1 bullet) needs more than 200 ms since `lastShot`, secondary (5 bullets) more than 1000 ms. Primary resets `lastShot` first, so at most one volley fires per update. |
| GameServer.KillerFirst | src/main/kotlin/com/peinbol/server/Server.kt:193-203 | On `KillMessage`: A format naming {killer} before {victim} becomes the text around them with the killer's name, then the victim's, in their places. |
| GameServer.VictimFirst | src/main/kotlin/com/peinbol/server/Server.kt:193-203 | On `KillMessage`: A format naming {victim} before {killer} becomes the text around them with the victim's name, then the killer's, in their places. |
| GameServer.RespawnSpot | src/main/kotlin/com/peinbol/server/Server.kt:210 | A respawn spot has x and z in [−20, 20) and y = 5. |
| GameServer.HitEventsShape | src/main/kotlin/com/peinbol/server/Server.kt:189-207 | A hit sends two messages, the first the lowered health to the target. A killing hit sends four, the last one full health to the target. |
| GameServer.Stamp | src/main/kotlin/com/peinbol/server/Server.kt:325-326 | Setting each key of a list to one value keeps the other keys' values and gives exactly the listed keys that value. |
| GameServer.StampAppend | src/main/kotlin/com/peinbol/server/Server.kt:349-350 | Stamping one more bullet is one more map update. |
| GameServer.MovingAppend | src/main/kotlin/com/peinbol/server/Server.kt:327 | A bullet pushed along the shot direction from where it was announced keeps the fired bullets in motion as announced. |
| GameServer.NewCube | src/main/kotlin/com/peinbol/server/Server.kt:73-90 | A new cube uses exactly four draws, and its fields are the cube built from them in the source's order: id, x, z, texture. |
| GameServer.RandomWall | src/main/kotlin/com/peinbol/server/Server.kt:141-160 | A new random wall uses exactly five draws, and its fields are the wall built from them in the source's order: axis, height, id, x, z. |
| GameServer.Server.constructor | src/main/kotlin/com/peinbol/server/Server.kt:32-37 | A server starts with no boxes, bullets, players, physics calls or messages, and with the six kill formats of onPlayerHitPlayer. |
| GameServer.Server.AddBox | src/main/kotlin/com/peinbol/server/Server.kt:375-379 | The box is registered with physics, appended, and broadcast as BoxAdded. Nothing else changes. |
| GameServer.Server.RemoveBox | src/main/kotlin/com/peinbol/server/Server.kt:381-387 | Idempotent: an absent box changes nothing. A present box leaves the list and physics, with exactly one RemoveBox broadcast. |
| GameServer.Server.GenerateWorld | src/main/kotlin/com/peinbol/server/Server.kt:70-162 | Exactly 52 new boxes follow the old ones. They are registered in order, and the broadcasts carry the full world data: the 21 cubes, the base, the 4 perimeter walls and the 26 random walls, each drawn in the source's order. Exactly 21·4 + 1 + 4 + 26·5 draws are used. |
| GameServer.Server.Place | src/main/kotlin/com/peinbol/server/Server.kt:375-379 | addBox of a box not yet present extends the added boxes, their registrations and their announcements by that box. |
| GameServer.Server.AddCubes | src/main/kotlin/com/peinbol/server/Server.kt:72-92 | 21 fresh cubes are appended, registered and announced with exactly the data of the cubes drawn from the current draw on. Exactly 84 draws are used. |
| GameServer.Server.AddCube | src/main/kotlin/com/peinbol/server/Server.kt:73-91 | One pass of the cube loop appends, registers and announces the cube built from the next four draws. |
| GameServer.Server.AddBase | src/main/kotlin/com/peinbol/server/Server.kt:94-103 | The grass base, 100 by 1 by 100 at the origin, is appended, registered and announced with the next draw as its id. |
| GameServer.Server.AddPerimeter | src/main/kotlin/com/peinbol/server/Server.kt:105-137 | The four listed grey-brick walls are appended, registered and announced in order, one draw each for their ids. |
| GameServer.Server.AddPerimeterWall | src/main/kotlin/com/peinbol/server/Server.kt:106-137 | Perimeter wall i is appended, registered and announced with its listed position and size and the next draw as its id. |
| GameServer.Server.AddRandomWalls | src/main/kotlin/com/peinbol/server/Server.kt:139-161 | 26 fresh walls are appended, registered and announced with exactly the data of the walls drawn from the current draw on. Exactly 130 draws are used. |
| GameServer.Server.AddRandomWall | src/main/kotlin/com/peinbol/server/Server.kt:140-160 | One pass of the random-wall loop appends, registers and announces the wall built from the next five draws. |
| GameServer.Server.HandleDisconnection | src/main/kotlin/com/peinbol/server/Server.kt:238-246 | An unknown connection changes nothing. A known one loses its entry and its box, followed by a RemoveBox and a goodbye broadcast. |
| GameServer.Server.HandleClientMessage | src/main/kotlin/com/peinbol/server/Server.kt:248-291 | ConnectionInfo from a new connection adds exactly one player (health 100, the given name, lastShot 0, no input) and one fresh character box (mass 30, 1×2×1, not affected by physics). It registers that box with physics, broadcasts BoxAdded, streams every box to the newcomer, sends its Spawn and announces "se conecto.", exactly and in that order. From a known connection it changes nothing. InputState replaces the input of a known player only. |
| GameServer.Server.Join | src/main/kotlin/com/peinbol/server/Server.kt:251-285 | The sends of a join, in this order: the box broadcast, every box streamed to the newcomer, Spawn with its box id, then the announcement. |
| GameServer.Server.AddPlayerBox | src/main/kotlin/com/peinbol/server/Server.kt:255-274 | A fresh character box of mass 30 and size 1×2×1, not affected by physics, is added to the world. |
| GameServer.Server.Welcome | src/main/kotlin/com/peinbol/server/Server.kt:280-284 | The world is streamed to the newcomer, one BoxAdded per box in list order, then its Spawn, then the "se conecto." chat broadcast. Boxes, physics, players and bullets are unchanged. |
| GameServer.Server.StreamBoxes | src/main/kotlin/com/peinbol/server/Server.kt:281 | The stream loop sends exactly the BoxAdded messages of the current boxes. |
| GameServer.Server.OnPlayerHitPlayer | src/main/kotlin/com/peinbol/server/Server.kt:188-212 | Health goes to its value after the hit. The messages sent are exactly SetHealth with the lowered health and NotifyHit, then, at 0 or less, the kill message filled in from the drawn format and SetHealth 100. A kill also stops the box's spin and moves it to the drawn respawn spot. Otherwise the box and the draws are untouched. |
| GameServer.Server.Die | src/main/kotlin/com/peinbol/server/Server.kt:192-211 | A kill broadcasts the drawn format filled in with both names, restores full health, sends it, and respawns the box. It uses exactly three draws. |
| GameServer.Server.KillEvents | src/main/kotlin/com/peinbol/server/Server.kt:193-207 | The kill messages are the format drawn from the six with one draw, filled in with victim and killer, then full health to the victim. |
| GameServer.Server.Respawn | src/main/kotlin/com/peinbol/server/Server.kt:209-210 | The respawned box has no spin and sits at the spot drawn from the next two draws. |
| GameServer.Server.FindTarget | src/main/kotlin/com/peinbol/server/Server.kt:177 | `firstOrNull`: a player whose collision box is the other box, or None exactly when there is none. |
| GameServer.Server.HandleCollision | src/main/kotlin/com/peinbol/server/Server.kt:164-186 | Non-sphere pairs change nothing. Otherwise the sphere (box1 first) leaves the boxes, physics and timestamps. A hit happens exactly when the sphere has an emitter and a player owns the other box, and only that player's health changes. The messages are exactly the hit's messages, then the sphere's RemoveBox if it was listed. |
| GameServer.Server.SphereCollision | src/main/kotlin/com/peinbol/server/Server.kt:175-185 | The sphere leaves the boxes, physics and timestamps. The hit happens exactly when the sphere has an emitter and a player owns the other box, and only that player's health changes. The messages are the hit's, then the RemoveBox. |
| GameServer.Server.HitByBullet | src/main/kotlin/com/peinbol/server/Server.kt:177-182 | The hit happens if and only if the sphere has an emitter and some player owns the other box. A hit sends exactly the hit's messages for that emitter and target. No hit sends nothing and draws nothing. No other player's health changes. |
| GameServer.Server.VolleyFan | src/main/kotlin/com/peinbol/server/Server.kt:333-340 | Bullet k of a volley starts at the origin angle cameraY plus −40, −20, 0, 20 or 40 degrees, in that order, with the draws d + 4k on. |
| GameServer.Server.VolleyStep | src/main/kotlin/com/peinbol/server/Server.kt:333-352 | One more pass of the volley appends the bullet of origin angle cameraY + 20·(idx − 2) built from the next four draws. |
| GameServer.Server.Shoot | src/main/kotlin/com/peinbol/server/Server.kt:313-327 | One shot: a fresh bullet at the shot origin for the given angle is appended, registered and announced at rest with its four draws. It is stamped with now and its emitter, then moves at the shot velocity along cameraY. |
| GameServer.Server.Push | src/main/kotlin/com/peinbol/server/Server.kt:327 | applyForce with force 300 gives the bullet at rest exactly the shot velocity, and changes nothing else of it. |
| GameServer.Server.Record | src/main/kotlin/com/peinbol/server/Server.kt:325-326 | The bullet is stamped with now and with its emitter. |
| GameServer.Server.NewBullet | src/main/kotlin/com/peinbol/server/Server.kt:313-323 | A new bullet uses four draws: its id, then the three channels of an opaque colour. It is a metal sphere of mass 3 and size 0.2 at the given position, at rest. |
| GameServer.Server.FireVolley | src/main/kotlin/com/peinbol/server/Server.kt:329-353 | Exactly five fresh bullets are appended, registered and announced with the fan of origin angles −40 to 40 around cameraY. All are stamped with now and the player, and all move along cameraY. Exactly 20 draws are used. |
| GameServer.Server.VolleyShot | src/main/kotlin/com/peinbol/server/Server.kt:333-352 | Pass idx of the volley appends, registers, announces, stamps and pushes the bullet of that pass. |
| GameServer.Server.UpdatePlayer | src/main/kotlin/com/peinbol/server/Server.kt:305-354 | The movement call goes to physics first. Then exactly VolleySize bullets are fired: one straight ahead, a fan of five, or none. Each is announced where it starts, stamped with now and the player, and moving along cameraY. `lastShot` becomes now exactly when something fired. |
| GameServer.Server.Fire | src/main/kotlin/com/peinbol/server/Server.kt:308-353 | The shooting half of updatePlayer: the primary shot when fire is held past 200 ms, otherwise the volley when fire2 is held past 1000 ms, each with the bullets stated for UpdatePlayer. |
| GameServer.Server.GlobalUpdate | src/main/kotlin/com/peinbol/server/Server.kt:294-302 | The timestamps keep exactly the bullets no older than 8000 ms. Exactly the listed expired bullets leave the boxes, each once, with one unregister and one RemoveBox per bullet. All other boxes stay. |
| GameServer.Server.Expire | src/main/kotlin/com/peinbol/server/Server.kt:296-300 | One pass of the expiry loop: an expired bullet loses its timestamp and, if listed, its box, with its unregister and RemoveBox. A live bullet changes nothing. |
| GameServer.KeptStep | src/main/kotlin/com/peinbol/server/Server.kt:296-300 | A bullet that is live or no longer listed leaves the boxes, calls and removals as they were, and drops its timestamp only if expired. |
| GameServer.RemovedStep | src/main/kotlin/com/peinbol/server/Server.kt:296-300 | A listed expired bullet is removed from the boxes and the timestamps, with one unregister and one RemoveBox, and joins the removed list. |
| GameServer.ExpireKept | src/main/kotlin/com/peinbol/server/Server.kt:296-300 | When a bullet that keeps its box is settled, the boxes still hold exactly the listed boxes that are not settled and expired, and the removed list exactly those that are. |
| GameServer.ExpireRemoved | src/main/kotlin/com/peinbol/server/Server.kt:296-300 | Removing a listed expired bullet keeps the boxes and the removed list free of duplicates, and keeps them holding exactly the listed boxes not expired and expired among those settled. |
| GameServer.SurvivingStep | src/main/kotlin/com/peinbol/server/Server.kt:296-300 | Settling one more bullet drops it from the surviving timestamps exactly when it is expired. |
| LegacyServer.Box.constructor | src/main/kotlin/com/peinbol/Server.kt:62-71 | A box holds the given position, size, velocity and flags, and starts off the ground. |
| LegacyServer.Player.constructor | src/main/kotlin/com/peinbol/Server.kt:19-24 | A new player starts with lastShot 0. |
| LegacyServer.Speed | src/main/kotlin/com/peinbol/Server.kt:143-147 | The speed is positive and at most 1.5, and it is the walking speed exactly when walking on the ground. |
| LegacyServer.SpeedCases | src/main/kotlin/com/peinbol/Server.kt:143-147 | Speed is 1.5 on the ground, 0.3 when walking on the ground, and 1.2 (1.5 × 0.8) in the air, so it always lies in [0.3, 1.5]. |
| LegacyServer.SteerIdle | src/main/kotlin/com/peinbol/Server.kt:149-164 | With no direction key pressed, the velocity does not change. |
| LegacyServer.SteerOpposites | src/main/kotlin/com/peinbol/Server.kt:149-164 | Forward and backwards together cancel out. So do right and left, when the two sideways angles are opposite. |
| LegacyServer.Server.constructor | src/main/kotlin/com/peinbol/Server.kt:26-29 | A server starts with no boxes and no players. |
| LegacyServer.Server.StreamOf | src/main/kotlin/com/peinbol/Server.kt:122 | Streaming sends one BoxAdded per box, in list order. |
| LegacyServer.Server.MotionOf | src/main/kotlin/com/peinbol/Server.kt:88-98 | One BoxUpdateMotion broadcast per box, in list order. |
| LegacyServer.Server.BroadcastWorldState | src/main/kotlin/com/peinbol/Server.kt:87-99 | Broadcasts the motion of every box, and changes nothing else. |
| LegacyServer.Server.AddBox | src/main/kotlin/com/peinbol/Server.kt:204-208 | The box is appended to the physics list and to `boxes`, and broadcast. A box not yet present keeps the lists free of duplicates. |
| LegacyServer.Server.RemoveBox | src/main/kotlin/com/peinbol/Server.kt:210-216 | An absent box changes nothing. A present box leaves both lists. Nothing is sent. |
| LegacyServer.Server.GenerateWorld | src/main/kotlin/com/peinbol/Server.kt:59-84 | Exactly 22 fresh boxes follow the old ones: 21 unit cubes affected by physics, then a static base 100 wide at y = −50 with texture multiplier 50. Each is added to the physics list and broadcast, in order. |
| LegacyServer.Server.AddCube | src/main/kotlin/com/peinbol/Server.kt:61-73 | One pass of the cube loop appends, registers and broadcasts a fresh unit cube affected by physics after the boxes added so far. |
| LegacyServer.Server.AddBase | src/main/kotlin/com/peinbol/Server.kt:75-83 | The fresh base, static, 100 wide at y = −50 with texture multiplier 50, follows the cubes in both lists and in the broadcasts. |
| LegacyServer.Server.Place | src/main/kotlin/com/peinbol/Server.kt:204-208 | addBox of a box not yet present extends the added boxes and their broadcasts by that box. |
| LegacyServer.Server.AnnouncedAppend | src/main/kotlin/com/peinbol/Server.kt:204-208 | Announcing one more box adds its BoxAdded broadcast at the end. |
| LegacyServer.Server.NewCube | src/main/kotlin/com/peinbol/Server.kt:62-71 | A unit cube affected by physics, at x, z in [−40, 40) and y in [−5, 5). |
| LegacyServer.Server.HandleConnection | src/main/kotlin/com/peinbol/Server.kt:101-124 | Every connection adds exactly one player box and registers the player. Then it broadcasts the box, streams the world and sends Spawn, in that order. |
| LegacyServer.Server.AddPlayerBox | src/main/kotlin/com/peinbol/Server.kt:105-115 | A 0.5 × 2 × 0.5 box affected by physics, at height 10, is added. |
| LegacyServer.Server.Welcome | src/main/kotlin/com/peinbol/Server.kt:121-123 | The world is streamed to the newcomer, one BoxAdded per box in list order, and Spawn follows. The boxes and the player map are unchanged. |
| LegacyServer.Server.StreamBoxes | src/main/kotlin/com/peinbol/Server.kt:122 | The stream loop sends exactly the BoxAdded messages of the current boxes. |
| LegacyServer.Server.HandleDisconnection | src/main/kotlin/com/peinbol/Server.kt:126-130 | An unknown connection fails on `!!`. A known one loses its box but keeps its player entry. |
| LegacyServer.Server.HandleClientMessage | src/main/kotlin/com/peinbol/Server.kt:132-139 | A message from an unregistered connection fails on `!!`. InputState replaces that player's input. No other player changes. |
| LegacyServer.Server.UpdatePlayer | src/main/kotlin/com/peinbol/Server.kt:142-186 | The velocity changes as Move states, and the position stays. A bullet fires if and only if fire is held and more than 100 ms have passed since `lastShot`, which then becomes now. A fired bullet is the one new box and the one broadcast: 0.6 in front of where the shooter stood, moving 0.75 along the view with vy 0.15. Without a shot, boxes and messages are unchanged. |
| LegacyServer.Server.Move | src/main/kotlin/com/peinbol/Server.kt:143-168 | Each pressed direction adds ±sin/cos(angle) × speed × Δt to vx and vz. A jump adds 0.3 to vy only on the ground. Position and size are untouched. |
| LegacyServer.Server.Shoot | src/main/kotlin/com/peinbol/Server.kt:170-185 | The fresh bullet is a 0.2 box affected by physics, 0.6 in front of the shooter along the view, moving at 0.75 along the view with vy 0.15. It is appended to both lists and broadcast. |
| DesktopClient.DrugFov | src/main/kotlin/com/peinbol/client/Client.kt:196 | On drugs the fov follows a one-second oscillator between 30 and 40 degrees. |
| DesktopClient.DrugAspectAsWrittenSteps | src/main/kotlin/com/peinbol/client/Client.kt:197 | As written, the integer division leaves the multiplier at 0.8 or 1.8 only. At 600 ms it is 0.8, where the intended value is 1.3. |
| DesktopClient.DrugAspect | src/main/kotlin/com/peinbol/client/Client.kt:197 | The intended aspect-ratio multiplier lies in [0.8, 1.8]. |
| DesktopClient.DrugAspectMidway | src/main/kotlin/com/peinbol/client/Client.kt:197 | The intended multiplier passes through the middle of its range, 1.3 at 600 ms. |
| DesktopClient.DrugAspectPeak | src/main/kotlin/com/peinbol/client/Client.kt:197 | The intended multiplier reaches 1.8 at the top of the oscillator. |
| DesktopClient.HealthUI.constructor | src/main/kotlin/com/peinbol/client/HealthUI.kt:18 | A health bar starts at 100. |
| DesktopClient.Client.constructor | src/main/kotlin/com/peinbol/client/Client.kt:145-146 | A client starts with no boxes and no own box, has sent nothing, and is not on drugs. |
| DesktopClient.Client.AddBox | src/main/kotlin/com/peinbol/client/Client.kt:206-212 | Idempotent by id: a new id enters the map, physics and `window.boxes` together, and a known id changes nothing. |
| DesktopClient.Client.RemoveBox | src/main/kotlin/com/peinbol/client/Client.kt:214-220 | An unknown id changes nothing. A known box leaves the map, physics and `window.boxes`. |
| DesktopClient.Client.OnSpawn | src/main/kotlin/com/peinbol/client/Client.kt:76-82 | Spawn sets `myBoxId`. It removes the own box only from `window.boxes`, keeping it in the map and physics. |
| DesktopClient.Client.OnBoxAdded | src/main/kotlin/com/peinbol/client/Client.kt:83-100 | The new box carries every field of the message and is added by id, idempotently. |
| DesktopClient.Client.OnBoxUpdateMotion | src/main/kotlin/com/peinbol/client/Client.kt:101-118 | A known box, including the own one, takes rotation, position and both velocities, and both commit flags are set. An unknown id changes nothing. |
| DesktopClient.Client.OnNotifyHit | src/main/kotlin/com/peinbol/client/Client.kt:128-138 | A known victim turns red, and its motion is unchanged. |
| DesktopClient.Client.HandleNetworkMessage | src/main/kotlin/com/peinbol/client/Client.kt:74-143 | The dispatch of each message kind. SetHealth and ServerMessage fail on `!!` exactly when their UI element is missing. ServerMessage appends to the chat log. |
| DesktopClient.Client.Toggle | src/main/kotlin/com/peinbol/client/Client.kt:162-174 | U and K share one 400 ms debounce timestamp. Pressing both in one frame toggles only mouse visibility. |
| DesktopClient.Client.FollowCamera | src/main/kotlin/com/peinbol/client/Client.kt:176-182 | While the own box is known, the camera sits at its position plus 0.8 on y. |
| DesktopClient.Client.SendInput | src/main/kotlin/com/peinbol/client/Client.kt:199-203 | The input is sent only when it differs from the last one sent, which it then becomes. |
| DesktopClient.Client.Update | src/main/kotlin/com/peinbol/client/Client.kt:149-204 | One frame: the input from keys and camera, the toggles, the camera follow, the mouse-driven rotation through the setters' clamps, the drug effects, then send-on-change. |
| Util.CoerceIn | src/main/kotlin/com/peinbol/client/Window.kt:45 | `coerceIn(lo, hi)` lies in [lo, hi]. It is the identity inside, lo below and hi above. |
| Util.FMod360 | src/main/kotlin/com/peinbol/client/Window.kt:50 | Float `% 360f` keeps the dividend's sign, has magnitude below 360, differs from the dividend by whole turns, and is the identity inside (−360, 360). |
| Util.PitchOf | src/main/kotlin/com/peinbol/client/Window.kt:43-46 | The stored pitch always lies in [−85, 85]. It is the value itself inside that range, and the nearer bound outside. |
| ClientWindow.Window.constructor | src/main/kotlin/com/peinbol/client/Window.kt:30-41 | The defaults: 800 × 600, fov 30, aspect multiplier 1, camera at the origin with no rotation, mouse hidden, no UI elements. |
| ClientWindow.Window.RegisterUIElement | src/main/kotlin/com/peinbol/client/Window.kt:78-82 | Fails on a duplicate class. Otherwise it adds the entry and forwards the drawable to the drawer exactly once. |
| ClientWindow.Window.UnregisterUIElement | src/main/kotlin/com/peinbol/client/Window.kt:91-98 | Fails when the class is absent. Otherwise it removes the entry, and the same drawable, from the drawer. |
| ClientWindow.Window.SetCameraRotX | src/main/kotlin/com/peinbol/client/Window.kt:43-46 | `cameraRotX` always lies in [−85, 85] after assignment. No other field changes. |
| ClientWindow.Window.SetCameraRotY | src/main/kotlin/com/peinbol/client/Window.kt:48-51 | `cameraRotY` is reduced modulo 360, keeping its sign, so its magnitude is below 360. |
| ClientWindow.Window.SetCameraRotZ | src/main/kotlin/com/peinbol/client/Window.kt:53-56 | `cameraRotZ` is reduced modulo 360, keeping its sign. |
| ClientWindow.Window.SetMouseVisible | src/main/kotlin/com/peinbol/client/Window.kt:271-283 | Assigning `mouseVisible` sets the cursor mode (false: normal, true: hidden), re-centres the cursor and resets both mouse deltas to 0. |
| UiRegistry.Register | NativeActivityTest/app/src/main/java/io/snower/game/client/NuklearUIRenderer.kt:7-10 | Registration fails if and only if the class is already registered. On success the class maps to the drawable and every other entry is unchanged. |
| UiRegistry.Unregister | NativeActivityTest/app/src/main/java/io/snower/game/client/NuklearUIRenderer.kt:17-20 | Unregistration fails if and only if the class is absent. On success exactly that class is gone and every other entry is unchanged. |
| UiRegistry.GetAfterRegister | NativeActivityTest/app/src/main/java/io/snower/game/client/NuklearUIRenderer.kt:7-15 | After `registerUIElement(c, d)`, `getUIElement(c)` returns d, and every other class answers as before. The desktop Window.kt:78-88 applies the same rule. |
| UiRegistry.GetAfterUnregister | NativeActivityTest/app/src/main/java/io/snower/game/client/NuklearUIRenderer.kt:13-20 | After a successful unregister, `getUIElement` returns null for that class, and every other class answers as before. |
| UiRegistry.RegisterUnregister | NativeActivityTest/app/src/main/java/io/snower/game/client/NuklearUIRenderer.kt:7-20 | Registering a new class and then unregistering it restores the registry. |
| UiRegistry.RegisterTwiceFails | NativeActivityTest/app/src/main/java/io/snower/game/client/NuklearUIRenderer.kt:8 | A second registration of the same class fails. |
| UiRegistry.GetUnregistered | NativeActivityTest/app/src/main/java/io/snower/game/client/NuklearUIRenderer.kt:13-15 | `getUIElement` returns null if and only if the class is not registered. The desktop Window.kt:86-88 behaves the same. |
| UiRegistry.NuklearUIRenderer.constructor | NativeActivityTest/app/src/main/java/io/snower/game/client/NuklearUIRenderer.kt:5-23 | A renderer starts with no elements, at 800 × 600. |
| UiRegistry.NuklearUIRenderer.RegisterUIElement | NativeActivityTest/app/src/main/java/io/snower/game/client/NuklearUIRenderer.kt:7-10 | Applies Register to the field: fails on a duplicate and leaves the resolution alone. |
| UiRegistry.NuklearUIRenderer.UnregisterUIElement | NativeActivityTest/app/src/main/java/io/snower/game/client/NuklearUIRenderer.kt:17-20 | Applies Unregister to the field: fails when the class is absent. |
| UiRegistry.NuklearUIRenderer.SetResolution | NativeActivityTest/app/src/main/java/io/snower/game/client/NuklearUIRenderer.kt:25-28 | `setResolution` stores width and height and leaves the registry alone. |
| NkBracket.DepthAppend | src/main/kotlin/com/peinbol/client/NkUIDrawable.kt:10-41 | The style-stack depth of a call sequence adds up over concatenation. |
| NkBracket.DepthOne | src/main/kotlin/com/peinbol/client/NkUIDrawable.kt:21-40 | The depth of one call is its own push (+1), pop (−1) or 0. |
| NkBracket.TransparentBalanced | src/main/kotlin/com/peinbol/client/NkUIDrawable.kt:10-41 | `nkBeginTransparentWindow` pushes one colour and one style item and pops one of each. The net depth is 0, and it never exceeds 2 along the way. |
| NkBracket.PrefixDepth | src/main/kotlin/com/peinbol/client/NkUIDrawable.kt:21-40 | Every prefix of the transparent bracket has depth between 0 and 2, and the whole bracket has depth 0. |
| NkBracket.PrefixStep | src/main/kotlin/com/peinbol/client/NkUIDrawable.kt:21-40 | One more call of a prefix adds exactly its own push (+1), pop (−1) or 0 to the style-stack depth. |
| NkBracket.PrefixTwo | src/main/kotlin/com/peinbol/client/NkUIDrawable.kt:27-38 | Between the two pushes and the two pops, both overrides are on the stack. |
| NkBracket.TransparentLifo | src/main/kotlin/com/peinbol/client/NkUIDrawable.kt:21-40 | Pops happen in reverse push order: style item first, then colour. Nothing in between touches the stack. |
| NkBracket.TransparentBlockIffOpened | src/main/kotlin/com/peinbol/client/NkUIDrawable.kt:20-40 | The block runs if and only if `nk_begin` returns true. `nk_end` runs exactly once either way. Both overrides are rgba(0,0,0,0), for background and fixed_background. |
| NkBracket.DefaultBracket | src/main/kotlin/com/peinbol/client/NkUIDrawable.kt:43-66 | `nkBeginDefaultWindow` pushes nothing. It calls `nk_end` exactly once, last, and runs the block if and only if the window opened. |
| NkBracket.NkContext.constructor | src/main/kotlin/com/peinbol/client/NkUIDrawable.kt:20 | A context starts with empty style stacks. |
| NkBracket.NkContext.PushColorOverride | src/main/kotlin/com/peinbol/client/NkUIDrawable.kt:21 | `nk_style_push_color` logs the call and pushes onto the colour stack only. |
| NkBracket.NkContext.PushItemOverride | src/main/kotlin/com/peinbol/client/NkUIDrawable.kt:22-26 | `nk_style_push_style_item` logs the call and pushes onto the style-item stack only. |
| NkBracket.NkContext.PopColorOverride | src/main/kotlin/com/peinbol/client/NkUIDrawable.kt:40 | `nk_style_pop_color` logs the call and pops the colour stack. An empty stack stays empty. |
| NkBracket.NkContext.PopItemOverride | src/main/kotlin/com/peinbol/client/NkUIDrawable.kt:39 | `nk_style_pop_style_item` logs the call and pops the style-item stack. |
| NkBracket.NkContext.Record | src/main/kotlin/com/peinbol/client/NkUIDrawable.kt:29-38 | `nk_begin`, the block and `nk_end` are logged without touching the stacks. |
| NkBracket.BeginTransparentWindow | src/main/kotlin/com/peinbol/client/NkUIDrawable.kt:10-41 | Issues exactly the transparent bracket, and leaves both style stacks as it found them. |
| NkBracket.BeginDefaultWindow | src/main/kotlin/com/peinbol/client/NkUIDrawable.kt:43-66 | Issues exactly the default bracket, and leaves both style stacks as they were. |
| NkGles.AcquiredOwned | NativeActivityTest/app/src/main/cpp/nk_gles2_impl.h:81-159 | Every object that create and the atlas upload make belongs to the device: two shaders, the program, the font texture, vbo, ebo and the command buffer. |
| NkGles.ReleasedOwned | NativeActivityTest/app/src/main/cpp/nk_gles2_impl.h:161-174 | `nk_gles_device_destroy` deletes only objects the device owns. |
| NkGles.OwnedAcquiredAndReleased | NativeActivityTest/app/src/main/cpp/nk_gles2_impl.h:81-174 | Every object the device owns is made by some create or upload call and deleted by some destroy call, so destroy leaks nothing. |
| NkGles.DetachPairsAttach | NativeActivityTest/app/src/main/cpp/nk_gles2_impl.h:122-166 | Destroy detaches a shader from a program if and only if create attached it. |
| NkGles.RenderConfig | NativeActivityTest/app/src/main/cpp/nk_gles2_impl.h:244-254 | The conversion config fixes circle segments at 44, curve and arc segments at 22, and global alpha at 1. Both anti-aliasing modes are the caller's. |
| NkGles.ScaleIsOne | NativeActivityTest/app/src/main/cpp/nk_gles2_impl.h:180-192 | Both scale factors are 1, because the display size is set equal to width and height, for nonzero sizes. |
| NkGles.ScissorFlip | NativeActivityTest/app/src/main/cpp/nk_gles2_impl.h:271-274 | Scissor y is height − (clip.y + clip.h), flipping from a top-left to a bottom-left origin. x, w and h pass through. |
| NkGles.LoopDrawsSound | NativeActivityTest/app/src/main/cpp/nk_gles2_impl.h:268-277 | Every draw is of a command with nonzero `elem_count`. Its offset is 2 bytes (16-bit indices) times the elements of all commands before it. |
| NkGles.LoopDrawsComplete | NativeActivityTest/app/src/main/cpp/nk_gles2_impl.h:212-277 | Every command with nonzero `elem_count` is drawn, at the running index offset, which starts at 0. |
| NkGles.LoopCallsShape | NativeActivityTest/app/src/main/cpp/nk_gles2_impl.h:268-277 | The loop issues only texture binds, scissors and draws: three calls per non-empty command and nothing for empty ones. |
| NkGles.EmptyCommandSkipped | NativeActivityTest/app/src/main/cpp/nk_gles2_impl.h:269 | An empty command adds nothing to the loop, wherever it stands. |
| NkGles.ScratchAllocatedThenFreed | NativeActivityTest/app/src/main/cpp/nk_gles2_impl.h:229-265 | The vertex buffer is allocated at exactly `max_vertex_buffer` and the element buffer at exactly `max_element_buffer`. Each is freed later in the same render. |
| NkGles.ScratchFreedBeforeDraws | NativeActivityTest/app/src/main/cpp/nk_gles2_impl.h:229-286 | Every free comes before every draw. The queue is cleared after the last draw, and GL state is then restored. |
| NkGles.NkGles.constructor | NativeActivityTest/app/src/main/cpp/nk_gles2_impl.h:48-76 | The backend starts with no device names, an empty queue and an empty trace. |
| NkGles.NkGles.NewName | NativeActivityTest/app/src/main/cpp/nk_gles2_impl.h:94-142 | The driver issues a fresh, increasing name. |
| NkGles.NkGles.DeviceCreate | NativeActivityTest/app/src/main/cpp/nk_gles2_impl.h:81-147 | It succeeds if and only if both shaders compile and the program links, in which case it issues exactly the create calls with fresh, distinct names. |
| NkGles.NkGles.UploadAtlas | NativeActivityTest/app/src/main/cpp/nk_gles2_impl.h:149-159 | A fresh font texture is generated, bound, filtered linearly and filled with the atlas. |
| NkGles.NkGles.DeviceDestroy | NativeActivityTest/app/src/main/cpp/nk_gles2_impl.h:161-174 | Issues exactly the destroy calls for the device's names. |
| NkGles.NkGles.Init | NativeActivityTest/app/src/main/cpp/nk_gles2_impl.h:302-311 | A fresh Nuklear context, then device creation. |
| NkGles.NkGles.FontStashEnd | NativeActivityTest/app/src/main/cpp/nk_gles2_impl.h:321-331 | The baked atlas is uploaded into a fresh texture. |
| NkGles.NkGles.Shutdown | NativeActivityTest/app/src/main/cpp/nk_gles2_impl.h:333-340 | Clears the atlas, frees the context, destroys the device, and zeroes all state. |
| NkGles.NkGles.Render | NativeActivityTest/app/src/main/cpp/nk_gles2_impl.h:176-287 | Set-up calls, then the draw loop over the converted command list, then teardown. The queue ends empty, and the names are unchanged. |
| NkGles.NkGles.DrawCommands | NativeActivityTest/app/src/main/cpp/nk_gles2_impl.h:268-277 | The `nk_draw_foreach` loop issues exactly the loop calls: the texture, the scissor and the draw of each non-empty command at its running offset. |
| BulletPhysics.BodyData | NativeActivityTest/app/src/main/java/io/snower/game/client/BulletPhysicsNativeImpl.kt:128-135 | The body-data array the native side fills has exactly 13 slots. |
| BulletPhysics.LayoutTiles | NativeActivityTest/app/src/main/java/io/snower/game/client/BulletPhysicsNativeImpl.kt:128-135 | Offsets 0, 3, 7 and 10 with size 13 tile the array as 3 + 4 + 3 + 3 slots. They hold position, quaternion, linear and angular velocity, in the order JNI_PhysicsImpl.cpp:124-142 writes them. |
| BulletPhysics.ReadBackRoundTrip | NativeActivityTest/app/src/main/java/io/snower/game/client/BulletPhysicsNativeImpl.kt:100-119 | The intended read-back recovers exactly the state the native side reported. |
| BulletPhysics.ReadBackAsWrittenSwapsPosition | NativeActivityTest/app/src/main/java/io/snower/game/client/BulletPhysicsNativeImpl.kt:100-119 | As written, the read-back puts quaternion x, y, z into position and takes only `rotation.w`, leaving rotation x, y, z unchanged. |
| BulletPhysics.ReadBackAsWrittenCounterexample | NativeActivityTest/app/src/main/java/io/snower/game/client/BulletPhysicsNativeImpl.kt:106-108 | A body resting at height 5 with no rotation is read back, as written, at the origin. |
| BulletPhysics.CommitCallsSound | NativeActivityTest/app/src/main/java/io/snower/game/client/BulletPhysicsNativeImpl.kt:73-88 | Native transform and velocity updates are issued only for boxes whose flags are set, with that box's current values. |
| BulletPhysics.CommitCallsComplete | NativeActivityTest/app/src/main/java/io/snower/game/client/BulletPhysicsNativeImpl.kt:73-88 | Every box with a flag set gets the matching native update. |
| BulletPhysics.CommitCallsClean | NativeActivityTest/app/src/main/java/io/snower/game/client/BulletPhysicsNativeImpl.kt:73-88 | Boxes with no flag set cost no native call. |
| BulletPhysics.ReadBackCallsSkipStatic | NativeActivityTest/app/src/main/java/io/snower/game/client/BulletPhysicsNativeImpl.kt:94-98 | Boxes with mass 0 are never read back, and every other box is read back once. |
| BulletPhysics.ReadBackCallsDependsOnBodies | NativeActivityTest/app/src/main/java/io/snower/game/client/BulletPhysicsNativeImpl.kt:94-98 | Which bodies are read back depends only on the bodies and masses, not on the flags or the state. |
| BulletPhysics.CommitCallsStep | NativeActivityTest/app/src/main/java/io/snower/game/client/BulletPhysicsNativeImpl.kt:73-88 | The commit calls of a prefix grow by one box's calls per step. |
| BulletPhysics.ReadBackCallsStep | NativeActivityTest/app/src/main/java/io/snower/game/client/BulletPhysicsNativeImpl.kt:94-98 | The read-back calls of a prefix grow by at most one query per step. |
| BulletPhysics.BulletPhysicsNativeImpl.constructor | NativeActivityTest/app/src/main/java/io/snower/game/client/BulletPhysicsNativeImpl.kt:30-32 | The binding starts with no world and no boxes. |
| BulletPhysics.BulletPhysicsNativeImpl.Init | NativeActivityTest/app/src/main/java/io/snower/game/client/BulletPhysicsNativeImpl.kt:34-37 | `init` fails unless `worldHandle` is 0, and otherwise makes the created world current. |
| BulletPhysics.BulletPhysicsNativeImpl.Destroy | NativeActivityTest/app/src/main/java/io/snower/game/client/BulletPhysicsNativeImpl.kt:39-43 | `destroy` fails unless a world exists. It deletes the world and clears the boxes, but does not reset the handle, so a later `init` fails. |
| BulletPhysics.BulletPhysicsNativeImpl.Register | NativeActivityTest/app/src/main/java/io/snower/game/client/BulletPhysicsNativeImpl.kt:45-53 | Idempotent: a registered box creates no second body. A new box gets a body created at its position and size, and is appended. |
| BulletPhysics.BulletPhysicsNativeImpl.Unregister | NativeActivityTest/app/src/main/java/io/snower/game/client/BulletPhysicsNativeImpl.kt:55-61 | An unregistered box changes nothing. Otherwise it deletes exactly that body and removes the box. |
| BulletPhysics.BulletPhysicsNativeImpl.Simulate | NativeActivityTest/app/src/main/java/io/snower/game/client/BulletPhysicsNativeImpl.kt:69-123 | The commit calls, one world step of delta/1000 seconds, then the read-back calls. Afterwards every registered box has both commit flags false and the polled state. |
| BulletPhysics.CommitAll | NativeActivityTest/app/src/main/java/io/snower/game/client/BulletPhysicsNativeImpl.kt:73-88 | The commit loop issues exactly the commit calls and clears both flags of every box, leaving states and handles alone. |
| BulletPhysics.PollAll | NativeActivityTest/app/src/main/java/io/snower/game/client/BulletPhysicsNativeImpl.kt:94-120 | The read-back loop queries exactly the boxes with mass and updates their state from their bodies. Static boxes are untouched. |
| BulletPhysics.CommitBox | NativeActivityTest/app/src/main/java/io/snower/game/client/BulletPhysicsNativeImpl.kt:74-87 | One box of the commit loop: the updates its flags call for, and then both flags cleared. |
| BulletPhysics.PollBox | NativeActivityTest/app/src/main/java/io/snower/game/client/BulletPhysicsNativeImpl.kt:95-119 | One box of the read-back loop: skipped when its mass is 0, otherwise queried and updated. |
| Boxes.Box.constructor | NativeActivityTest/app/src/main/java/io/snower/game/common/Box.kt:7-24 | A new box has both commit flags true and null physics and renderer handles. The default rotation is the identity quaternion (0, 0, 0, 1), and the default texture is METAL_ID (3). |
| Boxes.Box.SetPosition | NativeActivityTest/app/src/main/java/io/snower/game/common/Box.kt:33-37 | Assigning position stores a copy and sets `shouldCommitTransformChanges`. The momentum flag is untouched. |
| Boxes.Box.SetRotation | NativeActivityTest/app/src/main/java/io/snower/game/common/Box.kt:39-43 | Assigning rotation stores a copy and sets the transform flag. The momentum flag is untouched. |
| Boxes.Box.SetLinearVelocity | NativeActivityTest/app/src/main/java/io/snower/game/common/Box.kt:45-49 | Assigning linear velocity stores a copy and sets `shouldCommitMomentumChanges`. The transform flag is untouched. |
| Boxes.Box.SetAngularVelocity | NativeActivityTest/app/src/main/java/io/snower/game/common/Box.kt:51-55 | Assigning angular velocity stores a copy and sets the momentum flag. The transform flag is untouched. |
| Boxes.Box.ApplyForce | NativeActivityTest/app/src/main/java/io/snower/game/common/Box.kt:26-31 | `applyForce` adds force/mass to `linearVelocity` and sets the momentum flag. Position, rotation and the transform flag are untouched. |
| Chat.Appended | src/main/kotlin/com/peinbol/client/ChatUI.kt:18-21 | Appending keeps at most the 20 newest entries, and the new entry is last. The result is the suffix of log+[entry] of length min(20, n+1). |
| Chat.AppendedDropsOldest | NativeActivityTest/app/src/main/java/io/snower/game/client/ChatUI.kt:13-16 | Below the cap the entry is appended. At the cap the oldest entry is dropped. |
| Chat.Fresh | src/main/kotlin/com/peinbol/client/ChatUI.kt:24 | On `Young`: The expiry filter keeps exactly the entries younger than 10 000 ms, and no others. |
| Chat.FreshAppend | NativeActivityTest/app/src/main/java/io/snower/game/client/ChatUI.kt:22 | The expiry filter distributes over concatenation. |
| Chat.FreshKeepsYoung | NativeActivityTest/app/src/main/java/io/snower/game/client/ChatUI.kt:22 | Filtering a log whose entries are all young leaves it unchanged. |
| Chat.CodeUnits | src/main/kotlin/com/peinbol/client/ChatUI.kt:25 | A character takes two UTF-16 code units exactly when it lies above U+FFFF, and one otherwise. |
| Chat.Utf16Length | src/main/kotlin/com/peinbol/client/ChatUI.kt:25 | A message's Kotlin `length` lies between its character count and twice that. It equals the character count exactly when every character lies in the Basic Multilingual Plane. |
| Chat.EmojiTakesTwoUnits | NativeActivityTest/app/src/main/java/io/snower/game/client/ChatUI.kt:23 | An emoji such as U+1F600 counts as 2, the same as the two-letter "ab". |
| Chat.LongestLength | src/main/kotlin/com/peinbol/client/ChatUI.kt:25 | The longest message length, in UTF-16 code units, bounds every message and is attained by one of them. |
| Chat.ChatWindow | src/main/kotlin/com/peinbol/client/ChatUI.kt:25-30 | The window is right-aligned with 15 px padding and 24 px per message high. It is wide enough for every message at 8.25 px per UTF-16 code unit, and exactly as wide as the longest. An empty log gives the width of one unit. |
| Chat.EmojiWindow | NativeActivityTest/app/src/main/java/io/snower/game/client/ChatUI.kt:23-28 | A log holding one emoji gets a window 16.5 px wide, two code units. |
| Chat.Rows | src/main/kotlin/com/peinbol/client/ChatUI.kt:32-35 | Each message draws a 20 px dynamic row followed by its right-aligned label, in log order. |
| Chat.BeginEndPaired | NativeActivityTest/app/src/main/java/io/snower/game/client/ChatUI.kt:29-34 | The chat's draw list opens with one Begin, closes with one End, and has no other Begin or End. |
| Chat.DrawRows | NativeActivityTest/app/src/main/java/io/snower/game/client/ChatUI.kt:30-33 | The drawing loop appends exactly Rows(messages) to the drawer. |
| Chat.DesktopChatUI.constructor | src/main/kotlin/com/peinbol/client/ChatUI.kt:16 | The message log starts empty, within the 20-message cap. |
| Chat.DesktopChatUI.AddMessage | src/main/kotlin/com/peinbol/client/ChatUI.kt:18-21 | The log becomes Appended(old log, (msg, now)), and it holds at most 20 messages afterwards, whatever it held before. |
| Chat.DesktopChatUI.Draw | src/main/kotlin/com/peinbol/client/ChatUI.kt:23-37 | Expired entries are dropped first. Then the window is begun at ChatWindow, the rows are drawn only when the window is open, and the window is ended. Dropping entries keeps the 20-message cap. |
| Chat.AndroidChatUI.constructor | NativeActivityTest/app/src/main/java/io/snower/game/client/ChatUI.kt:11-18 | The log starts empty and the chat is visible. |
| Chat.AndroidChatUI.AddMessage | NativeActivityTest/app/src/main/java/io/snower/game/client/ChatUI.kt:13-16 | The log becomes Appended(old log, (msg, now)), and it holds at most 20 messages afterwards. Visibility is unchanged. |
| Chat.AndroidChatUI.Draw | NativeActivityTest/app/src/main/java/io/snower/game/client/ChatUI.kt:20-35 | When hidden, nothing changes and nothing is drawn. When visible, expired entries are dropped and Begin, Rows and End are drawn. Dropping entries keeps the 20-message cap. |
| AndroidClient.HealthUI.constructor | NativeActivityTest/app/src/main/java/io/snower/game/client/HealthUI.kt:11 | A health bar starts at 100. |
| AndroidClient.VolumeShape | NativeActivityTest/app/src/main/java/io/snower/game/client/MainActivity.kt:308-311 | On `VolumeFor`: A character's walking volume is 0 exactly when its speed is below 0.5. Otherwise it lies in [0.2, 1], reaches 1 from speed 2.5, and does not decrease as the speed grows. |
| AndroidClient.PitchShape | NativeActivityTest/app/src/main/java/io/snower/game/client/MainActivity.kt:308-313 | On `PitchFor`: At speed 0.5 or more the pitch lies in [0.5, 1]. Below that the previous pitch is kept. |
| AndroidClient.Client.constructor | NativeActivityTest/app/src/main/java/io/snower/game/client/MainActivity.kt:62-89 | A new client holds the given physics, renderers, UI parts and touch controls. It has no boxes, no sound sources, `myBoxId` -1, the default last input state, and nothing sent or registered with audio. Physics and the world renderer start empty. |
| AndroidClient.Client.AddBox | NativeActivityTest/app/src/main/java/io/snower/game/client/MainActivity.kt:318-343 | An id already known changes nothing. A new box is mapped under its id and appended to physics and to the world renderer. A character gets a fresh looping WALK source at its position with volume 1, which is registered. A sphere registers a one-shot SHOOT source with volume 0.5. Any other box registers no sound. The client invariant is kept. |
| AndroidClient.Client.RemoveBox | NativeActivityTest/app/src/main/java/io/snower/game/client/MainActivity.kt:345-364 | An unknown id changes nothing. A known box leaves the map, physics and the world renderer. A character's source is unregistered and dropped. A sphere registers a one-shot SPLASH source at its position. The client invariant is kept. |
| AndroidClient.Client.Enter | NativeActivityTest/app/src/main/java/io/snower/game/client/MainActivity.kt:320-322 | A box with a new id is mapped under it, registered with physics under the handle physics issues, and appended to the world renderer. Its motion state, colour, sounds, audio and sent messages are unchanged, and every mapped box stays in physics. |
| AndroidClient.Client.Leave | NativeActivityTest/app/src/main/java/io/snower/game/client/MainActivity.kt:346-349 | A known box leaves the map, and the sound sources become the given ones, which must match the remaining characters. The box is removed from physics and from the world renderer, and everything else there keeps its order. The invariant holds again. Its motion state, audio and sent messages are unchanged. |
| AndroidClient.Client.OnSpawn | NativeActivityTest/app/src/main/java/io/snower/game/client/MainActivity.kt:167-173 | `myBoxId` becomes the spawned id. If that box is known, it is removed from the world renderer only: it stays in the map and in physics. |
| AndroidClient.Client.OnBoxAdded | NativeActivityTest/app/src/main/java/io/snower/game/client/MainActivity.kt:174-192 | A fresh box is built from every field of the BoxAdded message and added. The map changes if and only if the id was unknown. |
| AndroidClient.Client.OnBoxUpdateMotion | NativeActivityTest/app/src/main/java/io/snower/game/client/MainActivity.kt:193-216 | A known box takes the message's rotation, position and both velocities, and both commit flags are set. An unknown id changes nothing. |
| AndroidClient.Client.OnNotifyHit | NativeActivityTest/app/src/main/java/io/snower/game/client/MainActivity.kt:226-245 | When both boxes are known, the victim turns red and a one-shot HIT source is registered at the emitter's position. Otherwise nothing is registered. The map and the motion state are unchanged. |
| AndroidClient.Client.HandleNetworkMessage | NativeActivityTest/app/src/main/java/io/snower/game/client/MainActivity.kt:165-251 | Dispatches on the message kind and keeps the invariant. SetHealth and ServerMessage fail exactly when the health or chat UI element is missing, which is the source's `!!`. On success they set the health or append to the chat. Spawn, BoxAdded, BoxUpdateMotion, RemoveBox and NotifyHit have the effects above. Only BoxAdded and RemoveBox change the box map. Nothing is sent. |
| AndroidClient.SoundsAfterAddCharacter | NativeActivityTest/app/src/main/java/io/snower/game/client/MainActivity.kt:318-343 | Adding a character under a new id, with a fresh source, keeps every character matched with exactly one source. |
| AndroidClient.SoundsAfterAddOther | NativeActivityTest/app/src/main/java/io/snower/game/client/MainActivity.kt:318-343 | Adding a box that is not a character keeps the sounds matched without a new source. |
| AndroidClient.SoundsAfterRemove | NativeActivityTest/app/src/main/java/io/snower/game/client/MainActivity.kt:345-364 | Removing a character drops its source, and removing any other box leaves the sources alone. The sounds stay matched either way. |
| AndroidClient.Client.FollowBoxes | NativeActivityTest/app/src/main/java/io/snower/game/client/MainActivity.kt:301-315 | The loop over the registered sources moves each character's source to its box, with VolumeFor(speed) and PitchFor(speed, old pitch). Sources of non-characters keep position, volume and pitch. |
| AndroidClient.Client.UpdateSounds | NativeActivityTest/app/src/main/java/io/snower/game/client/MainActivity.kt:301-315 | Every character's source follows its box's position, with VolumeFor(speed) and PitchFor(speed, old pitch). Sources of non-characters are untouched. |
| AndroidClient.Client.MoveCamera | NativeActivityTest/app/src/main/java/io/snower/game/client/MainActivity.kt:261-287 | The camera yaw is decreased by the horizontal rotation, modulo 360. The camera pitch is decreased by the vertical rotation and clamped. The camera is placed 0.8 above the player's box when that box is known. |
| AndroidClient.ReadingOf | NativeActivityTest/app/src/main/java/io/snower/game/client/MainActivity.kt:262-276 | The reading takes the rotation deltas from the touch state and the four direction flags from the movement controls, unchanged. |
| AndroidClient.Client.Steer | NativeActivityTest/app/src/main/java/io/snower/game/client/MainActivity.kt:261-299 | The camera turns by the reading taken before `readDone`. The input state is built from that reading and the new angles. Both rotation deltas decay to 70%. The input is sent exactly when it differs from the last one sent, and it is remembered. The camera follows the player's box. |
| AndroidClient.Client.SendIfChanged | NativeActivityTest/app/src/main/java/io/snower/game/client/MainActivity.kt:295-299 | The input is sent exactly when it differs from the last one sent, and it becomes the last one sent either way. |
| AndroidClient.Client.Update | NativeActivityTest/app/src/main/java/io/snower/game/client/MainActivity.kt:261-316 | The reading is what the touch controls hold when update starts: the rotation deltas and the direction flags. The camera yaw and pitch move by it. The input state is built from the direction flags and the new camera angles. `readDone` then decays both rotation deltas to 70% and leaves the rest of the touch state alone. The input is sent and remembered exactly when it differs from the last one sent. The camera follows the player's box, and the sound sources follow their boxes as UpdateSounds states. The box map and the audio registrations are unchanged. |
| Controls.ToInt | NativeActivityTest/app/src/main/java/io/snower/game/client/AndroidControls.kt:15-16 | `Long.toInt()` of a 32-bit colour literal is its low 32 bits read as a signed value. |
| Controls.InitialConsistent | NativeActivityTest/app/src/main/java/io/snower/game/client/AndroidControls.kt:39-60 | The initial touch state satisfies Consistent. It has no aim-zone wait, shoting is on exactly when a shot finger is held, aiming needs the rotation finger, and the sensitivity is one of the two constants. |
| Controls.StepConsistent | NativeActivityTest/app/src/main/java/io/snower/game/client/AndroidControls.kt:57-134 | On `PointerStep`: Every pointer step keeps Consistent. In particular `waitingUntilExitAimZone` is never set, so the branch at line 106 is dead. |
| Controls.RotationMoveTurns | NativeActivityTest/app/src/main/java/io/snower/game/client/AndroidControls.kt:102-117 | Moving the rotation finger adds (new - last) × sensitivity to each rotation delta and records the new position. The finger roles are unchanged. |
| Controls.StrayMoveIgnored | NativeActivityTest/app/src/main/java/io/snower/game/client/AndroidControls.kt:102-122 | A move by a finger that is neither the rotation nor the movement finger changes nothing. |
| Controls.LeftDown | NativeActivityTest/app/src/main/java/io/snower/game/client/AndroidControls.kt:64-81 | A press on the left half starts a shot exactly when aiming, no shot finger is held and the press is inside the quick-shot circle. Otherwise it claims the movement finger exactly when that finger is free. Rotation and aiming are untouched. |
| Controls.RightDown | NativeActivityTest/app/src/main/java/io/snower/game/client/AndroidControls.kt:82-100 | A press on the right half claims the rotation finger exactly when it is free and resets both deltas. Inside the aim ring it turns aiming on with the aiming sensitivity. Elsewhere the sensitivity is the default. When the rotation finger is held, nothing changes. |
| Controls.UpReleasesOne | NativeActivityTest/app/src/main/java/io/snower/game/client/AndroidControls.kt:123-134 | A release frees at most one role, in the priority rotation, then movement, then shot. Releasing the rotation finger also stops aiming. Releasing the shot finger stops the shot. |
| Controls.MoveKeepsRoles | NativeActivityTest/app/src/main/java/io/snower/game/client/AndroidControls.kt:147-159 | A move event never changes the finger roles, shoting or aiming. |
| Controls.MoveWithoutHistory | NativeActivityTest/app/src/main/java/io/snower/game/client/AndroidControls.kt:150 | A move event without history is ignored. |
| Controls.MoveConsistent | NativeActivityTest/app/src/main/java/io/snower/game/client/AndroidControls.kt:147-159 | A move event keeps Consistent. |
| Controls.EventConsistent | NativeActivityTest/app/src/main/java/io/snower/game/client/AndroidControls.kt:138-164 | On `EventStep`: Any motion event keeps Consistent. |
| Controls.SectorMapping | NativeActivityTest/app/src/main/java/io/snower/game/client/AndroidControls.kt:224-228 | On `SectorOf`: The heading is truncated into one of the 45° sectors -4..4. Right is exactly (-45, 45). Forward is exactly (-135, -45]. Backwards is exactly [45, 135). Left is exactly the rest of the circle except ±180. At most one direction is on, and none at exactly ±180. |
| Controls.FovBounds | NativeActivityTest/app/src/main/java/io/snower/game/client/AndroidControls.kt:172-176 | On `FovStep`: One frame moves the field of view 6° toward 10 when aiming, or toward 50 when not, clamped to [10, 50]. |
| Controls.FovSettles | NativeActivityTest/app/src/main/java/io/snower/game/client/AndroidControls.kt:172-176 | On `FovStep`: After enough frames the field of view settles at 10 while aiming and at 50 otherwise. |
| Controls.CircleCall | NativeActivityTest/app/src/main/java/io/snower/game/client/AndroidControls.kt:301-312 | `drawCircle` strokes when the thickness is nonzero and fills otherwise. Its bounding box has the given centre and diameter 2r. |
| Controls.WindowsBracketed | NativeActivityTest/app/src/main/java/io/snower/game/client/AndroidControls.kt:189-299 | Each of the three control windows opens with one Begin, closes with one End, and contains no other Begin or End, whether or not `begin` returned true. |
| Controls.AndroidControls.constructor | NativeActivityTest/app/src/main/java/io/snower/game/client/AndroidControls.kt:31-60 | The controls start with no fingers, no deltas, the default sensitivity, no direction flags and a 100×100 size. |
| Controls.AndroidControls.PointerUpdate | NativeActivityTest/app/src/main/java/io/snower/game/client/AndroidControls.kt:62-136 | The touch state becomes PointerStep of the old state. The direction flags, size and field of view are unchanged. |
| Controls.AndroidControls.PointerDown | NativeActivityTest/app/src/main/java/io/snower/game/client/AndroidControls.kt:64-101 | The Down branch of PointerStep. The other fields are unchanged. |
| Controls.AndroidControls.MovementDown | NativeActivityTest/app/src/main/java/io/snower/game/client/AndroidControls.kt:65-81 | The touch state becomes MovementDownStep, the left-half press that LeftDown characterises. |
| Controls.AndroidControls.RotationDown | NativeActivityTest/app/src/main/java/io/snower/game/client/AndroidControls.kt:82-100 | The touch state becomes RotationDownStep, the right-half press that RightDown characterises. |
| Controls.AndroidControls.PointerMove | NativeActivityTest/app/src/main/java/io/snower/game/client/AndroidControls.kt:102-122 | The touch state becomes MoveStep: the rotation finger turns, the movement finger moves the knob, and any other finger changes nothing (StrayMoveIgnored). |
| Controls.AndroidControls.RotationMove | NativeActivityTest/app/src/main/java/io/snower/game/client/AndroidControls.kt:103-117 | The touch state becomes RotationMoveStep, which RotationMoveTurns characterises outside the aim corner. |
| Controls.AndroidControls.PointerUp | NativeActivityTest/app/src/main/java/io/snower/game/client/AndroidControls.kt:123-134 | The touch state becomes UpStep, the release that UpReleasesOne characterises. |
| Controls.AndroidControls.ProcessEvent | NativeActivityTest/app/src/main/java/io/snower/game/client/AndroidControls.kt:138-164 | The touch state becomes EventStep of the old state. Down and pointer-down dispatch the action pointer. Move dispatches every pointer whose position differs from its first history entry. Up and pointer-up dispatch the action pointer. The invariant is kept. |
| Controls.AndroidControls.DrawCircle | NativeActivityTest/app/src/main/java/io/snower/game/client/AndroidControls.kt:301-312 | Records exactly CircleCall. |
| Controls.AndroidControls.UpdateAndDrawMovement | NativeActivityTest/app/src/main/java/io/snower/game/client/AndroidControls.kt:189-237 | Draws MovementCalls. Inside the open window the direction flags follow SectorOf(heading) while the movement finger is held, and are cleared otherwise. They are kept when the window is closed. |
| Controls.AndroidControls.DrawMovement | NativeActivityTest/app/src/main/java/io/snower/game/client/AndroidControls.kt:189-237 | Records exactly MovementCalls: Begin, the ring and the knob (at the centre, or offset while the finger is held) inside an open window, then End. |
| Controls.AndroidControls.Steer | NativeActivityTest/app/src/main/java/io/snower/game/client/AndroidControls.kt:216-231 | With no movement finger all four flags are cleared. Otherwise they become DirectionOf the heading's sector. The touch state, size and field of view are unchanged. |
| Controls.AndroidControls.DrawAiming | NativeActivityTest/app/src/main/java/io/snower/game/client/AndroidControls.kt:260-299 | Draws AimingCalls. |
| Controls.AndroidControls.DrawShotButtons | NativeActivityTest/app/src/main/java/io/snower/game/client/AndroidControls.kt:239-258 | Draws ShotCalls. The quick-shot ring appears only while aiming. |
| Controls.AndroidControls.Draw | NativeActivityTest/app/src/main/java/io/snower/game/client/AndroidControls.kt:166-177 | Stores the truncated screen size, draws the movement, aiming and shot windows in that order, and moves the field of view by FovStep. |
| Controls.AndroidControls.ReadDone | NativeActivityTest/app/src/main/java/io/snower/game/client/AndroidControls.kt:180-183 | Both rotation deltas decay to 0.7 of their value. The rest of the touch state is unchanged. |
| Texture.BufferSize | NativeActivityTest/app/src/main/java/io/snower/game/client/GLTextureWrapper.kt:23-24 | The pixel buffer holds 4 bytes per pixel: a whole number of RGBA pixels, width × height of them. |
| Texture.LoadOrder | NativeActivityTest/app/src/main/java/io/snower/game/client/GLTextureWrapper.kt:41-52 | Loading generates the texture name, then binds it, then sets both filters and both wraps. It uploads the image with the wrapper's size and buffer exactly once, after the bind. |
| Texture.GLTextureWrapper.constructor | NativeActivityTest/app/src/main/java/io/snower/game/client/GLTextureWrapper.kt:15-34 | A wrapper holds its buffer and size, is not loaded, and has id 0. |
| Texture.GLTextureWrapper.Load | NativeActivityTest/app/src/main/java/io/snower/game/client/GLTextureWrapper.kt:36-53 | Loading is idempotent. A second call issues no GL call. The first call takes a fresh texture name as its id and issues exactly LoadCalls. |
| Texture.GLTextureWrapper.Bind | NativeActivityTest/app/src/main/java/io/snower/game/client/GLTextureWrapper.kt:55-58 | Binding issues one BindTexture(id) when loaded, and nothing otherwise. |
| Texture.GLTextureWrapper.Unload | NativeActivityTest/app/src/main/java/io/snower/game/client/GLTextureWrapper.kt:60-64 | Unloading deletes the texture exactly when it was loaded, and then marks it unloaded. |
| Texture.CreateFromPng | NativeActivityTest/app/src/main/java/io/snower/game/client/GLTextureWrapper.kt:19-28 | Succeeds exactly when the decoded pixels fit a 4-byte-per-pixel buffer of the image size. The result is a fresh, unloaded wrapper holding those pixels and that size. |
| WorldRendering.CubeData | NativeActivityTest/app/src/main/java/io/snower/game/client/WorldRenderer.kt:85-125 | The cube has 36 vertices, with 3 position floats, 3 normal floats and 2 texture-coordinate floats each. Its texture coordinates are TXT_BASE_COORDS. |
| WorldRendering.ColorData | NativeActivityTest/app/src/main/java/io/snower/game/client/WorldRenderer.kt:66-77 | The colour buffer repeats the box's (r, g, b, a) once per vertex: it holds four entries per vertex, and entry j is component j mod 4. |
| WorldRendering.ColorBuffer | NativeActivityTest/app/src/main/java/io/snower/game/client/WorldRenderer.kt:72-77 | The filling loop leaves in a fresh array exactly ColorData for the 36 vertices. |
| WorldRendering.TextureCoordsBuffer | NativeActivityTest/app/src/main/java/io/snower/game/client/WorldRenderer.kt:78-80 | The filling loop leaves in a fresh array each of the 72 base texture coordinates times the multiplier. |
| WorldRendering.BoxRenderer.constructor | NativeActivityTest/app/src/main/java/io/snower/game/client/WorldRenderer.kt:65-82 | A box renderer holds the box colour for every one of the 36 vertices, and the base texture coordinates scaled by the box's texture multiplier. |
| WorldRendering.BlendCall | NativeActivityTest/app/src/main/java/io/snower/game/client/WorldRenderer.kt:399-403 | Blending is enabled exactly for a translucent colour (alpha < 1) and disabled otherwise. |
| WorldRendering.DrawCountAppend | NativeActivityTest/app/src/main/java/io/snower/game/client/WorldRenderer.kt:441 | Draw calls add up over concatenated call lists. |
| WorldRendering.NoDraws | NativeActivityTest/app/src/main/java/io/snower/game/client/WorldRenderer.kt:441 | A call list without DrawArrays draws nothing. |
| WorldRendering.BoxCallsDrawOnce | NativeActivityTest/app/src/main/java/io/snower/game/client/WorldRenderer.kt:395-442 | Each box starts with its blend call and ends with one DrawArrays of 36 vertices, and draws exactly once. |
| WorldRendering.OneDrawPerBox | NativeActivityTest/app/src/main/java/io/snower/game/client/WorldRenderer.kt:395-441 | Drawing the world issues exactly one DrawArrays per box. |
| WorldRendering.LoadsInOrder | NativeActivityTest/app/src/main/java/io/snower/game/client/GLTextureWrapper.kt:36-53 | Loading n textures in a row makes 9 calls each, and the k-th starts with GenTexture of the name after the k earlier ones. |
| WorldRendering.LoadsInOrderSnoc | NativeActivityTest/app/src/main/java/io/snower/game/client/GLTextureWrapper.kt:41-52 | Loading one more texture appends exactly its load calls, under the next name. |
| WorldRendering.LoadNext | NativeActivityTest/app/src/main/java/io/snower/game/client/WorldRenderer.kt:301 | One turn of the texture loop. A texture that was already loaded makes no call and keeps the load order. An unloaded one is appended to the order, takes the next name, and the GL trace grows by exactly its load calls. |
| WorldRendering.LoadAll | NativeActivityTest/app/src/main/java/io/snower/game/client/WorldRenderer.kt:301 | Every texture in the map ends up loaded, and a texture loaded before keeps its name. There is a load order `loaded`: it holds each previously unloaded texture of the map exactly once and nothing else. The k-th texture in it takes the name lastName+k+1, and the GL trace grows by exactly their load calls in that order. The order itself is unspecified, as for a ConcurrentHashMap. |
| WorldRendering.WorldRenderer.constructor | NativeActivityTest/app/src/main/java/io/snower/game/client/WorldRenderer.kt:31-267 | A new renderer has no boxes, no textures, no assets loaded, GL not initialised, program 0, and zeroed size and camera. |
| WorldRendering.WorldRenderer.AddBox | NativeActivityTest/app/src/main/java/io/snower/game/client/WorldRenderer.kt:232-237 | A box already drawn is left alone. A new box is appended and gets a fresh box renderer. Textures, flags and camera are unchanged. |
| WorldRendering.WorldRenderer.RemoveBox | NativeActivityTest/app/src/main/java/io/snower/game/client/WorldRenderer.kt:240-245 | A drawn box is removed and its renderer handle cleared. Otherwise nothing changes. Either way the box is not drawn afterwards. |
| WorldRendering.WorldRenderer.PreloadAssets | NativeActivityTest/app/src/main/java/io/snower/game/client/WorldRenderer.kt:270-295 | The first call merges the decoded textures into the map and stores both shader sources. Later calls change nothing. `assetsLoaded` is then true. |
| WorldRendering.WorldRenderer.Init | NativeActivityTest/app/src/main/java/io/snower/game/client/WorldRenderer.kt:299-307 | The first call loads every texture and links the program. It succeeds and sets `glInited` exactly when linking succeeds. Its GL trace is exactly the load calls of the previously unloaded textures, each once, in some order, under fresh consecutive names. Later calls succeed without GL calls. |
| WorldRendering.WorldRenderer.SetResolution | NativeActivityTest/app/src/main/java/io/snower/game/client/WorldRenderer.kt:309-312 | Stores the viewport size. Nothing else changes. |
| WorldRendering.WorldRenderer.SetCameraRotX | NativeActivityTest/app/src/main/java/io/snower/game/client/WorldRenderer.kt:254-257 | The pitch is clamped to [-85, 85] and then taken `% 360`. |
| WorldRendering.WorldRenderer.SetCameraRotY | NativeActivityTest/app/src/main/java/io/snower/game/client/WorldRenderer.kt:258-261 | The yaw is stored `% 360`, with the sign of the dividend. |
| WorldRendering.WorldRenderer.SetCameraRotZ | NativeActivityTest/app/src/main/java/io/snower/game/client/WorldRenderer.kt:262-265 | The roll is stored `% 360`. |
| WorldRendering.WorldRenderer.BoundTexture | NativeActivityTest/app/src/main/java/io/snower/game/client/WorldRenderer.kt:405 | A box's texture is bound exactly when its id is in the map and that texture is loaded. |
| WorldRendering.WorldRenderer.Views | NativeActivityTest/app/src/main/java/io/snower/game/client/WorldRenderer.kt:395-408 | One view per box, in drawing order. |
| WorldRendering.WorldRenderer.DrawBox | NativeActivityTest/app/src/main/java/io/snower/game/client/WorldRenderer.kt:395-442 | Issues exactly BoxCalls for the box. |
| WorldRendering.WorldRenderer.Draw | NativeActivityTest/app/src/main/java/io/snower/game/client/WorldRenderer.kt:347-409 | Enables face culling and depth testing, uses the program, and then draws every box in order. |
| WorldRendering.WorldRenderer.DrawBoxes | NativeActivityTest/app/src/main/java/io/snower/game/client/WorldRenderer.kt:394-408 | The loop issues exactly BoxesCalls of the boxes' views. |
| Audio.FormatFor | src/main/kotlin/com/peinbol/client/AudioManager.kt:112-117 | Mono gives MONO16, stereo gives STEREO16, and any other channel count gives -1. |
| Audio.AudioSource.constructor | src/main/kotlin/com/peinbol/client/AudioSource.kt:5-14 | A source holds the given fields, with pitch defaulting to 1 and sourceId 0. |
| Audio.KeptExactly | src/main/kotlin/com/peinbol/client/AudioManager.kt:66-80 | The update keeps exactly the sources that are looping or still playing, and no others. |
| Audio.KeptAppend | src/main/kotlin/com/peinbol/client/AudioManager.kt:66-88 | The keep filter distributes over concatenation. |
| Audio.KeptDistinct | src/main/kotlin/com/peinbol/client/AudioManager.kt:66-88 | Removing finished sources keeps the source list free of duplicates. |
| Audio.SourceUpdateCalls | src/main/kotlin/com/peinbol/client/AudioManager.kt:76-87 | A finished one-shot source is stopped and deleted. Any other source gets its gain (volume × 0.7), its max distance and its reference distance. |
| Audio.UpdateStep | src/main/kotlin/com/peinbol/client/AudioManager.kt:66-88 | One loop iteration extends both the kept list and the call list by that source's part. |
| Audio.AudioManager.constructor | src/main/kotlin/com/peinbol/client/AudioManager.kt:22-26 | A new manager has no buffers, no sources and no AL calls. |
| Audio.AudioManager.NewName | src/main/kotlin/com/peinbol/client/AudioManager.kt:46 | `alGenSources` issues a name one above the last. Buffers, sources and the call trace are untouched. |
| Audio.AudioManager.CreateBufferForAudioFile | src/main/kotlin/com/peinbol/client/AudioManager.kt:97-122 | A file that fails to decode is an error, with no AL call. Otherwise a fresh buffer name is generated and filled with the decoded samples in FormatFor(channels). |
| Audio.LoadCalls | src/main/kotlin/com/peinbol/client/AudioManager.kt:37-40 | Loading n files issues exactly 2n calls, a buffer and its data per file. |
| Audio.Loaded | src/main/kotlin/com/peinbol/client/AudioManager.kt:37-40 | After the loop the map's ids are the old ids plus every file's id. |
| Audio.LoadedLast | src/main/kotlin/com/peinbol/client/AudioManager.kt:37-40 | An id ends with the buffer of the last file listed under it. |
| Audio.AudioManager.Init | src/main/kotlin/com/peinbol/client/AudioManager.kt:36-41 | Succeeds exactly when every file decodes. On success the AL calls are the exponent distance model, then per file in order a fresh buffer and its data in the format for its channel count. The buffer map is the old one updated file by file, so every id has a buffer and an id listed twice keeps its last file's. Existing buffers are kept. |
| Audio.AudioManager.RegisterSource | src/main/kotlin/com/peinbol/client/AudioManager.kt:43-52 | A source already registered is a no-op. An audio id without a buffer is an error. Otherwise the source gets a fresh AL source bound to its buffer, with its looping flag, is played, and is appended. |
| Audio.AudioManager.UnregisterSource | src/main/kotlin/com/peinbol/client/AudioManager.kt:54-59 | A registered source is stopped, deleted and removed. An unknown source changes nothing. Either way it is no longer registered. |
| Audio.UpdatePass | src/main/kotlin/com/peinbol/client/AudioManager.kt:66-88 | The loop computes exactly Kept and UpdateCalls of the source list. |
| Audio.AudioManager.Update | src/main/kotlin/com/peinbol/client/AudioManager.kt:61-89 | Sets the listener, then keeps exactly Kept(sources) and issues UpdateCalls for every source in order. |

## Left out

- Network I/O: netty channels, connection threads and message queues. The model receives decoded messages and records what it sends in `sent`.
- Physics numerics: Bullet's solver and `vectorFront`. The solver's outcome enters as a parameter (`bodies` of Simulate), and `vectorFront` is the parameter `front` of the server. The server records its `doPlayerMovement` call as a MovePlayer physics call without computing the movement.
- Floating point: every `Float`/`Double` computation is done on reals, without rounding, NaN or infinity.
- Nuklear internals: `nk_convert` and the command buffer are abstract. `nk_draw_foreach` iterates an abstract command list.
- Nuklear's `block` argument of the transparent-window bracket is an abstract `RunBlock` event. The model does not look into what the block draws.
- server/Server.kt `handleConnection` only logs. `broadcastCurrentWorldState` and the `run` loop schedule the modelled steps on a timer and are not modelled as loops.
- Server.kt (the older server): its `run` loop is not modelled. Its steps are the modelled operations.
- server/Server.kt sends SetHealth, NotifyHit, RemoveBox, ServerMessage and ConnectionInfo, which the Messages.kt codec here does not encode. These messages are values (`Protocol`) without a byte layout.
- The desktop client's NotifyHit colour reset and the Android client's, which run on a separate thread after 100 ms and 150 ms: only the immediate red colour is modelled.
- The Android WorldRenderer's thread pool, PNG decoding and shader loading: `PreloadAssets` receives the decoded textures and shader sources. Matrix set-up, uniform locations and the per-box vertex attribute calls are abstract; each box's calls are its blend call, texture bind and draw.
- OpenAL device and context set-up, `destroy`, and Vorbis decoding: the decoder is a parameter of `Init` and `CreateBufferForAudioFile`. The playing state of a source is a parameter of `Update`.
- The Android activity lifecycle (`onCreate` networking, `onResume`, `onPause`, the GL surface) and the desktop window's GLFW set-up, input polling and drawing.
- Boxes.Box: the Android Box stores the vectors it is given without copying them, so a caller can alias them. The model uses value semantics and does not capture that aliasing.
- Boxes.Box.ApplyForce: requires a nonzero mass. With mass 0 the source divides by zero in floating point and stores infinite velocities, which reals cannot represent.
- NkGles.NkGles.Render: requires a nonzero window size. With a zero size the source's float display scale is infinite or NaN.
- DesktopClient.Client.RemoveBox: requires that the box passed is the one mapped under its id. Every caller passes `boxes[id]`.
- AndroidClient.Client.RemoveBox: requires that the box passed is the one mapped under its id. Every caller passes `boxes[id]`.
- BulletPhysics.CommitBox: requires a registered box (a physics handle). The source casts the handle to `Long` and throws on an unregistered box.
- BulletPhysics.PollBox: requires a registered box, for the same reason as CommitBox.
- Controls.AndroidControls.Draw: the field of view it adjusts is a field of the controls object. In the source it is the world renderer's `fov`, which nothing else in the model reads.
- Controls.SectorMapping: takes the heading in degrees as given. The `atan2` of the knob offset and its clamping to the ring radius are float geometry outside the model.
- Texture.CreateFromPng: the PNG decoder is a parameter. The model states only whether the decoded pixels fit the 4-byte-per-pixel buffer.
- AndroidClient.Client.Update: does not apply `doPlayerMovement` (MainActivity.kt:283) to the player's box. The box's rotation reset, spin stop, velocity push of force 30 capped at 7 (2 when walking), ground braking, jump and `rigidBody.activate()` are float vector geometry on a Bullet body, which the model leaves out; the camera follows the box's position as it stands. The `onDrugs` branch (MainActivity.kt:290-293) is also left out: `onDrugs` is never set to true in that file.
- DesktopClient.Client.Update: its aspect-ratio step follows the corrected DesktopClient.DrugAspect (a float division), not DesktopClient.DrugAspectAsWritten, which models the integer division as written.
- BulletPhysics.PollBox: writes the rotation back through the corrected BulletPhysics.ReadBack, not BulletPhysics.ReadBackAsWritten, which models the source's overwrite of the position.
- BulletPhysics.PollAll: follows the corrected BulletPhysics.ReadBack for every box, as PollBox does.
- BulletPhysics.BulletPhysicsNativeImpl.Simulate: its read-back follows the corrected BulletPhysics.ReadBack, through PollAll.
- Boxes.Box: models the Android client's Box (io.snower.game.common.Box). The server and the desktop client use com.peinbol.Box, which holds a Bullet `rigidBody`; that class is not part of this model. GameServer.Server.Shoot and GameServer.Server.Push (through ShotVelocity, the velocity after `applyForce`) and the commit flags stated by DesktopClient.Client.OnBoxUpdateMotion follow the Android Box's `applyForce` and setters instead.
- NkGles.NkGles.Render: its trace (NkGles.SetupCalls) leaves out `glBlendEquation`, `glBlendFunc`, `glActiveTexture`, the two `glUniform*` calls and the orthographic matrix (nk_gles2_impl.h:182-207). They set fixed GL state with no object of the device created or freed, and the matrix is float arithmetic.
- NkGles.NkGles.DeviceCreate: its trace leaves out the shader sources, the compile and link status queries (their outcomes are the parameters) and the uniform and attribute location lookups (nk_gles2_impl.h:81-143).
- WorldRendering.WorldRenderer.Draw: its trace leaves out `glClearColor`, `glClear`, `glViewport`, `glActiveTexture`, `glBlendFunc`, the projection, view and light matrices and the light-position uniform (WorldRenderer.kt:357-392). They set fixed frame state or are float matrix arithmetic; the model keeps the culling, depth test, program and per-box calls.

## Findings

| source | as written | input that shows it | evidently intended | confidence | as-written member | corrected member |
|---|---|---|---|---|---|---|
| src/main/kotlin/com/peinbol/client/Client.kt:197 | `0.8f + (timedOscillator(1200) / 1200)` divides two `Int`s, so the added term is 0 or 1 and the multiplier jumps between 0.8 and 1.8. | now = 600: the oscillator gives 600, 600 / 1200 = 0, so the multiplier is 0.8 instead of 1.3. | A float division, like the fov line above it, so the multiplier sweeps [0.8, 1.8] smoothly. | not executed | DesktopClient.DrugAspectAsWritten (DesktopClient.DrugAspectAsWrittenSteps) | DesktopClient.DrugAspect (DesktopClient.DrugAspectMidway, DesktopClient.DrugAspectPeak) |
| NativeActivityTest/app/src/main/java/io/snower/game/client/BulletPhysicsNativeImpl.kt:106-108 | Under "update quaternion", the read-back assigns the quaternion's x, y, z (slots 3..5) to `position`. This overwrites the position just read from slots 0..2, and the rotation's x, y, z are never updated. | A body at (0, 5, 0) with the identity rotation reads back with position (0, 0, 0). | Assign slots 3..5 to `rotation.x/y/z`, so that reading back what was written is the identity. | not executed | BulletPhysics.ReadBackAsWritten (BulletPhysics.ReadBackAsWrittenCounterexample) | BulletPhysics.ReadBack (BulletPhysics.ReadBackRoundTrip) |
