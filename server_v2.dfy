/**
 * The game rules of the newer server (src/main/kotlin/com/peinbol/server/Server.kt):
 * the world it builds, the player registry keyed by connection, shot
 * gating, hits and respawn, and bullet expiry.
 *
 * The physics engine, the network and the vector maths are outside the
 * model: physics registration and player movement are events in `physics`,
 * sends and broadcasts are events in `net`, and vectorFront is the
 * function `front`.  Randomness comes from a RandomSource, drawn in the
 * source's order; the clock is the `now` each call receives.
 */
module GameServer {
  import opened Geometry
  import opened Util
  import opened Protocol
  import opened Wrappers
  import Seqs
  import Boxes

  type Box = Boxes.Box

  const RUBIK_ID := 2
  const METAL_ID := Boxes.METAL_ID
  const CLOTH_ID := 4
  const CREEPER_ID := 5
  const FOOTBALL_ID := 6
  const GRASS_ID := 7
  /** The textures a random cube picks from, in the source's order. */
  const CUBE_TEXTURES := [CLOTH_ID, METAL_ID, CREEPER_ID, FOOTBALL_ID, RUBIK_ID]

  const CUBES := 21
  const PERIMETER_WALLS := 4
  const RANDOM_WALLS := 26
  /** Cubes, the base, the perimeter walls and the random walls. */
  const WORLD_BOXES := CUBES + 1 + PERIMETER_WALLS + RANDOM_WALLS

  const SHOT_MILLIS := 200
  const SHOT2_MILLIS := 1000
  const VOLLEY := 5
  const SHOT_FORCE := 300.0
  const FRONT_POS := 1.5
  const BULLET_SIZE := Vec3(0.2, 0.2, 0.2)
  const BULLET_MASS := 3.0
  const BULLET_LIFETIME := 8000
  const HIT_DAMAGE := 10
  const FULL_HEALTH := 100
  const EYE := Vec3(0.0, 0.8, 0.0)

  /** The six kill announcements. */
  const KILL_FORMATS := [
    "{killer} se la dio a {victim}",
    "{killer} no tuvo piedad con {victim}",
    "{victim} no midio las consecuencias al meterse con {killer}",
    "{victim} no vio venir a {killer}",
    "la bala de {killer} atravezo la cabeza de {victim}",
    "{killer} esta dominando a {victim}"
  ]

  /** A client connection; only its identity matters. */
  class Connection {
  }

  class Player {
    const name: string
    const connection: Connection
    const collisionBox: Box
    var inputState: Input
    var lastShot: int
    var health: int

    constructor (name: string, connection: Connection, collisionBox: Box, inputState: Input)
      ensures this.name == name && this.connection == connection && this.collisionBox == collisionBox
      ensures this.inputState == inputState && lastShot == 0 && health == FULL_HEALTH
    {
      this.name := name;
      this.connection := connection;
      this.collisionBox := collisionBox;
      this.inputState := inputState;
      lastShot := 0;
      health := FULL_HEALTH;
    }
  }

  datatype NetEvent = Broadcast(msg: Message) | Send(to: Connection, msg: Message)

  datatype PhysicsCall = RegisterBody(box: Box) | UnregisterBody(box: Box)
                       | MovePlayer(box: Box, input: Input, delta: int)

  /** buildStreamBoxMsg: the BoxAdded fields of a box. */
  function Snapshot(b: Box): BoxData
    reads b
  {
    BoxData(b.id, b.position, b.size, b.linearVelocity, b.angularVelocity, b.rotation,
            b.mass, b.affectedByPhysics, b.textureId, b.textureMultiplier, b.bounceMultiplier,
            b.theColor, b.isSphere, b.isCharacter)
  }

  /** The sends that stream every box of `bs`, in order, to one connection. */
  function StreamOf(to: Connection, bs: seq<Box>): (r: seq<NetEvent>)
    reads bs
    ensures |r| == |bs|
    ensures forall i :: 0 <= i < |bs| ==> r[i] == Send(to, BoxAdded(Snapshot(bs[i])))
  {
    if bs == [] then [] else StreamOf(to, bs[..|bs| - 1]) + [Send(to, BoxAdded(Snapshot(bs[|bs| - 1])))]
  }

  /** The physics.register calls addBox makes for each box of `bs`, in order. */
  function Registered(bs: seq<Box>): (r: seq<PhysicsCall>)
    ensures |r| == |bs|
  {
    if bs == [] then [] else Registered(bs[..|bs| - 1]) + [RegisterBody(bs[|bs| - 1])]
  }

  /** The BoxAdded broadcasts that announce each of `ds`, in order. */
  function Announce(ds: seq<BoxData>): (r: seq<NetEvent>)
    ensures |r| == |ds|
  {
    if ds == [] then [] else Announce(ds[..|ds| - 1]) + [Broadcast(BoxAdded(ds[|ds| - 1]))]
  }

  /** The physics.unRegister calls removeBox makes for each box of `bs`, in order. */
  function Unregistered(bs: seq<Box>): (r: seq<PhysicsCall>)
    ensures |r| == |bs|
  {
    if bs == [] then [] else Unregistered(bs[..|bs| - 1]) + [UnregisterBody(bs[|bs| - 1])]
  }

  /** The RemoveBox broadcasts removeBox makes for each box of `bs`, in order. */
  function Removals(bs: seq<Box>): (r: seq<NetEvent>)
    ensures |r| == |bs|
  {
    if bs == [] then [] else Removals(bs[..|bs| - 1]) + [Broadcast(Message.RemoveBox(bs[|bs| - 1].id))]
  }

  /** Registering one more box adds its call at the end. */
  lemma RegisteredAppend(bs: seq<Box>, b: Box)
    ensures Registered(bs + [b]) == Registered(bs) + [RegisterBody(b)]
  {
    assert (bs + [b])[..|bs|] == bs;
  }

  /** Announcing one more box adds its broadcast at the end. */
  lemma AnnounceAppend(ds: seq<BoxData>, d: BoxData)
    ensures Announce(ds + [d]) == Announce(ds) + [Broadcast(BoxAdded(d))]
  {
    assert (ds + [d])[..|ds|] == ds;
  }

  /** The removal traces grow by one entry when a box is added to the end. */
  lemma RemovedAppend(bs: seq<Box>, b: Box)
    ensures Unregistered(bs + [b]) == Unregistered(bs) + [UnregisterBody(b)]
    ensures Removals(bs + [b]) == Removals(bs) + [Broadcast(Message.RemoveBox(b.id))]
  {
    assert (bs + [b])[..|bs|] == bs;
  }

  /** The registrations of a concatenation are the concatenated registrations. */
  lemma {:induction false} RegisteredConcat(a: seq<Box>, b: seq<Box>)
    ensures Registered(a + b) == Registered(a) + Registered(b)
    decreases |b|
  {
    if b != [] {
      var b', x := b[..|b| - 1], b[|b| - 1];
      assert b == b' + [x];
      assert a + b == (a + b') + [x];
      RegisteredConcat(a, b');
      RegisteredAppend(a + b', x);
      RegisteredAppend(b', x);
    } else {
      assert a + b == a;
    }
  }

  /** The announcements of a concatenation are the concatenated announcements. */
  lemma {:induction false} AnnounceConcat(a: seq<BoxData>, b: seq<BoxData>)
    ensures Announce(a + b) == Announce(a) + Announce(b)
    decreases |b|
  {
    if b != [] {
      var b', x := b[..|b| - 1], b[|b| - 1];
      assert b == b' + [x];
      assert a + b == (a + b') + [x];
      AnnounceConcat(a, b');
      AnnounceAppend(a + b', x);
      AnnounceAppend(b', x);
    } else {
      assert a + b == a;
    }
  }

  // ---------------------------------------------------------------------
  // World generation

  /** The draws one cube and one random wall of generateWorld take. */
  const CUBE_DRAWS := 4
  const WALL_DRAWS := 5
  const WALL_LENGTH := 6.0

  /** The BoxAdded fields of a box that Box(...) builds with its defaults for everything not given. */
  function Built(id: int, position: Vec3, size: Vec3, mass: real, affectedByPhysics: bool,
                 textureId: int, textureMultiplier: real): BoxData
  {
    BoxData(id, position, size, ORIGIN, ORIGIN, IDENTITY, mass, affectedByPhysics, textureId,
            textureMultiplier, 0.0, WHITE, false, false)
  }

  /**
   * A cube of generateWorld's first loop, built from the four draws from
   * `d` on in the source's order: the id, x and z in [-40, 40), the texture.
   */
  function CubeData(stream: nat -> nat, d: nat): BoxData
  {
    Built(GenerateId(stream(d)),
          Vec3(RandBetween(-40, 40, stream(d + 1)) as real, 2.0, RandBetween(-40, 40, stream(d + 2)) as real),
          Vec3(1.0, 1.0, 1.0), 3.0, true, CUBE_TEXTURES[NextInt(|CUBE_TEXTURES|, stream(d + 3))], 1.0)
  }

  /** The first n cubes, drawn one after another from `d` on. */
  function CubesData(stream: nat -> nat, d: nat, n: nat): (r: seq<BoxData>)
    ensures |r| == n
  {
    if n == 0 then [] else CubesData(stream, d, n - 1) + [CubeData(stream, d + CUBE_DRAWS * (n - 1))]
  }

  /** The grass base of generateWorld, 100 by 100 and 1 thick, at the origin. */
  function BaseData(id: int): BoxData
  {
    Built(id, ORIGIN, Vec3(100.0, 1.0, 100.0), 0.0, false, GRASS_ID, 50.0)
  }

  /** The four perimeter walls: 50 high, 2 thick, 100 long, centred 50 from the origin on each side. */
  const PERIMETER_POSITIONS := [Vec3(-50.0, -15.0, 0.0), Vec3(50.0, -15.0, 0.0), Vec3(0.0, -15.0, -50.0), Vec3(0.0, -15.0, 50.0)]
  const PERIMETER_SIZES := [Vec3(2.0, 50.0, 100.0), Vec3(2.0, 50.0, 100.0), Vec3(100.0, 50.0, 2.0), Vec3(100.0, 50.0, 2.0)]

  /** The first n perimeter walls, each with the one draw it takes for its id, from `d` on. */
  function PerimeterData(stream: nat -> nat, d: nat, bricks: int, n: nat): (r: seq<BoxData>)
    requires n <= PERIMETER_WALLS
    ensures |r| == n
  {
    if n == 0 then []
    else PerimeterData(stream, d, bricks, n - 1)
         + [Built(GenerateId(stream(d + n - 1)), PERIMETER_POSITIONS[n - 1], PERIMETER_SIZES[n - 1], 0.0, false, bricks, 10.0)]
  }

  /**
   * A wall of generateWorld's random-wall loop, built from the five draws
   * from `d` on in the source's order: the axis, the height, the id, x and z.
   */
  function WallData(stream: nat -> nat, d: nat): BoxData
  {
    var axis := RandBetween(0, 2, stream(d));
    Built(GenerateId(stream(d + 2)),
          Vec3(RandBetween(-50, 50, stream(d + 3)) as real, 2.0, RandBetween(-50, 50, stream(d + 4)) as real),
          Vec3(if axis == 0 then 2.0 else WALL_LENGTH, RandBetween(3, 10, stream(d + 1)) as real,
               if axis == 0 then WALL_LENGTH else 2.0),
          0.0, false, METAL_ID, 1.0)
  }

  /** The first n random walls, drawn one after another from `d` on. */
  function WallsData(stream: nat -> nat, d: nat, n: nat): (r: seq<BoxData>)
    ensures |r| == n
  {
    if n == 0 then [] else WallsData(stream, d, n - 1) + [WallData(stream, d + WALL_DRAWS * (n - 1))]
  }

  /** Every cube is a unit cube of mass 3 standing at y = 2 within 40 of the centre, with one of the five textures. */
  lemma {:induction false} CubesShape(stream: nat -> nat, d: nat, n: nat, k: nat)
    requires k < n
    ensures CubesData(stream, d, n)[k] == CubeData(stream, d + CUBE_DRAWS * k)
    ensures var c := CubesData(stream, d, n)[k];
      c.size == Vec3(1.0, 1.0, 1.0) && c.mass == 3.0 && c.affectedByPhysics && c.textureId in CUBE_TEXTURES
      && -40.0 <= c.position.x < 40.0 && c.position.y == 2.0 && -40.0 <= c.position.z < 40.0
    decreases n
  {
    if k < n - 1 {
      CubesShape(stream, d, n - 1, k);
    } else {
      CubeShape(stream, d + CUBE_DRAWS * k);
    }
  }

  /** The shape of one cube. */
  lemma CubeShape(stream: nat -> nat, d: nat)
    ensures var c := CubeData(stream, d);
      c.size == Vec3(1.0, 1.0, 1.0) && c.mass == 3.0 && c.affectedByPhysics && c.textureId in CUBE_TEXTURES
      && -40.0 <= c.position.x < 40.0 && c.position.y == 2.0 && -40.0 <= c.position.z < 40.0
  {
  }

  /** Every random wall is a static 6 by 2 slab along x or z, between 3 and 9 high, standing at y = 2 inside the perimeter. */
  lemma {:induction false} WallsShape(stream: nat -> nat, d: nat, n: nat, k: nat)
    requires k < n
    ensures WallsData(stream, d, n)[k] == WallData(stream, d + WALL_DRAWS * k)
    ensures var w := WallsData(stream, d, n)[k];
      ((w.size.x == 2.0 && w.size.z == WALL_LENGTH) || (w.size.x == WALL_LENGTH && w.size.z == 2.0))
      && 3.0 <= w.size.y < 10.0 && w.mass == 0.0 && !w.affectedByPhysics && w.textureId == METAL_ID
      && -50.0 <= w.position.x < 50.0 && w.position.y == 2.0 && -50.0 <= w.position.z < 50.0
    decreases n
  {
    if k < n - 1 {
      WallsShape(stream, d, n - 1, k);
    } else {
      WallShape(stream, d + WALL_DRAWS * k);
    }
  }

  /** The shape of one random wall. */
  lemma WallShape(stream: nat -> nat, d: nat)
    ensures var w := WallData(stream, d);
      ((w.size.x == 2.0 && w.size.z == WALL_LENGTH) || (w.size.x == WALL_LENGTH && w.size.z == 2.0))
      && 3.0 <= w.size.y < 10.0 && w.mass == 0.0 && !w.affectedByPhysics && w.textureId == METAL_ID
      && -50.0 <= w.position.x < 50.0 && w.position.y == 2.0 && -50.0 <= w.position.z < 50.0
  {
  }

  /** The draws generateWorld takes: the cubes, the base's id, the perimeter walls' ids, the random walls. */
  const WORLD_DRAWS := CUBE_DRAWS * CUBES + 1 + PERIMETER_WALLS + WALL_DRAWS * RANDOM_WALLS

  /** The whole of generateWorld: the cubes, the base, the perimeter walls and the random walls, drawn in that order from `d` on. */
  function WorldData(stream: nat -> nat, d: nat, bricks: int): (r: seq<BoxData>)
    ensures |r| == WORLD_BOXES
  {
    CubesData(stream, d, CUBES)
    + [BaseData(GenerateId(stream(d + CUBE_DRAWS * CUBES)))]
    + PerimeterData(stream, d + CUBE_DRAWS * CUBES + 1, bricks, PERIMETER_WALLS)
    + WallsData(stream, d + CUBE_DRAWS * CUBES + 1 + PERIMETER_WALLS, RANDOM_WALLS)
  }

  /** The cubes drawn one after another grow by the cube drawn from `next` on. */
  lemma CubesStep(stream: nat -> nat, d: nat, n: nat, next: nat)
    requires next == d + CUBE_DRAWS * n
    ensures CubesData(stream, d, n + 1) == CubesData(stream, d, n) + [CubeData(stream, next)]
  {
  }

  /** The perimeter walls grow by the wall whose id is drawn at `next`. */
  lemma PerimeterStep(stream: nat -> nat, d: nat, bricks: int, n: nat, next: nat)
    requires n < PERIMETER_WALLS && next == d + n
    ensures PerimeterData(stream, d, bricks, n + 1)
         == PerimeterData(stream, d, bricks, n)
            + [Built(GenerateId(stream(next)), PERIMETER_POSITIONS[n], PERIMETER_SIZES[n], 0.0, false, bricks, 10.0)]
  {
  }

  /** The random walls drawn one after another grow by the wall drawn from `next` on. */
  lemma WallsStep(stream: nat -> nat, d: nat, n: nat, next: nat)
    requires next == d + WALL_DRAWS * n
    ensures WallsData(stream, d, n + 1) == WallsData(stream, d, n) + [WallData(stream, next)]
  {
  }

  /** The world's boxes are registered part by part: the cubes, the base, the perimeter, the random walls. */
  lemma WorldRegistered(cubes: seq<Box>, base: Box, perimeter: seq<Box>, walls: seq<Box>)
    ensures Registered(cubes + [base] + perimeter + walls)
         == Registered(cubes) + [RegisterBody(base)] + Registered(perimeter) + Registered(walls)
  {
    RegisteredAppend(cubes, base);
    RegisteredConcat(cubes + [base], perimeter);
    RegisteredConcat(cubes + [base] + perimeter, walls);
  }

  /** The broadcasts of the whole world are those of its four parts, in order. */
  lemma WorldAnnounced(stream: nat -> nat, d: nat, bricks: int)
    ensures Announce(WorldData(stream, d, bricks))
         == Announce(CubesData(stream, d, CUBES))
            + [Broadcast(BoxAdded(BaseData(GenerateId(stream(d + CUBE_DRAWS * CUBES)))))]
            + Announce(PerimeterData(stream, d + CUBE_DRAWS * CUBES + 1, bricks, PERIMETER_WALLS))
            + Announce(WallsData(stream, d + CUBE_DRAWS * CUBES + 1 + PERIMETER_WALLS, RANDOM_WALLS))
  {
    var c := CubesData(stream, d, CUBES);
    var b := [BaseData(GenerateId(stream(d + CUBE_DRAWS * CUBES)))];
    var p := PerimeterData(stream, d + CUBE_DRAWS * CUBES + 1, bricks, PERIMETER_WALLS);
    var w := WallsData(stream, d + CUBE_DRAWS * CUBES + 1 + PERIMETER_WALLS, RANDOM_WALLS);
    AnnounceAppend([], b[0]);
    assert [] + b == b;
    AnnounceConcat(c, b);
    AnnounceConcat(c + b, p);
    AnnounceConcat(c + b + p, w);
  }

  // ---------------------------------------------------------------------
  // Health

  /** A target's health after one hit: 10 less, or back to full once it reaches 0. */
  function AfterHit(health: int): int
  {
    if health - HIT_DAMAGE <= 0 then FULL_HEALTH else health - HIT_DAMAGE
  }

  /** The health values a player can have: 10, 20, ..., 100. */
  predicate HealthStep(health: int)
  {
    0 < health <= FULL_HEALTH && health % HIT_DAMAGE == 0
  }

  /** Starting from full health, hits keep health among 10, 20, ..., 100. */
  lemma HitKeepsHealthStep(health: int)
    requires HealthStep(health)
    ensures HealthStep(AfterHit(health))
    ensures health == HIT_DAMAGE ==> AfterHit(health) == FULL_HEALTH
    ensures health > HIT_DAMAGE ==> AfterHit(health) == health - HIT_DAMAGE
  {
  }

  /** Health after n hits. */
  function AfterHits(health: int, n: nat): int
    decreases n
  {
    if n == 0 then health else AfterHit(AfterHits(health, n - 1))
  }

  /** A full-health player survives nine hits and respawns at full health on the tenth. */
  lemma {:induction false} TenHitsRespawn(n: nat)
    requires n <= 10
    ensures n < 10 ==> AfterHits(FULL_HEALTH, n) == FULL_HEALTH - HIT_DAMAGE * n
    ensures n == 10 ==> AfterHits(FULL_HEALTH, n) == FULL_HEALTH
    decreases n
  {
    if n > 0 {
      TenHitsRespawn(n - 1);
    }
  }

  // ---------------------------------------------------------------------
  // Shot gating

  /**
   * The number of bullets updatePlayer fires, given the input and the time
   * since the last shot.  Primary fire sets lastShot to now before the
   * secondary gate is checked, so that gate then sees 0 elapsed.
   */
  function VolleySize(input: Input, elapsed: int): (r: nat)
    ensures r <= VOLLEY
    ensures r > 0 ==> input.fire || input.fire2
  {
    if input.fire && elapsed > SHOT_MILLIS then 1
    else if input.fire2 && elapsed > SHOT2_MILLIS then VOLLEY
    else 0
  }

  /** At most one volley per update: one bullet, five, or none, each behind its own delay. */
  lemma VolleyGates(input: Input, elapsed: int)
    ensures VolleySize(input, elapsed) in {0, 1, VOLLEY}
    ensures VolleySize(input, elapsed) == 1 <==> input.fire && elapsed > SHOT_MILLIS
    ensures VolleySize(input, elapsed) == VOLLEY <==>
      (input.fire2 && elapsed > SHOT2_MILLIS && !input.fire)
    ensures VolleySize(input, elapsed) > 0 ==> elapsed > SHOT_MILLIS
  {
  }

  // ---------------------------------------------------------------------
  // Kill messages

  /** The kill announcement: "{victim}" is filled in first, then "{killer}", in the text that results. */
  function KillMessage(format: string, victim: string, killer: string): string
  {
    Util.Replace(Util.Replace(format, "{victim}", victim), "{killer}", killer)
  }

  /**
   * A format naming the killer first: with texts and names free of '{',
   * each placeholder is replaced by its name and everything else is kept.
   */
  lemma KillerFirst(a: string, b: string, c: string, victim: string, killer: string)
    requires '{' !in a && '{' !in b && '{' !in c && '{' !in victim && '{' !in killer
    ensures KillMessage(a + "{killer}" + b + "{victim}" + c, victim, killer) == a + killer + b + victim + c
  {
    Util.FillLaterFirst(a, b, c, "{killer}", "{victim}", killer, victim);
  }

  /** A format naming the victim first: the same fill-in, in the other order. */
  lemma VictimFirst(a: string, b: string, c: string, victim: string, killer: string)
    requires '{' !in a && '{' !in b && '{' !in c && '{' !in victim && '{' !in killer
    ensures KillMessage(a + "{victim}" + b + "{killer}" + c, victim, killer) == a + victim + b + killer + c
  {
    Util.FillInOrder(a, b, c, "{victim}", "{killer}", victim, killer);
  }

  /** Where a killed player reappears with the draws at `d` and `d + 1`: x and z in [-20, 20), 5 above the ground. */
  function RespawnSpot(stream: nat -> nat, d: nat): (r: Vec3)
    ensures -20.0 <= r.x < 20.0 && r.y == 5.0 && -20.0 <= r.z < 20.0
  {
    Vec3(RandBetween(-20, 20, stream(d)) as real, 5.0, RandBetween(-20, 20, stream(d + 1)) as real)
  }

  /** A non-empty list of kill formats. */
  type Formats = s: seq<string> | |s| > 0 witness [""]

  /** The kill format onPlayerHitPlayer picks from `formats` with the draw at `d`. */
  function KillFormat(formats: Formats, stream: nat -> nat, d: nat): string
  {
    formats[NextInt(|formats|, stream(d))]
  }

  /**
   * What onPlayerHitPlayer sends when `emitter` hits `target` at `health`:
   * the lowered health to the target and the hit to everyone, then, when it
   * kills, the kill message to everyone and full health to the target.
   */
  function HitEvents(emitter: Player, target: Player, health: int, format: string): seq<NetEvent>
  {
    [Send(target.connection, SetHealth(health - HIT_DAMAGE)),
     Broadcast(NotifyHit(emitter.collisionBox.id, target.collisionBox.id))]
    + if health - HIT_DAMAGE <= 0 then KillEventsOf(emitter, target, format) else []
  }

  /** The two messages of a kill: the filled-in kill format to everyone, then full health to the target. */
  function KillEventsOf(emitter: Player, target: Player, format: string): seq<NetEvent>
  {
    [Broadcast(ServerMessage(KillMessage(format, target.name, emitter.name))),
     Send(target.connection, SetHealth(FULL_HEALTH))]
  }

  /** A hit that kills sends four messages, any other two; the first always carries the lowered health. */
  lemma HitEventsShape(emitter: Player, target: Player, health: int, format: string)
    ensures var r := HitEvents(emitter, target, health, format);
      |r| == (if health - HIT_DAMAGE <= 0 then 4 else 2)
      && r[0] == Send(target.connection, SetHealth(health - HIT_DAMAGE))
      && (health - HIT_DAMAGE <= 0 ==> r[|r| - 1] == Send(target.connection, SetHealth(FULL_HEALTH)))
  {
  }

  // ---------------------------------------------------------------------
  // Shots, as values

  /** The draws a bullet takes: its id and the three channels of its colour. */
  const BULLET_DRAWS := 4
  /** The origins of a volley, in degrees from the camera, in firing order. */
  const VOLLEY_FAN := [-40.0, -20.0, 0.0, 20.0, 40.0]

  /**
   * The BoxAdded fields a bullet is announced with: the id and the colour
   * from the four draws from `d` on, a 0.2 metal sphere of mass 3 at
   * `position`, still at rest (the push comes after the announcement).
   */
  function BulletData(stream: nat -> nat, d: nat, position: Vec3): BoxData
  {
    BoxData(GenerateId(stream(d)), position, BULLET_SIZE, ORIGIN, ORIGIN, IDENTITY, BULLET_MASS, true,
            METAL_ID, 1.0, 0.8, Color(UnitOf(stream(d + 1)), UnitOf(stream(d + 2)), UnitOf(stream(d + 3)), 1.0),
            true, false)
  }

  /** The origin angle of pass `idx` of a volley: `i = idx - 2`, 20 degrees apart. */
  function VolleyAngle(cameraY: real, idx: int): real
  {
    cameraY + ((idx - 2) * 20) as real
  }

  /** The map after `m[k] = v` for each k of `ks`, in order. */
  function Stamp<K, V>(m: map<K, V>, ks: seq<K>, v: V): (r: map<K, V>)
    ensures r.Keys == m.Keys + (set k | k in ks)
    ensures forall k :: k in r ==> r[k] == if k in ks then v else m[k]
  {
    if ks == [] then m
    else
      var init := ks[..|ks| - 1];
      Stamp(m, init, v)[ks[|ks| - 1] := v]
  }

  /** Each bullet of `bullets` is a sphere moving at `velocity` from where `announced` placed it. */
  ghost predicate Moving(bullets: seq<Box>, announced: seq<BoxData>, velocity: Vec3)
    reads bullets
  {
    |announced| == |bullets|
    && forall i :: 0 <= i < |bullets| ==>
         bullets[i].isSphere && bullets[i].linearVelocity == velocity && bullets[i].position == announced[i].position
  }

  /** One more bullet moving as it should keeps the list moving. */
  lemma MovingAppend(bullets: seq<Box>, announced: seq<BoxData>, velocity: Vec3, b: Box, data: BoxData)
    requires Moving(bullets, announced, velocity)
    requires b.isSphere && b.linearVelocity == velocity && b.position == data.position
    ensures Moving(bullets + [b], announced + [data], velocity)
  {
  }

  /** Stamping one more key is one more update. */
  lemma StampAppend<K, V>(m: map<K, V>, ks: seq<K>, k: K, v: V)
    ensures Stamp(m, ks + [k], v) == Stamp(m, ks, v)[k := v]
  {
    assert (ks + [k])[..|ks|] == ks;
  }

  // ---------------------------------------------------------------------
  // The server

  /** One cube of generateWorld's first loop, drawn as the source draws it. */
  method NewCube(random: RandomSource) returns (box: Boxes.Box)
    modifies random
    ensures fresh(box) && random.drawn == old(random.drawn) + CUBE_DRAWS
    ensures Snapshot(box) == CubeData(random.stream, old(random.drawn))
  {
    var id := random.Id();
    var x := random.Between(-40, 40);
    var z := random.Between(-40, 40);
    var t := random.Index(|CUBE_TEXTURES|);
    box := new Boxes.Box(id := id, mass := 3.0, position := Vec3(x as real, 2.0, z as real),
                         size := Vec3(1.0, 1.0, 1.0), textureId := CUBE_TEXTURES[t],
                         affectedByPhysics := true);
  }

  /** One wall of generateWorld's random-wall loop: a static metal slab, 6 long, 3 to 9 high, along x or z. */
  method RandomWall(random: RandomSource) returns (wall: Boxes.Box)
    modifies random
    ensures fresh(wall) && random.drawn == old(random.drawn) + WALL_DRAWS
    ensures Snapshot(wall) == WallData(random.stream, old(random.drawn))
  {
    ghost var d := random.drawn;
    var length := WALL_LENGTH;
    var axis := random.Between(0, 2);
    var height := random.Between(3, 10);
    var id := random.Id();
    var x := random.Between(-50, 50);
    var z := random.Between(-50, 50);
    var position := Vec3(x as real, 2.0, z as real);
    var size := Vec3(if axis == 0 then 2.0 else length, height as real, if axis == 0 then length else 2.0);
    assert WallData(random.stream, d) == Built(id, position, size, 0.0, false, METAL_ID, 1.0);
    wall := new Boxes.Box(id := id, position := position, size := size,
                          affectedByPhysics := false, mass := 0.0, textureId := METAL_ID,
                          textureMultiplier := 1.0);
  }

  class Server {
    const random: RandomSource
    /** vectorFront(angleY, angleX, distance). */
    const front: (real, real, real) -> Vec3
    /** Textures.BRICKS_GREY_ID, whose value is not part of this model. */
    const bricksGreyId: int
    /** The kill formats onPlayerHitPlayer draws from: KILL_FORMATS, fixed at construction. */
    const killFormats: Formats

    var boxes: seq<Box>
    var bulletsAddTimestamp: map<Box, int>
    var bulletEmitter: map<Box, Player>
    var playersByConnections: map<Connection, Player>
    var net: seq<NetEvent>
    var physics: seq<PhysicsCall>

    /** Every box is listed once. */
    ghost predicate Valid()
      reads this`boxes
    {
      Seqs.Distinct(boxes)
    }

    constructor (random: RandomSource, front: (real, real, real) -> Vec3, bricksGreyId: int)
      ensures Valid() && this.random == random && this.front == front && this.bricksGreyId == bricksGreyId
      ensures killFormats == KILL_FORMATS
      ensures boxes == [] && bulletsAddTimestamp == map[] && bulletEmitter == map[]
      ensures playersByConnections == map[] && net == [] && physics == []
    {
      this.random := random;
      this.front := front;
      this.bricksGreyId := bricksGreyId;
      killFormats := KILL_FORMATS;
      boxes := [];
      bulletsAddTimestamp := map[];
      bulletEmitter := map[];
      playersByConnections := map[];
      net := [];
      physics := [];
    }

    /** The objects a hit may change: every player and its collision box. */
    function PlayerObjects(): set<object>
      reads this
    {
      (set c | c in playersByConnections :: playersByConnections[c] as object)
      + (set c | c in playersByConnections :: playersByConnections[c].collisionBox as object)
    }

    /** addBox: register with physics, append, and announce the box to everyone. */
    method AddBox(box: Box)
      modifies this`boxes, this`physics, this`net
      ensures boxes == old(boxes) + [box]
      ensures physics == old(physics) + [RegisterBody(box)]
      ensures net == old(net) + [Broadcast(BoxAdded(Snapshot(box)))]
      ensures old(Valid()) && box !in old(boxes) ==> Valid()
    {
      physics := physics + [RegisterBody(box)];
      boxes := boxes + [box];
      net := net + [Broadcast(BoxAdded(Snapshot(box)))];
    }

    /** removeBox: a listed box leaves physics and the list and is announced once; otherwise nothing happens. */
    method RemoveBox(box: Box)
      requires Valid()
      modifies this`boxes, this`physics, this`net
      ensures Valid() && box !in boxes
      ensures box !in old(boxes) ==> boxes == old(boxes) && physics == old(physics) && net == old(net)
      ensures box in old(boxes) ==>
        (boxes == Seqs.Without(old(boxes), box) && |boxes| == |old(boxes)| - 1
         && physics == old(physics) + [UnregisterBody(box)]
         && net == old(net) + [Broadcast(Message.RemoveBox(box.id))])
      ensures bulletsAddTimestamp == old(bulletsAddTimestamp) && bulletEmitter == old(bulletEmitter)
      ensures playersByConnections == old(playersByConnections)
    {
      if box in boxes {
        physics := physics + [UnregisterBody(box)];
        Seqs.RemoveFirstDistinct(boxes, box);
        Seqs.WithoutDistinct(boxes, box);
        boxes := Seqs.RemoveFirst(boxes, box);
        net := net + [Broadcast(Message.RemoveBox(box.id))];
      }
    }

    /**
     * generateWorld: 21 cubes, the base, 4 perimeter walls and 26 random
     * walls, in that order, each registered with physics and announced to
     * everyone as it is added.
     */
    method GenerateWorld()
      requires Valid()
      modifies this`boxes, this`physics, this`net, random
      ensures Valid()
      ensures |boxes| == |old(boxes)| + WORLD_BOXES && boxes[..|old(boxes)|] == old(boxes)
      ensures forall b :: b in boxes[|old(boxes)|..] ==> fresh(b)
      ensures random.drawn == old(random.drawn) + WORLD_DRAWS
      ensures physics == old(physics) + Registered(boxes[|old(boxes)|..])
      ensures net == old(net) + Announce(WorldData(random.stream, old(random.drawn), bricksGreyId))
    {
      ghost var n0, d0 := |boxes|, random.drawn;
      var cubes := AddCubes();
      var base := AddBase();
      var perimeter := AddPerimeter();
      var walls := AddRandomWalls();
      ghost var added := cubes + [base] + perimeter + walls;
      Seqs.AppendFour(old(boxes), cubes, [base], perimeter, walls);
      assert boxes[n0..] == added;
      WorldRegistered(cubes, base, perimeter, walls);
      Seqs.AppendFour(old(physics), Registered(cubes), [RegisterBody(base)], Registered(perimeter), Registered(walls));
      WorldAnnounced(random.stream, d0, bricksGreyId);
      Seqs.AppendFour(old(net), Announce(CubesData(random.stream, d0, CUBES)),
                      [Broadcast(BoxAdded(BaseData(GenerateId(random.stream(d0 + CUBE_DRAWS * CUBES)))))],
                      Announce(PerimeterData(random.stream, d0 + CUBE_DRAWS * CUBES + 1, bricksGreyId, PERIMETER_WALLS)),
                      Announce(WallsData(random.stream, d0 + CUBE_DRAWS * CUBES + 1 + PERIMETER_WALLS, RANDOM_WALLS)));
    }

    /**
     * The world has grown by `added` since it held `boxes0`: each added box
     * is listed and registered, and `announced` holds the fields each one
     * was announced with.
     */
    ghost predicate Grown(added: seq<Box>, boxes0: seq<Box>, physics0: seq<PhysicsCall>, net0: seq<NetEvent>,
                          announced: seq<BoxData>)
      reads this`boxes, this`physics, this`net
    {
      Valid() && boxes == boxes0 + added && physics == physics0 + Registered(added) && net == net0 + Announce(announced)
    }

    /** addBox for a new box that follows `added`. */
    method Place(box: Box, ghost added: seq<Box>, ghost boxes0: seq<Box>, ghost physics0: seq<PhysicsCall>,
                 ghost net0: seq<NetEvent>, ghost announced: seq<BoxData>)
      requires Grown(added, boxes0, physics0, net0, announced) && box !in boxes
      modifies this`boxes, this`physics, this`net
      ensures Grown(added + [box], boxes0, physics0, net0, announced + [old(Snapshot(box))])
    {
      ghost var snap := Snapshot(box);
      AddBox(box);
      assert Snapshot(box) == snap;
      RegisteredAppend(added, box);
      AnnounceAppend(announced, snap);
    }

    /** The base of generateWorld, added to the world. */
    method AddBase() returns (base: Box)
      requires Valid()
      modifies this`boxes, this`physics, this`net, random
      ensures Valid() && fresh(base) && boxes == old(boxes) + [base]
      ensures random.drawn == old(random.drawn) + 1
      ensures physics == old(physics) + [RegisterBody(base)]
      ensures net == old(net) + [Broadcast(BoxAdded(BaseData(GenerateId(random.stream(old(random.drawn))))))]
    {
      var baseId := random.Id();
      base := new Boxes.Box(id := baseId, position := ORIGIN, size := Vec3(100.0, 1.0, 100.0),
                            affectedByPhysics := false, textureId := GRASS_ID, textureMultiplier := 50.0);
      ghost var snap := Snapshot(base);
      AddBox(base);
      assert Snapshot(base) == snap;
    }

    /** The cube loop of generateWorld; returns the cubes added. */
    method AddCubes() returns (cubes: seq<Box>)
      requires Valid()
      modifies this`boxes, this`physics, this`net, random
      ensures Grown(cubes, old(boxes), old(physics), old(net), CubesData(random.stream, old(random.drawn), CUBES))
      ensures |cubes| == CUBES && random.drawn == old(random.drawn) + CUBE_DRAWS * CUBES
      ensures forall b :: b in cubes ==> fresh(b)
    {
      cubes := [];
      var i := 0;
      assert Grown(cubes, old(boxes), old(physics), old(net), CubesData(random.stream, old(random.drawn), i));
      while i < CUBES
        invariant 0 <= i <= CUBES && |cubes| == i && random.drawn == old(random.drawn) + CUBE_DRAWS * i
        invariant Grown(cubes, old(boxes), old(physics), old(net), CubesData(random.stream, old(random.drawn), i))
        invariant forall b :: b in cubes ==> fresh(b)
      {
        var box := AddCube(cubes, old(boxes), old(physics), old(net), old(random.drawn), i);
        cubes := cubes + [box];
        i := i + 1;
      }
    }

    /** The i-th pass of the cube loop, after the cubes `added`. */
    method AddCube(ghost added: seq<Box>, ghost boxes0: seq<Box>, ghost physics0: seq<PhysicsCall>,
                   ghost net0: seq<NetEvent>, ghost d0: nat, ghost i: nat) returns (box: Box)
      requires Grown(added, boxes0, physics0, net0, CubesData(random.stream, d0, i)) && random.drawn == d0 + CUBE_DRAWS * i
      modifies this`boxes, this`physics, this`net, random
      ensures Grown(added + [box], boxes0, physics0, net0, CubesData(random.stream, d0, i + 1))
      ensures fresh(box) && random.drawn == d0 + CUBE_DRAWS * (i + 1)
    {
      CubesStep(random.stream, d0, i, random.drawn);
      box := NewCube(random);
      Place(box, added, boxes0, physics0, net0, CubesData(random.stream, d0, i));
    }

    /** The four perimeter walls of generateWorld; returns the walls added. */
    method AddPerimeter() returns (walls: seq<Box>)
      requires Valid()
      modifies this`boxes, this`physics, this`net, random
      ensures Grown(walls, old(boxes), old(physics), old(net), PerimeterData(random.stream, old(random.drawn), bricksGreyId, PERIMETER_WALLS))
      ensures |walls| == PERIMETER_WALLS && random.drawn == old(random.drawn) + PERIMETER_WALLS
      ensures forall b :: b in walls ==> fresh(b)
    {
      walls := [];
      var i := 0;
      assert Grown(walls, old(boxes), old(physics), old(net), PerimeterData(random.stream, old(random.drawn), bricksGreyId, i));
      while i < PERIMETER_WALLS
        invariant 0 <= i <= PERIMETER_WALLS && |walls| == i && random.drawn == old(random.drawn) + i
        invariant Grown(walls, old(boxes), old(physics), old(net), PerimeterData(random.stream, old(random.drawn), bricksGreyId, i))
        invariant forall b :: b in walls ==> fresh(b)
      {
        var wall := AddPerimeterWall(walls, old(boxes), old(physics), old(net), old(random.drawn), i);
        walls := walls + [wall];
        i := i + 1;
      }
    }

    /** The i-th perimeter wall, after the walls `added`: its id is the one draw it takes. */
    method AddPerimeterWall(ghost added: seq<Box>, ghost boxes0: seq<Box>, ghost physics0: seq<PhysicsCall>,
                            ghost net0: seq<NetEvent>, ghost d0: nat, i: nat) returns (wall: Box)
      requires i < PERIMETER_WALLS && random.drawn == d0 + i
      requires Grown(added, boxes0, physics0, net0, PerimeterData(random.stream, d0, bricksGreyId, i))
      modifies this`boxes, this`physics, this`net, random
      ensures Grown(added + [wall], boxes0, physics0, net0, PerimeterData(random.stream, d0, bricksGreyId, i + 1))
      ensures fresh(wall) && random.drawn == d0 + i + 1
    {
      PerimeterStep(random.stream, d0, bricksGreyId, i, random.drawn);
      var id := random.Id();
      wall := new Boxes.Box(id := id, position := PERIMETER_POSITIONS[i], size := PERIMETER_SIZES[i],
                            affectedByPhysics := false, textureId := bricksGreyId, textureMultiplier := 10.0);
      Place(wall, added, boxes0, physics0, net0, PerimeterData(random.stream, d0, bricksGreyId, i));
    }

    /** The random-wall loop of generateWorld; returns the walls added. */
    method AddRandomWalls() returns (walls: seq<Box>)
      requires Valid()
      modifies this`boxes, this`physics, this`net, random
      ensures Grown(walls, old(boxes), old(physics), old(net), WallsData(random.stream, old(random.drawn), RANDOM_WALLS))
      ensures |walls| == RANDOM_WALLS && random.drawn == old(random.drawn) + WALL_DRAWS * RANDOM_WALLS
      ensures forall b :: b in walls ==> fresh(b)
    {
      walls := [];
      var i := 0;
      assert Grown(walls, old(boxes), old(physics), old(net), WallsData(random.stream, old(random.drawn), i));
      while i < RANDOM_WALLS
        invariant 0 <= i <= RANDOM_WALLS && |walls| == i && random.drawn == old(random.drawn) + WALL_DRAWS * i
        invariant Grown(walls, old(boxes), old(physics), old(net), WallsData(random.stream, old(random.drawn), i))
        invariant forall b :: b in walls ==> fresh(b)
      {
        var wall := AddRandomWall(walls, old(boxes), old(physics), old(net), old(random.drawn), i);
        walls := walls + [wall];
        i := i + 1;
      }
    }

    /** The i-th pass of the random-wall loop, after the walls `added`. */
    method AddRandomWall(ghost added: seq<Box>, ghost boxes0: seq<Box>, ghost physics0: seq<PhysicsCall>,
                         ghost net0: seq<NetEvent>, ghost d0: nat, ghost i: nat) returns (wall: Box)
      requires Grown(added, boxes0, physics0, net0, WallsData(random.stream, d0, i)) && random.drawn == d0 + WALL_DRAWS * i
      modifies this`boxes, this`physics, this`net, random
      ensures Grown(added + [wall], boxes0, physics0, net0, WallsData(random.stream, d0, i + 1))
      ensures fresh(wall) && random.drawn == d0 + WALL_DRAWS * (i + 1)
    {
      WallsStep(random.stream, d0, i, random.drawn);
      wall := RandomWall(random);
      Place(wall, added, boxes0, physics0, net0, WallsData(random.stream, d0, i));
    }

    // -------------------------------------------------------------------
    // Players

    /** handleDisconnection: an unknown connection is ignored; a known one loses its player and its box. */
    method HandleDisconnection(connection: Connection)
      requires Valid()
      modifies this
      ensures Valid()
      ensures connection !in old(playersByConnections) ==>
        (boxes == old(boxes) && net == old(net) && physics == old(physics)
         && playersByConnections == old(playersByConnections))
      ensures connection in old(playersByConnections) ==>
        var player := old(playersByConnections)[connection];
        (playersByConnections == old(playersByConnections) - {connection}
         && player.collisionBox !in boxes && boxes == Seqs.Without(old(boxes), player.collisionBox)
         && net == old(net)
                   + (if player.collisionBox in old(boxes) then [Broadcast(Message.RemoveBox(player.collisionBox.id))] else [])
                   + [Broadcast(ServerMessage(player.name + " se desconecto."))])
      ensures bulletsAddTimestamp == old(bulletsAddTimestamp) && bulletEmitter == old(bulletEmitter)
    {
      if connection in playersByConnections {
        var player := playersByConnections[connection];
        playersByConnections := playersByConnections - {connection};
        RemoveBox(player.collisionBox);
        net := net + [Broadcast(ServerMessage(player.name + " se desconecto."))];
      }
    }

    /** handleClientMessage: ConnectionInfo joins a new player, InputState updates a known one, anything else is ignored. */
    method HandleClientMessage(connection: Connection, message: Message)
      requires Valid()
      modifies this, random, PlayerObjects()
      ensures Valid()
      ensures connection in old(playersByConnections) || !message.ConnectionInfo? ==>
        (boxes == old(boxes) && net == old(net) && physics == old(physics)
         && playersByConnections == old(playersByConnections))
      ensures message.ConnectionInfo? && connection !in old(playersByConnections) ==>
        (connection in playersByConnections && |boxes| == |old(boxes)| + 1
         && playersByConnections == old(playersByConnections)[connection := playersByConnections[connection]]
         && playersByConnections[connection].health == FULL_HEALTH
         && playersByConnections[connection].name == message.name
         && boxes == old(boxes) + [playersByConnections[connection].collisionBox])
      ensures message.ConnectionInfo? && connection !in old(playersByConnections) ==>
        connection in playersByConnections
        && var player := playersByConnections[connection];
           var box := player.collisionBox;
           fresh(player) && fresh(box) && player.connection == connection
           && player.lastShot == 0 && player.inputState == NO_INPUT
           && box.isCharacter && box.mass == 30.0 && !box.affectedByPhysics && box.size == Vec3(1.0, 2.0, 1.0)
           && physics == old(physics) + [RegisterBody(box)]
           && net == old(net) + [Broadcast(BoxAdded(Snapshot(box)))]
                    + StreamOf(connection, boxes)
                    + [Send(connection, Spawn(box.id)),
                       Broadcast(ServerMessage(message.name + " se conecto."))]
      ensures message.InputState? && connection in old(playersByConnections) ==>
        playersByConnections[connection].inputState == message.input
      ensures forall p :: (p in old(playersByConnections.Values)
                           && !(message.InputState? && connection in old(playersByConnections)
                                && p == old(playersByConnections)[connection])) ==>
        p.inputState == old(p.inputState)
      ensures bulletsAddTimestamp == old(bulletsAddTimestamp) && bulletEmitter == old(bulletEmitter)
    {
      match message {
        case ConnectionInfo(name) =>
          if connection !in playersByConnections {
            var player := Join(connection, name);
          }
        case InputState(input) =>
          if connection in playersByConnections {
            var player := playersByConnections[connection];
            player.inputState := input;
          }
        case _ =>
      }
    }

    /**
     * The ConnectionInfo branch for a connection without a player: one new
     * character box, a player at full health, the whole world streamed to
     * the newcomer, its Spawn, then the announcement.
     */
    method Join(connection: Connection, name: string) returns (player: Player)
      requires Valid() && connection !in playersByConnections
      modifies this, random
      ensures Valid() && fresh(player) && fresh(player.collisionBox)
      ensures playersByConnections == old(playersByConnections)[connection := player]
      ensures player.name == name && player.connection == connection
      ensures player.health == FULL_HEALTH && player.lastShot == 0 && player.inputState == NO_INPUT
      ensures boxes == old(boxes) + [player.collisionBox]
      ensures player.collisionBox.isCharacter && player.collisionBox.mass == 30.0
      ensures !player.collisionBox.affectedByPhysics && player.collisionBox.size == Vec3(1.0, 2.0, 1.0)
      ensures physics == old(physics) + [RegisterBody(player.collisionBox)]
      ensures net == old(net) + [Broadcast(BoxAdded(Snapshot(player.collisionBox)))]
                     + StreamOf(connection, boxes)
                     + [Send(connection, Spawn(player.collisionBox.id)),
                        Broadcast(ServerMessage(name + " se conecto."))]
      ensures bulletsAddTimestamp == old(bulletsAddTimestamp) && bulletEmitter == old(bulletEmitter)
    {
      var playerBox := AddPlayerBox();
      player := new Player(name, connection, playerBox, NO_INPUT);
      playersByConnections := playersByConnections[connection := player];
      Welcome(connection, playerBox.id, name);
    }

    /** The tail of a join: the world streamed to the newcomer, its Spawn, then the chat announcement. */
    method Welcome(connection: Connection, id: int, name: string)
      modifies this
      ensures boxes == old(boxes) && physics == old(physics)
      ensures playersByConnections == old(playersByConnections)
      ensures bulletsAddTimestamp == old(bulletsAddTimestamp) && bulletEmitter == old(bulletEmitter)
      ensures net == old(net) + StreamOf(connection, boxes)
                     + [Send(connection, Spawn(id)), Broadcast(ServerMessage(name + " se conecto."))]
    {
      var stream := StreamBoxes(connection);
      net := net + stream + [Send(connection, Spawn(id))];
      net := net + [Broadcast(ServerMessage(name + " se conecto."))];
    }

    /** The character box a joining player gets, added to the world. */
    method AddPlayerBox() returns (playerBox: Box)
      requires Valid()
      modifies this, random
      ensures Valid() && fresh(playerBox)
      ensures playerBox.isCharacter && playerBox.mass == 30.0
      ensures !playerBox.affectedByPhysics && playerBox.size == Vec3(1.0, 2.0, 1.0)
      ensures boxes == old(boxes) + [playerBox]
      ensures physics == old(physics) + [RegisterBody(playerBox)]
      ensures net == old(net) + [Broadcast(BoxAdded(Snapshot(playerBox)))]
      ensures bulletsAddTimestamp == old(bulletsAddTimestamp) && bulletEmitter == old(bulletEmitter)
      ensures playersByConnections == old(playersByConnections)
    {
      var id := random.Id();
      var x := random.Between(-20, 20);
      var z := random.Between(-20, 20);
      playerBox := new Boxes.Box(id := id, mass := 30.0, position := Vec3(x as real, 15.0, z as real),
                                 size := Vec3(1.0, 2.0, 1.0), textureId := METAL_ID,
                                 affectedByPhysics := false, bounceMultiplier := 0.0,
                                 textureMultiplier := 0.01, isCharacter := true);
      AddBox(playerBox);
    }

    /** The `for (worldBox in boxes) network.send(...)` loop, collected. */
    method StreamBoxes(connection: Connection) returns (stream: seq<NetEvent>)
      ensures stream == StreamOf(connection, boxes)
    {
      stream := [];
      var i := 0;
      while i < |boxes|
        invariant 0 <= i <= |boxes|
        invariant stream == StreamOf(connection, boxes[..i])
      {
        assert boxes[..i + 1][..i] == boxes[..i];
        stream := stream + [Send(connection, BoxAdded(Snapshot(boxes[i])))];
        i := i + 1;
      }
      assert boxes[..i] == boxes;
    }
  
    // -------------------------------------------------------------------
    // Hits and collisions

    /** onPlayerHitPlayer: 10 damage, announced; at 0 or less a kill message, full health and a respawn. */
    method OnPlayerHitPlayer(emitter: Player, target: Player, ball: Box)
      modifies this`net, random, target`health, target.collisionBox
      ensures target.health == AfterHit(old(target.health))
      ensures net == old(net) + HitEvents(emitter, target, old(target.health),
                                          KillFormat(killFormats, random.stream, old(random.drawn)))
      ensures old(target.health) - HIT_DAMAGE > 0 ==>
        target.collisionBox.State() == old(target.collisionBox.State()) && random.drawn == old(random.drawn)
      ensures old(target.health) - HIT_DAMAGE <= 0 ==>
        var d := old(random.drawn);
        (target.collisionBox.angularVelocity == ORIGIN
         && target.collisionBox.position == RespawnSpot(random.stream, d + 1)
         && random.drawn == d + 3)
    {
      ghost var net0, health0, d := net, target.health, random.drawn;
      ghost var format := KillFormat(killFormats, random.stream, d);
      target.health := target.health - HIT_DAMAGE;
      var hit := [Send(target.connection, SetHealth(target.health)),
                  Broadcast(NotifyHit(emitter.collisionBox.id, target.collisionBox.id))];
      net := net + hit;
      if target.health <= 0 {
        Die(emitter, target);
        assert hit + KillEventsOf(emitter, target, format) == HitEvents(emitter, target, health0, format);
        assert net == net0 + (hit + KillEventsOf(emitter, target, format));
      } else {
        assert hit == HitEvents(emitter, target, health0, format);
      }
    }

    /** The kill branch of onPlayerHitPlayer: the kill message and full health sent, the box respawned. */
    method Die(emitter: Player, target: Player)
      modifies this`net, random, target`health, target.collisionBox
      ensures net == old(net) + KillEventsOf(emitter, target, KillFormat(killFormats, random.stream, old(random.drawn)))
      ensures target.health == FULL_HEALTH && random.drawn == old(random.drawn) + 3
      ensures target.collisionBox.angularVelocity == ORIGIN
      ensures target.collisionBox.position == RespawnSpot(random.stream, old(random.drawn) + 1)
    {
      var kill := KillEvents(emitter, target);
      net := net + kill;
      target.health := FULL_HEALTH;
      Respawn(target.collisionBox);
    }

    /** The two messages of a kill: a random kill format filled in for everyone, and full health to the target. */
    method KillEvents(emitter: Player, target: Player) returns (events: seq<NetEvent>)
      modifies random
      ensures random.drawn == old(random.drawn) + 1
      ensures events == KillEventsOf(emitter, target, KillFormat(killFormats, random.stream, old(random.drawn)))
    {
      var k := random.Index(|killFormats|);
      var msg := KillMessage(killFormats[k], target.name, emitter.name);
      events := [Broadcast(ServerMessage(msg)), Send(target.connection, SetHealth(FULL_HEALTH))];
    }

    /** The respawn of a killed player's box: no spin, at a random spot 5 above the ground. */
    method Respawn(box: Box)
      modifies random, box
      ensures random.drawn == old(random.drawn) + 2
      ensures box.angularVelocity == ORIGIN
      ensures box.position == RespawnSpot(random.stream, old(random.drawn))
    {
      box.SetAngularVelocity(ORIGIN);
      var x := random.Between(-20, 20);
      var z := random.Between(-20, 20);
      box.SetPosition(Vec3(x as real, 5.0, z as real));
    }

    /** playersByConnections.values.firstOrNull { it.collisionBox == other }. */
    method FindTarget(other: Box) returns (target: Option<Player>)
      ensures target.Some? ==> target.value in playersByConnections.Values && target.value.collisionBox == other
      ensures target.None? ==> forall p :: p in playersByConnections.Values ==> p.collisionBox != other
    {
      if p :| p in playersByConnections.Values && p.collisionBox == other {
        target := Some(p);
      } else {
        target := None;
      }
    }

    /**
     * The messages of a collision of `sphere` with `other` that hit `hit`:
     * those of the hit, if any, then the sphere's removal if it was listed.
     */
    ghost function CollisionEvents(sphere: Box, hit: Option<Player>, emitters0: map<Box, Player>,
                                   health0: int, boxes0: seq<Box>, d0: nat): seq<NetEvent>
    {
      (if hit.Some? && sphere in emitters0
       then HitEvents(emitters0[sphere], hit.value, health0, KillFormat(killFormats, random.stream, d0)) else [])
      + (if sphere in boxes0 then [Broadcast(Message.RemoveBox(sphere.id))] else [])
    }

    /**
     * handleCollision: a pair with a sphere always loses the sphere and its
     * timestamp; the hit counts only when the sphere has an emitter and the
     * other box is a player's.  Returns the player hit, if any.
     */
    method HandleCollision(box1: Box, box2: Box) returns (hit: Option<Player>)
      requires Valid()
      modifies this, random, PlayerObjects()
      ensures Valid()
      ensures playersByConnections == old(playersByConnections) && bulletEmitter == old(bulletEmitter)
      ensures !box1.isSphere && !box2.isSphere ==>
        (boxes == old(boxes) && net == old(net) && physics == old(physics)
         && bulletsAddTimestamp == old(bulletsAddTimestamp) && hit == None)
      ensures hit.Some? ==>
        hit.value in playersByConnections.Values && hit.value.health == AfterHit(old(hit.value.health))
      ensures box1.isSphere || box2.isSphere ==>
        var sphere, other := if box1.isSphere then box1 else box2, if box1.isSphere then box2 else box1;
        (SphereRemoved(sphere, old(boxes), old(bulletsAddTimestamp))
         && (hit.Some? <==> (sphere in bulletEmitter && exists p :: p in old(playersByConnections.Values) && p.collisionBox == other))
         && (hit.Some? ==> hit.value.collisionBox == other)
         && physics == old(physics) + (if sphere in old(boxes) then [UnregisterBody(sphere)] else [])
         && net == old(net) + CollisionEvents(sphere, hit, old(bulletEmitter),
                                              if hit.Some? then old(hit.value.health) else 0, old(boxes), old(random.drawn)))
      ensures forall p :: p in old(playersByConnections.Values) && hit != Some(p) ==> p.health == old(p.health)
    {
      hit := None;
      if box1.isSphere {
        hit := SphereCollision(box1, box2);
      } else if box2.isSphere {
        hit := SphereCollision(box2, box1);
      }
    }

    /** The sphere is gone from the box list and from the bullet timestamps. */
    ghost predicate SphereRemoved(sphere: Box, boxes0: seq<Box>, timestamps0: map<Box, int>)
      reads this
    {
      sphere !in boxes && boxes == Seqs.Without(boxes0, sphere)
      && bulletsAddTimestamp == timestamps0 - {sphere}
    }

    /** The body of handleCollision once the sphere and the other box are known. */
    method SphereCollision(sphere: Box, other: Box) returns (hit: Option<Player>)
      requires Valid()
      modifies this, random, PlayerObjects()
      ensures Valid()
      ensures playersByConnections == old(playersByConnections) && bulletEmitter == old(bulletEmitter)
      ensures SphereRemoved(sphere, old(boxes), old(bulletsAddTimestamp))
      ensures hit.Some? <==>
        (sphere in bulletEmitter && exists p :: p in old(playersByConnections.Values) && p.collisionBox == other)
      ensures hit.Some? ==>
        (hit.value.collisionBox == other && hit.value in playersByConnections.Values
         && hit.value.health == AfterHit(old(hit.value.health)))
      ensures forall p :: p in old(playersByConnections.Values) && hit != Some(p) ==> p.health == old(p.health)
      ensures physics == old(physics) + (if sphere in old(boxes) then [UnregisterBody(sphere)] else [])
      ensures net == old(net) + CollisionEvents(sphere, hit, old(bulletEmitter),
                                                if hit.Some? then old(hit.value.health) else 0, old(boxes), old(random.drawn))
    {
      hit := HitByBullet(sphere, other);
      RemoveBox(sphere);
      bulletsAddTimestamp := bulletsAddTimestamp - {sphere};
    }

    /** The damage part of handleCollision: the emitter of `sphere` hits the player owning `other`, if both exist. */
    method HitByBullet(sphere: Box, other: Box) returns (hit: Option<Player>)
      requires Valid()
      modifies this, random, PlayerObjects()
      ensures Valid() && boxes == old(boxes) && physics == old(physics) && bulletsAddTimestamp == old(bulletsAddTimestamp)
      ensures playersByConnections == old(playersByConnections) && bulletEmitter == old(bulletEmitter)
      ensures hit.Some? <==>
        (sphere in bulletEmitter && exists p :: p in old(playersByConnections.Values) && p.collisionBox == other)
      ensures hit.Some? ==>
        (hit.value.collisionBox == other && hit.value in playersByConnections.Values
         && hit.value.health == AfterHit(old(hit.value.health))
         && net == old(net) + HitEvents(bulletEmitter[sphere], hit.value, old(hit.value.health),
                                        KillFormat(killFormats, random.stream, old(random.drawn))))
      ensures hit.None? ==> net == old(net) && random.drawn == old(random.drawn)
      ensures forall p :: p in old(playersByConnections.Values) && hit != Some(p) ==> p.health == old(p.health)
    {
      hit := None;
      var shotTarget := FindTarget(other);
      if sphere in bulletEmitter && shotTarget.Some? {
        var target := shotTarget.value;
        var c :| c in playersByConnections && playersByConnections[c] == target;
        assert target in PlayerObjects() && target.collisionBox in PlayerObjects();
        OnPlayerHitPlayer(bulletEmitter[sphere], target, sphere);
        hit := shotTarget;
      }
    }

    // -------------------------------------------------------------------
    // Shots

    /** Where a shot along `angle` starts: 1.5 in front of the eye of a player standing at `at`. */
    function ShotOrigin(at: Vec3, angle: real, cameraX: real): Vec3
    {
      at.Plus(EYE).Plus(front(angle, cameraX, FRONT_POS))
    }

    /** The velocity of a bullet at rest once pushed with force 300 along `angle`. */
    function ShotVelocity(angle: real, cameraX: real): Vec3
    {
      ORIGIN.Plus(front(angle, cameraX, SHOT_FORCE).Scaled(1.0 / BULLET_MASS))
    }

    /** The bullets of the first n passes of a volley fired from `at`, drawn one after another from `d` on. */
    function VolleyData(at: Vec3, input: Input, d: nat, n: nat): (r: seq<BoxData>)
      ensures |r| == n
    {
      if n == 0 then []
      else VolleyData(at, input, d, n - 1)
           + [BulletData(random.stream, d + BULLET_DRAWS * (n - 1),
                         ShotOrigin(at, VolleyAngle(input.cameraY, n - 1), input.cameraX))]
    }

    /** The bullets updatePlayer fires from `at`: the primary shot straight ahead, a volley, or none. */
    function ShotsData(at: Vec3, input: Input, d: nat, fired: nat): seq<BoxData>
    {
      if fired == 1 then [BulletData(random.stream, d, ShotOrigin(at, input.cameraY, input.cameraX))]
      else if fired == VOLLEY then VolleyData(at, input, d, VOLLEY)
      else []
    }

    /** Bullet k of a volley starts VOLLEY_FAN[k] degrees from the camera and takes the k-th four draws. */
    lemma {:induction false} VolleyFan(at: Vec3, input: Input, d: nat, n: nat, k: nat)
      requires k < n <= VOLLEY
      ensures VolleyData(at, input, d, n)[k]
           == BulletData(random.stream, d + BULLET_DRAWS * k,
                         ShotOrigin(at, input.cameraY + VOLLEY_FAN[k], input.cameraX))
      decreases n
    {
      if k < n - 1 {
        VolleyFan(at, input, d, n - 1, k);
      } else {
        assert VolleyAngle(input.cameraY, k) == input.cameraY + VOLLEY_FAN[k];
      }
    }

    /** A pass of the volley adds the bullet drawn from `next` on. */
    lemma VolleyStep(at: Vec3, input: Input, d: nat, n: nat, next: nat)
      requires next == d + BULLET_DRAWS * n
      ensures VolleyData(at, input, d, n + 1)
           == VolleyData(at, input, d, n)
              + [BulletData(random.stream, next, ShotOrigin(at, VolleyAngle(input.cameraY, n), input.cameraX))]
    {
    }

    /**
     * The shots since the state (boxes0, physics0, net0, timestamps0,
     * emitters0): the world grew by `added`, announced as `announced`, and
     * every new bullet is a sphere of `player`'s stamped `now`, moving at
     * `velocity` from where it was announced.
     */
    ghost predicate Fired(added: seq<Box>, boxes0: seq<Box>, physics0: seq<PhysicsCall>, net0: seq<NetEvent>,
                          announced: seq<BoxData>, timestamps0: map<Box, int>, emitters0: map<Box, Player>,
                          player: Player, now: int, velocity: Vec3)
      reads this, added
    {
      Grown(added, boxes0, physics0, net0, announced) && Stamped(added, timestamps0, emitters0, player, now)
      && Moving(added, announced, velocity)
    }

    /** Every bullet of `added` is recorded with `now` and `player`, on top of the earlier records. */
    ghost predicate Stamped(added: seq<Box>, timestamps0: map<Box, int>, emitters0: map<Box, Player>,
                            player: Player, now: int)
      reads this`bulletsAddTimestamp, this`bulletEmitter
    {
      bulletsAddTimestamp == Stamp(timestamps0, added, now) && bulletEmitter == Stamp(emitters0, added, player)
    }

    /**
     * One bullet of updatePlayer: built 1.5 in front of the player's eye
     * along `angle`, added and announced, stamped with now and its emitter,
     * then pushed along the camera.
     */
    method Shoot(player: Player, input: Input, now: int, angle: real,
                 ghost added: seq<Box>, ghost boxes0: seq<Box>, ghost physics0: seq<PhysicsCall>,
                 ghost net0: seq<NetEvent>, ghost announced: seq<BoxData>,
                 ghost timestamps0: map<Box, int>, ghost emitters0: map<Box, Player>)
      returns (bullet: Box)
      requires Fired(added, boxes0, physics0, net0, announced, timestamps0, emitters0, player, now,
                     ShotVelocity(input.cameraY, input.cameraX))
      modifies this`boxes, this`physics, this`net, this`bulletsAddTimestamp, this`bulletEmitter, random
      ensures fresh(bullet) && random.drawn == old(random.drawn) + BULLET_DRAWS
      ensures player.collisionBox.position == old(player.collisionBox.position)
      ensures Fired(added + [bullet], boxes0, physics0, net0,
                    announced + [BulletData(random.stream, old(random.drawn),
                                            ShotOrigin(player.collisionBox.position, angle, input.cameraX))],
                    timestamps0, emitters0, player, now, ShotVelocity(input.cameraY, input.cameraX))
    {
      bullet := NewBullet(ShotOrigin(player.collisionBox.position, angle, input.cameraX));
      ghost var data := Snapshot(bullet);
      Place(bullet, added, boxes0, physics0, net0, announced);
      Record(bullet, player, now, added, timestamps0, emitters0);
      assert (random as object) != bullet && (player.collisionBox as object) != bullet;
      Push(bullet, input, added, announced, data);
    }

    /** box.applyForce(vectorFront(cameraY, cameraX, 300)) on a bullet at rest, after the bullets `added`. */
    method Push(bullet: Box, input: Input, ghost added: seq<Box>, ghost announced: seq<BoxData>, ghost data: BoxData)
      requires Moving(added, announced, ShotVelocity(input.cameraY, input.cameraX)) && bullet !in added
      requires bullet.isSphere && bullet.mass == BULLET_MASS && bullet.linearVelocity == ORIGIN
      requires bullet.position == data.position
      modifies bullet
      ensures Moving(added + [bullet], announced + [data], ShotVelocity(input.cameraY, input.cameraX))
      ensures Snapshot(bullet) == old(Snapshot(bullet)).(linearVelocity := ShotVelocity(input.cameraY, input.cameraX))
    {
      bullet.ApplyForce(front(input.cameraY, input.cameraX, SHOT_FORCE));
      MovingAppend(added, announced, ShotVelocity(input.cameraY, input.cameraX), bullet, data);
    }

    /** bulletsAddTimestamp[box] = now; bulletEmitter[box] = player, after the bullets `added`. */
    method Record(bullet: Box, player: Player, now: int,
                  ghost added: seq<Box>, ghost timestamps0: map<Box, int>, ghost emitters0: map<Box, Player>)
      requires Stamped(added, timestamps0, emitters0, player, now)
      modifies this`bulletsAddTimestamp, this`bulletEmitter
      ensures Stamped(added + [bullet], timestamps0, emitters0, player, now)
    {
      StampAppend(timestamps0, added, bullet, now);
      StampAppend(emitters0, added, bullet, player);
      bulletsAddTimestamp := bulletsAddTimestamp[bullet := now];
      bulletEmitter := bulletEmitter[bullet := player];
    }

    /** The Box(...) of a shot: a small metal sphere with a random opaque colour, at rest at `position`. */
    method NewBullet(position: Vec3) returns (bullet: Box)
      modifies random
      ensures fresh(bullet) && random.drawn == old(random.drawn) + BULLET_DRAWS
      ensures Snapshot(bullet) == BulletData(random.stream, old(random.drawn), position)
    {
      var id := random.Id();
      var r := random.Unit();
      var g := random.Unit();
      var b := random.Unit();
      bullet := new Boxes.Box(id := id, mass := BULLET_MASS, position := position,
                              size := BULLET_SIZE, textureId := METAL_ID, textureMultiplier := 1.0,
                              bounceMultiplier := 0.8, theColor := Color(r, g, b, 1.0), isSphere := true);
    }

    /** repeat(5): the five-bullet fan of secondary fire, origins from -40 to 40 degrees, all aimed along the camera. */
    method FireVolley(player: Player, input: Input, now: int) returns (ghost bullets: seq<Box>)
      requires Valid()
      modifies this`boxes, this`physics, this`net, this`bulletsAddTimestamp, this`bulletEmitter, random
      ensures |bullets| == VOLLEY && random.drawn == old(random.drawn) + BULLET_DRAWS * VOLLEY
      ensures player.collisionBox.position == old(player.collisionBox.position)
      ensures Fired(bullets, old(boxes), old(physics), old(net),
                    VolleyData(player.collisionBox.position, input, old(random.drawn), VOLLEY),
                    old(bulletsAddTimestamp), old(bulletEmitter), player, now, ShotVelocity(input.cameraY, input.cameraX))
    {
      ghost var at := player.collisionBox.position;
      assert (player.collisionBox as object) != this && (player.collisionBox as object) != random;
      bullets := [];
      var idx := 0;
      assert Volleying(bullets, idx, player, input, now, at, old(boxes), old(physics), old(net),
                       old(bulletsAddTimestamp), old(bulletEmitter), old(random.drawn));
      // The invariant is compared whole (`== true`) so that it is matched
      // against VolleyShot's postcondition instead of checked conjunct by conjunct.
      while idx < VOLLEY
        invariant Volleying(bullets, idx, player, input, now, at, old(boxes), old(physics), old(net),
                            old(bulletsAddTimestamp), old(bulletEmitter), old(random.drawn)) == true
      {
        var bullet := VolleyShot(player, input, now, idx, bullets, at, old(boxes), old(physics), old(net),
                                 old(bulletsAddTimestamp), old(bulletEmitter), old(random.drawn));
        bullets := bullets + [bullet];
        idx := idx + 1;
      }
    }

    /**
     * The volley after `idx` passes: the bullets `added` so far were fired
     * from `at` with the draws from `d0` on.
     */
    ghost predicate Volleying(added: seq<Box>, idx: int, player: Player, input: Input, now: int, at: Vec3,
                              boxes0: seq<Box>, physics0: seq<PhysicsCall>, net0: seq<NetEvent>,
                              timestamps0: map<Box, int>, emitters0: map<Box, Player>, d0: nat)
      reads this, added, random
    {
      0 <= idx <= VOLLEY && |added| == idx && random.drawn == d0 + BULLET_DRAWS * idx
      && Fired(added, boxes0, physics0, net0, VolleyData(at, input, d0, idx),
               timestamps0, emitters0, player, now, ShotVelocity(input.cameraY, input.cameraX))
    }

    /** Pass `idx` of the volley, after the bullets `added`: `i = idx - 2`, origin cameraY + 20 i, aimed along cameraY. */
    method VolleyShot(player: Player, input: Input, now: int, idx: int, ghost added: seq<Box>, ghost at: Vec3,
                      ghost boxes0: seq<Box>, ghost physics0: seq<PhysicsCall>, ghost net0: seq<NetEvent>,
                      ghost timestamps0: map<Box, int>, ghost emitters0: map<Box, Player>, ghost d0: nat)
      returns (bullet: Box)
      requires idx < VOLLEY && player.collisionBox.position == at
      requires Volleying(added, idx, player, input, now, at, boxes0, physics0, net0, timestamps0, emitters0, d0)
      modifies this`boxes, this`physics, this`net, this`bulletsAddTimestamp, this`bulletEmitter, random
      ensures fresh(bullet) && player.collisionBox.position == at
      ensures Volleying(added + [bullet], idx + 1, player, input, now, at, boxes0, physics0, net0,
                        timestamps0, emitters0, d0)
    {
      VolleyStep(at, input, d0, idx, random.drawn);
      var i := idx - 2;
      var angleXOrigin := input.cameraY + (i * 20) as real;
      assert angleXOrigin == VolleyAngle(input.cameraY, idx);
      bullet := Shoot(player, input, now, angleXOrigin, added, boxes0, physics0, net0,
                      VolleyData(at, input, d0, idx), timestamps0, emitters0);
    }

    /**
     * updatePlayer: movement is handed to the physics side; primary fire
     * needs more than 200 ms since the last shot, secondary more than 1000.
     * Returns the number of bullets fired; `bullets` are those bullets.
     */
    method UpdatePlayer(player: Player, input: Input, delta: int, now: int) returns (fired: nat, ghost bullets: seq<Box>)
      requires Valid()
      modifies this, random, player
      ensures fired == VolleySize(input, now - old(player.lastShot)) && |bullets| == fired
      ensures player.lastShot == (if fired > 0 then now else old(player.lastShot))
      ensures player.health == old(player.health) && player.inputState == old(player.inputState)
      ensures playersByConnections == old(playersByConnections)
      ensures random.drawn == old(random.drawn) + BULLET_DRAWS * fired
      ensures Fired(bullets, old(boxes), old(physics) + [MovePlayer(player.collisionBox, input, delta)], old(net),
                    ShotsData(player.collisionBox.position, input, old(random.drawn), fired),
                    old(bulletsAddTimestamp), old(bulletEmitter), player, now, ShotVelocity(input.cameraY, input.cameraX))
    {
      physics := physics + [MovePlayer(player.collisionBox, input, delta)];
      fired, bullets := Fire(player, input, now);
    }

    /** The shot part of updatePlayer: the primary gate, then the secondary gate. */
    method Fire(player: Player, input: Input, now: int) returns (fired: nat, ghost bullets: seq<Box>)
      requires Valid()
      modifies this`boxes, this`physics, this`net, this`bulletsAddTimestamp, this`bulletEmitter, random, player`lastShot
      ensures fired == VolleySize(input, now - old(player.lastShot)) && |bullets| == fired
      ensures player.lastShot == (if fired > 0 then now else old(player.lastShot))
      ensures random.drawn == old(random.drawn) + BULLET_DRAWS * fired
      ensures player.collisionBox.position == old(player.collisionBox.position)
      ensures Fired(bullets, old(boxes), old(physics), old(net),
                    ShotsData(player.collisionBox.position, input, old(random.drawn), fired),
                    old(bulletsAddTimestamp), old(bulletEmitter), player, now, ShotVelocity(input.cameraY, input.cameraX))
    {
      fired := 0;
      bullets := [];
      if input.fire && now - player.lastShot > SHOT_MILLIS {
        player.lastShot := now;
        assert Fired([], old(boxes), old(physics), old(net), [], old(bulletsAddTimestamp), old(bulletEmitter),
                     player, now, ShotVelocity(input.cameraY, input.cameraX));
        var bullet := Shoot(player, input, now, input.cameraY, [], old(boxes), old(physics), old(net), [],
                            old(bulletsAddTimestamp), old(bulletEmitter));
        bullets := [bullet];
        fired := 1;
      }
      if input.fire2 && now - player.lastShot > SHOT2_MILLIS {
        player.lastShot := now;
        bullets := FireVolley(player, input, now);
        fired := fired + VOLLEY;
      }
    }

    // -------------------------------------------------------------------
    // Expiry

    /**
     * globalUpdate: exactly the bullets older than 8000 ms are forgotten and
     * removed; `removed` lists the boxes that left the world, in the order
     * they were unregistered and announced.
     */
    method GlobalUpdate(now: int) returns (ghost removed: seq<Box>)
      requires Valid()
      modifies this`boxes, this`physics, this`net, this`bulletsAddTimestamp
      ensures Valid()
      ensures bulletsAddTimestamp
        == map b | b in old(bulletsAddTimestamp) && !Expired(old(bulletsAddTimestamp)[b], now)
             :: old(bulletsAddTimestamp)[b]
      ensures forall b :: b in boxes <==>
        (b in old(boxes) && !(b in old(bulletsAddTimestamp) && Expired(old(bulletsAddTimestamp)[b], now)))
      ensures Seqs.Distinct(removed)
      ensures forall b :: b in removed <==>
        (b in old(boxes) && b in old(bulletsAddTimestamp) && Expired(old(bulletsAddTimestamp)[b], now))
      ensures physics == old(physics) + Unregistered(removed) && net == old(net) + Removals(removed)
      ensures playersByConnections == old(playersByConnections) && bulletEmitter == old(bulletEmitter)
    {
      var timestamps := bulletsAddTimestamp;
      var pending := timestamps.Keys;
      removed := [];
      while pending != {}
        invariant Expiring(timestamps, pending, now, old(boxes), old(physics), old(net), removed)
        decreases |pending|
      {
        var bullet :| bullet in pending;
        removed := Expire(bullet, timestamps, pending, now, old(boxes), old(physics), old(net), removed);
        pending := pending - {bullet};
      }
    }

    /** The server's state during globalUpdate, as ExpiryState states it. */
    ghost predicate Expiring(timestamps: map<Box, int>, pending: set<Box>, now: int, boxes0: seq<Box>,
                             physics0: seq<PhysicsCall>, net0: seq<NetEvent>, removed: seq<Box>)
      reads this`boxes, this`physics, this`net, this`bulletsAddTimestamp
    {
      ExpiryState(boxes, bulletsAddTimestamp, physics, net, timestamps, pending, now, boxes0, physics0, net0, removed)
    }

    /** One pass of the globalUpdate loop: `bullet` is forgotten and removed if it has expired. */
    method Expire(bullet: Box, timestamps: map<Box, int>, ghost pending: set<Box>, now: int, ghost boxes0: seq<Box>,
                  ghost physics0: seq<PhysicsCall>, ghost net0: seq<NetEvent>, ghost removed: seq<Box>)
      returns (ghost removed': seq<Box>)
      requires bullet in pending
      requires Expiring(timestamps, pending, now, boxes0, physics0, net0, removed)
      modifies this`boxes, this`physics, this`net, this`bulletsAddTimestamp
      ensures Expiring(timestamps, pending - {bullet}, now, boxes0, physics0, net0, removed')
    {
      removed' := removed;
      if Expired(timestamps[bullet], now) {
        bulletsAddTimestamp := bulletsAddTimestamp - {bullet};
        if bullet in boxes {
          RemovedStep(boxes, old(bulletsAddTimestamp), physics, net, timestamps, pending, now, boxes0, physics0, net0,
                      removed, bullet);
          removed' := removed + [bullet];
        } else {
          KeptStep(boxes, old(bulletsAddTimestamp), physics, net, bulletsAddTimestamp, timestamps, pending, now, boxes0,
                   physics0, net0, removed, bullet);
        }
        RemoveBox(bullet);
      } else {
        KeptStep(boxes, bulletsAddTimestamp, physics, net, bulletsAddTimestamp, timestamps, pending, now, boxes0,
                 physics0, net0, removed, bullet);
      }
    }
  }

  /**
   * globalUpdate after the bullets of `timestamps` outside `pending` were
   * looked at: the expired ones are forgotten and, if they were listed,
   * removed, in the order `removed`.
   */
  ghost predicate ExpiryState(boxes: seq<Box>, timestamps': map<Box, int>, physics: seq<PhysicsCall>, net: seq<NetEvent>,
                              timestamps: map<Box, int>, pending: set<Box>, now: int, boxes0: seq<Box>,
                              physics0: seq<PhysicsCall>, net0: seq<NetEvent>, removed: seq<Box>)
  {
    pending <= timestamps.Keys && Seqs.Distinct(boxes)
    && timestamps' == Surviving(timestamps, pending, now)
    && (forall b :: b in boxes ==> b in boxes0)
    && (forall b :: b in boxes0 ==>
          (b in boxes <==> !(b in timestamps && b !in pending && Expired(timestamps[b], now))))
    && Seqs.Distinct(removed)
    && (forall b :: b in removed ==> b in boxes0)
    && (forall b :: b in boxes0 ==>
          (b in removed <==> b in timestamps && b !in pending && Expired(timestamps[b], now)))
    && physics == physics0 + Unregistered(removed) && net == net0 + Removals(removed)
  }

  /** A pass of the globalUpdate loop that keeps the boxes: the bullet is forgotten exactly when it has expired. */
  lemma KeptStep(boxes: seq<Box>, ts: map<Box, int>, physics: seq<PhysicsCall>, net: seq<NetEvent>, ts': map<Box, int>,
                 timestamps: map<Box, int>, pending: set<Box>, now: int, boxes0: seq<Box>,
                 physics0: seq<PhysicsCall>, net0: seq<NetEvent>, removed: seq<Box>, bullet: Box)
    requires bullet in pending && !(bullet in timestamps && Expired(timestamps[bullet], now) && bullet in boxes)
    requires ExpiryState(boxes, ts, physics, net, timestamps, pending, now, boxes0, physics0, net0, removed)
    requires ts' == if Expired(timestamps[bullet], now) then ts - {bullet} else ts
    ensures ExpiryState(boxes, ts', physics, net, timestamps, pending - {bullet}, now, boxes0, physics0, net0, removed)
  {
    SurvivingStep(timestamps, pending, now, bullet);
    ExpireKept(boxes, timestamps, pending, now, boxes0, removed, bullet);
  }

  /** A pass of the globalUpdate loop that removes the expired, listed `bullet`: unregistered and announced last. */
  lemma RemovedStep(boxes: seq<Box>, ts: map<Box, int>, physics: seq<PhysicsCall>, net: seq<NetEvent>,
                    timestamps: map<Box, int>, pending: set<Box>, now: int, boxes0: seq<Box>,
                    physics0: seq<PhysicsCall>, net0: seq<NetEvent>, removed: seq<Box>, bullet: Box)
    requires bullet in pending && bullet in boxes
    requires ExpiryState(boxes, ts, physics, net, timestamps, pending, now, boxes0, physics0, net0, removed)
    requires Expired(timestamps[bullet], now)
    ensures ExpiryState(Seqs.Without(boxes, bullet), ts - {bullet}, physics + [UnregisterBody(bullet)],
                        net + [Broadcast(Message.RemoveBox(bullet.id))],
                        timestamps, pending - {bullet}, now, boxes0, physics0, net0, removed + [bullet])
  {
    SurvivingStep(timestamps, pending, now, bullet);
    ExpireRemoved(boxes, Seqs.Without(boxes, bullet), timestamps, pending, now, boxes0, removed, bullet);
    RemovedAppend(removed, bullet);
  }

  /** A bullet that has not expired, or is no longer listed, changes neither the boxes nor `removed`. */
  lemma ExpireKept(boxes: seq<Box>, timestamps: map<Box, int>, pending: set<Box>, now: int,
                   boxes0: seq<Box>, removed: seq<Box>, bullet: Box)
    requires bullet in pending && bullet in timestamps && !(Expired(timestamps[bullet], now) && bullet in boxes)
    requires forall b :: b in boxes0 ==>
      (b in boxes <==> !(b in timestamps && b !in pending && Expired(timestamps[b], now)))
    requires forall b :: b in boxes0 ==>
      (b in removed <==> b in timestamps && b !in pending && Expired(timestamps[b], now))
    ensures forall b :: b in boxes0 ==>
      (b in boxes <==> !(b in timestamps && b !in pending - {bullet} && Expired(timestamps[b], now)))
    ensures forall b :: b in boxes0 ==>
      (b in removed <==> b in timestamps && b !in pending - {bullet} && Expired(timestamps[b], now))
  {
    assert bullet in boxes0 ==> bullet in boxes;
  }

  /** The listed bullet `bullet` leaves the boxes and joins `removed`. */
  lemma ExpireRemoved(boxes: seq<Box>, boxes': seq<Box>, timestamps: map<Box, int>, pending: set<Box>, now: int,
                      boxes0: seq<Box>, removed: seq<Box>, bullet: Box)
    requires bullet in pending && bullet in boxes && bullet in timestamps && Expired(timestamps[bullet], now)
    requires Seqs.Distinct(boxes) && Seqs.Distinct(removed) && boxes' == Seqs.Without(boxes, bullet)
    requires forall b :: b in boxes ==> b in boxes0
    requires forall b :: b in boxes0 ==>
      (b in boxes <==> !(b in timestamps && b !in pending && Expired(timestamps[b], now)))
    requires forall b :: b in removed ==> b in boxes0
    requires forall b :: b in boxes0 ==>
      (b in removed <==> b in timestamps && b !in pending && Expired(timestamps[b], now))
    ensures Seqs.Distinct(boxes') && Seqs.Distinct(removed + [bullet])
    ensures forall b :: b in boxes' ==> b in boxes0
    ensures forall b :: b in boxes0 ==>
      (b in boxes' <==> !(b in timestamps && b !in pending - {bullet} && Expired(timestamps[b], now)))
    ensures forall b :: b in removed + [bullet] ==> b in boxes0
    ensures forall b :: b in boxes0 ==>
      (b in removed + [bullet] <==> b in timestamps && b !in pending - {bullet} && Expired(timestamps[b], now))
  {
    Seqs.WithoutDistinct(boxes, bullet);
    forall b | b in boxes0 || b in boxes' ensures b in boxes' <==> b in boxes && b != bullet {
      Seqs.WithoutMembership(boxes, bullet, b);
    }
    Seqs.AppendDistinct(removed, bullet);
  }

  /** The timestamps globalUpdate keeps once the bullets outside `pending` were looked at. */
  ghost function Surviving(timestamps: map<Box, int>, pending: set<Box>, now: int): map<Box, int>
  {
    map b | b in timestamps && (b in pending || !Expired(timestamps[b], now)) :: timestamps[b]
  }

  /** Looking at one more bullet forgets it exactly when it has expired. */
  lemma SurvivingStep(timestamps: map<Box, int>, pending: set<Box>, now: int, bullet: Box)
    requires bullet in pending && pending <= timestamps.Keys
    ensures Surviving(timestamps, pending - {bullet}, now)
      == if Expired(timestamps[bullet], now) then Surviving(timestamps, pending, now) - {bullet}
         else Surviving(timestamps, pending, now)
  {
  }

  /** A bullet spawned at `timestamp` is due for removal at `now`. */
  predicate Expired(timestamp: int, now: int)
  {
    now - timestamp > BULLET_LIFETIME
  }
}
