/**
 * The older server (src/main/kotlin/com/peinbol/Server.kt): it speaks the
 * four-message protocol of module Messages, keeps the physics engine's box
 * list in step with its own, and moves player boxes itself.
 *
 * Doubles travel as binary64 bit patterns; `toBits`/`fromBits` stand for
 * the IEEE 754 conversion, and `sinDeg`/`cosDeg` for
 * Math.sin/Math.cos(Math.toRadians(a)).  Sends and broadcasts are events
 * in `net`; randomness is a RandomSource; the clock is `now`.
 */
module LegacyServer {
  import opened Util
  import opened Wrappers
  import Messages
  import Seqs

  /** com.peinbol.Box: position, size and velocity as doubles (colour and texture are not used here). */
  class Box {
    const id: Messages.int32
    var x: real
    var y: real
    var z: real
    var sx: real
    var sy: real
    var sz: real
    var vx: real
    var vy: real
    var vz: real
    var affectedByPhysics: bool
    var inGround: bool
    var txtMultiplier: real

    constructor (id: Messages.int32, x: real, y: real, z: real, sx: real, sy: real, sz: real,
                 vx: real := 0.0, vy: real := 0.0, vz: real := 0.0,
                 affectedByPhysics: bool := true, txtMultiplier: real := 1.0)
      ensures this.id == id && this.x == x && this.y == y && this.z == z
      ensures this.sx == sx && this.sy == sy && this.sz == sz
      ensures this.vx == vx && this.vy == vy && this.vz == vz
      ensures this.affectedByPhysics == affectedByPhysics && !inGround && this.txtMultiplier == txtMultiplier
    {
      this.id := id;
      this.x, this.y, this.z := x, y, z;
      this.sx, this.sy, this.sz := sx, sy, sz;
      this.vx, this.vy, this.vz := vx, vy, vz;
      this.affectedByPhysics := affectedByPhysics;
      inGround := false;
      this.txtMultiplier := txtMultiplier;
    }
  }

  /** The InputState kind of message, the only one a player keeps. */
  type InputMsg = m: Messages.Message | m.InputState?
    witness Messages.InputState(false, false, false, false, false, false, false, 0, 0)

  /** Messages.InputState(): every key up, both angles +0.0 (an all-zero bit pattern). */
  const NO_INPUT: InputMsg := Messages.InputState(false, false, false, false, false, false, false, 0, 0)

  const CUBES := 21
  /** The cubes and the base. */
  const WORLD_BOXES := CUBES + 1

  const SHOT_MILLIS := 100
  const SHOT_SPEED := 1.5 * 0.5
  const FRONT_POS := 0.6
  const BULLET_VY := 0.3 * 0.5
  const JUMP := 0.3
  const RUN_SPEED := 1.5
  const AIR_FACTOR := 0.8
  const WALK_SPEED := 0.3

  /** A client connection; only its identity matters. */
  class Connection {
  }

  class Player {
    const connection: Connection
    const collisionBox: Box
    var inputState: InputMsg
    var lastShot: int

    constructor (connection: Connection, collisionBox: Box, inputState: InputMsg)
      ensures this.connection == connection && this.collisionBox == collisionBox
      ensures this.inputState == inputState && lastShot == 0
    {
      this.connection := connection;
      this.collisionBox := collisionBox;
      this.inputState := inputState;
      lastShot := 0;
    }
  }

  /** A cube of generateWorld: unit size and affected by physics. */
  predicate Cube(b: Box)
    reads b
  {
    b.affectedByPhysics && b.sx == 1.0 && b.sy == 1.0 && b.sz == 1.0
  }

  datatype NetEvent = Broadcast(msg: Messages.Message) | Send(to: Connection, msg: Messages.Message)

  datatype Error = NullPointer   // a `!!` on a connection without a player

  // ---------------------------------------------------------------------
  // Movement rules

  /**
   * The speed updatePlayer moves a player at: 1.5, times 0.8 in the air,
   * replaced by 0.3 when walking on the ground.
   */
  function Speed(inGround: bool, walk: bool): (r: real)
    ensures 0.0 < r <= RUN_SPEED
    ensures r == WALK_SPEED <==> walk && inGround
  {
    if walk && inGround then WALK_SPEED
    else if inGround then RUN_SPEED
    else RUN_SPEED * AIR_FACTOR
  }

  /** Walking only slows a player on the ground; in the air the speed is 1.2 whatever the walk key says. */
  lemma SpeedCases(inGround: bool, walk: bool)
    ensures inGround && walk ==> Speed(inGround, walk) == 0.3
    ensures inGround && !walk ==> Speed(inGround, walk) == 1.5
    ensures !inGround ==> Speed(inGround, walk) == 1.2
    ensures 0.3 <= Speed(inGround, walk) <= 1.5
  {
  }

  /**
   * The total change one update makes to a horizontal velocity component,
   * `trig` being the sine (for x) or the cosine (for z) of a heading in
   * degrees: forward subtracts, backwards adds, right and left add the
   * component 90 degrees either side.
   */
  function Steer(forward: bool, backwards: bool, right: bool, left: bool,
                 trig: real -> real, angle: real, speed: real, deltaSec: real): real
  {
    (if forward then -(trig(angle) * speed * deltaSec) else 0.0)
    + (if backwards then trig(angle) * speed * deltaSec else 0.0)
    + (if right then trig(angle + 90.0) * speed * deltaSec else 0.0)
    + (if left then trig(angle - 90.0) * speed * deltaSec else 0.0)
  }

  /** With no direction key held the horizontal velocity is left alone. */
  lemma SteerIdle(trig: real -> real, angle: real, speed: real, deltaSec: real)
    ensures Steer(false, false, false, false, trig, angle, speed, deltaSec) == 0.0
  {
  }

  /** Forward and backwards cancel out, and so do right and left when the two sides are opposite. */
  lemma SteerOpposites(trig: real -> real, angle: real, speed: real, deltaSec: real)
    ensures Steer(true, true, false, false, trig, angle, speed, deltaSec) == 0.0
    ensures trig(angle + 90.0) == -trig(angle - 90.0) ==>
      Steer(false, false, true, true, trig, angle, speed, deltaSec) == 0.0
  {
  }

  // ---------------------------------------------------------------------
  // The server

  class Server {
    const random: RandomSource
    const toBits: real -> Messages.Double
    const fromBits: Messages.Double -> real
    const sinDeg: real -> real
    const cosDeg: real -> real

    var boxes: seq<Box>
    /** physics.boxes, the engine's own list. */
    var physicsBoxes: seq<Box>
    var playersByConnections: map<Connection, Player>
    var net: seq<NetEvent>

    /** Every box is listed once, and the engine sees exactly the server's boxes. */
    ghost predicate Valid()
      reads this`boxes, this`physicsBoxes
    {
      Seqs.Distinct(boxes) && physicsBoxes == boxes
    }

    constructor (random: RandomSource, toBits: real -> Messages.Double, fromBits: Messages.Double -> real,
                 sinDeg: real -> real, cosDeg: real -> real)
      ensures Valid() && this.random == random && this.toBits == toBits && this.fromBits == fromBits
      ensures this.sinDeg == sinDeg && this.cosDeg == cosDeg
      ensures boxes == [] && playersByConnections == map[] && net == []
    {
      this.random := random;
      this.toBits := toBits;
      this.fromBits := fromBits;
      this.sinDeg := sinDeg;
      this.cosDeg := cosDeg;
      boxes := [];
      physicsBoxes := [];
      playersByConnections := map[];
      net := [];
    }

    /** buildStreamBoxMsg. */
    function StreamMsg(b: Box): Messages.Message
      reads b
    {
      Messages.BoxAdded(b.id, toBits(b.x), toBits(b.y), toBits(b.z),
                        toBits(b.sx), toBits(b.sy), toBits(b.sz),
                        toBits(b.vx), toBits(b.vy), toBits(b.vz), b.affectedByPhysics)
    }

    /** The sends that stream every box of `bs`, in order, to one connection. */
    function StreamOf(to: Connection, bs: seq<Box>): (r: seq<NetEvent>)
      reads bs
      ensures |r| == |bs|
      ensures forall i :: 0 <= i < |bs| ==> r[i] == Send(to, StreamMsg(bs[i]))
    {
      if bs == [] then [] else StreamOf(to, bs[..|bs| - 1]) + [Send(to, StreamMsg(bs[|bs| - 1]))]
    }

    /** The BoxUpdateMotion a box is broadcast with in broadcastCurrentWorldState. */
    function MotionMsg(b: Box): Messages.Message
      reads b
    {
      Messages.BoxUpdateMotion(b.id, toBits(b.x), toBits(b.y), toBits(b.z), toBits(b.vx), toBits(b.vy), toBits(b.vz))
    }

    /** The broadcasts of the motion of every box of `bs`, in order. */
    function MotionOf(bs: seq<Box>): (r: seq<NetEvent>)
      reads bs
      ensures |r| == |bs|
      ensures forall i :: 0 <= i < |bs| ==> r[i] == Broadcast(MotionMsg(bs[i]))
    {
      if bs == [] then [] else MotionOf(bs[..|bs| - 1]) + [Broadcast(MotionMsg(bs[|bs| - 1]))]
    }

    /** The broadcasts addBox makes for each box of `bs`, in order. */
    function Announced(bs: seq<Box>): (r: seq<NetEvent>)
      reads bs
      ensures |r| == |bs|
    {
      if bs == [] then [] else Announced(bs[..|bs| - 1]) + [Broadcast(StreamMsg(bs[|bs| - 1]))]
    }

    /** broadcastCurrentWorldState: every box's position and velocity, box by box, to everyone. */
    method BroadcastWorldState()
      modifies this
      ensures net == old(net) + MotionOf(boxes)
      ensures boxes == old(boxes) && physicsBoxes == old(physicsBoxes)
      ensures playersByConnections == old(playersByConnections)
    {
      var updates := [];
      var i := 0;
      while i < |boxes|
        invariant 0 <= i <= |boxes|
        invariant updates == MotionOf(boxes[..i])
      {
        assert boxes[..i + 1][..i] == boxes[..i];
        updates := updates + [Broadcast(MotionMsg(boxes[i]))];
        i := i + 1;
      }
      assert boxes[..i] == boxes;
      net := net + updates;
    }

    /** addBox: the box joins the engine's list and the server's, and is announced. */
    method AddBox(box: Box)
      modifies this`boxes, this`physicsBoxes, this`net
      ensures boxes == old(boxes) + [box] && physicsBoxes == old(physicsBoxes) + [box]
      ensures net == old(net) + [Broadcast(StreamMsg(box))]
      ensures playersByConnections == old(playersByConnections)
      ensures old(Valid()) && box !in old(boxes) ==> Valid()
    {
      physicsBoxes := physicsBoxes + [box];
      boxes := boxes + [box];
      net := net + [Broadcast(StreamMsg(box))];
    }

    /** removeBox: a listed box leaves both lists, silently (there is no removal message); otherwise nothing happens. */
    method RemoveBox(box: Box)
      requires Valid()
      modifies this
      ensures Valid() && box !in boxes && box !in physicsBoxes
      ensures box !in old(boxes) ==> boxes == old(boxes)
      ensures box in old(boxes) ==> boxes == Seqs.Without(old(boxes), box) && |boxes| == |old(boxes)| - 1
      ensures net == old(net) && playersByConnections == old(playersByConnections)
    {
      if box in boxes {
        Seqs.RemoveFirstDistinct(boxes, box);
        Seqs.WithoutDistinct(boxes, box);
        physicsBoxes := Seqs.RemoveFirst(physicsBoxes, box);
        boxes := Seqs.RemoveFirst(boxes, box);
      }
    }

    /** generateWorld: 21 physics cubes, then one static base. */
    method GenerateWorld()
      requires Valid()
      modifies this`boxes, this`physicsBoxes, this`net, random
      ensures Valid()
      ensures |boxes| == |old(boxes)| + WORLD_BOXES && boxes[..|old(boxes)|] == old(boxes)
      ensures forall i :: |old(boxes)| <= i < |boxes| ==> fresh(boxes[i])
      ensures forall i :: |old(boxes)| <= i < |old(boxes)| + CUBES ==> Cube(boxes[i])
      ensures var base := boxes[|boxes| - 1];
        !base.affectedByPhysics && base.y == -50.0 && base.sx == 100.0 && base.txtMultiplier == 50.0
      ensures physicsBoxes == old(physicsBoxes) + boxes[|old(boxes)|..]
      ensures net == old(net) + Announced(boxes[|old(boxes)|..])
    {
      ghost var added: seq<Box> := [];
      var i := 0;
      while i < CUBES
        invariant 0 <= i <= CUBES && |added| == i
        invariant (Grown(added, old(boxes), old(net)) && Cubes(added)) == true
        invariant forall k :: 0 <= k < |added| ==> fresh(added[k])
      {
        var box := AddCube(added, old(boxes), old(net));
        added := added + [box];
        i := i + 1;
      }
      var base := AddBase(added, old(boxes), old(net));
      added := added + [base];
      assert boxes[|old(boxes)|..] == added;
    }

    /** The static base of generateWorld: 100 by 1 by 100, 50 below the origin, added after the cubes `added`. */
    method AddBase(ghost added: seq<Box>, ghost boxes0: seq<Box>, ghost net0: seq<NetEvent>) returns (base: Box)
      requires Grown(added, boxes0, net0) && Cubes(added)
      modifies this`boxes, this`physicsBoxes, this`net, random
      ensures fresh(base) && Grown(added + [base], boxes0, net0) && Cubes(added)
      ensures !base.affectedByPhysics && base.y == -50.0 && base.sx == 100.0 && base.txtMultiplier == 50.0
    {
      var baseId := random.Id();
      base := new Box(baseId, 0.0, -50.0, 0.0, 100.0, 1.0, 100.0,
                      affectedByPhysics := false, txtMultiplier := 50.0);
      Place(base, added, boxes0, net0);
    }

    /**
     * The boxes `added` since (boxes0, net0): both lists grew by them, in
     * order, and each was announced once.
     */
    ghost predicate Grown(added: seq<Box>, boxes0: seq<Box>, net0: seq<NetEvent>)
      reads this`boxes, this`physicsBoxes, this`net, added
    {
      Valid() && boxes == boxes0 + added && net == net0 + Announced(added)
    }

    /** Announcing one more box adds its broadcast at the end. */
    lemma AnnouncedAppend(bs: seq<Box>, b: Box)
      ensures Announced(bs + [b]) == Announced(bs) + [Broadcast(StreamMsg(b))]
    {
      assert (bs + [b])[..|bs|] == bs;
    }

    /** Every box of `bs` is a cube of generateWorld. */
    ghost predicate Cubes(bs: seq<Box>)
      reads bs
    {
      forall b :: b in bs ==> Cube(b)
    }

    /** One pass of generateWorld's cube loop: a new cube, added after `added`. */
    method AddCube(ghost added: seq<Box>, ghost boxes0: seq<Box>, ghost net0: seq<NetEvent>) returns (box: Box)
      requires Grown(added, boxes0, net0) && Cubes(added)
      modifies this`boxes, this`physicsBoxes, this`net, random
      ensures fresh(box) && Grown(added + [box], boxes0, net0) && Cubes(added + [box])
    {
      box := NewCube();
      Place(box, added, boxes0, net0);
    }

    /** addBox for a new box that follows `added`. */
    method Place(box: Box, ghost added: seq<Box>, ghost boxes0: seq<Box>, ghost net0: seq<NetEvent>)
      requires Grown(added, boxes0, net0) && box !in boxes
      modifies this`boxes, this`physicsBoxes, this`net
      ensures Grown(added + [box], boxes0, net0)
    {
      AnnouncedAppend(added, box);
      AddBox(box);
    }

    /** One cube of generateWorld: unit size, affected by physics, within 40 of the centre and 5 of the ground level. */
    method NewCube() returns (box: Box)
      modifies random
      ensures fresh(box) && Cube(box)
      ensures -40.0 <= box.x < 40.0 && -5.0 <= box.y < 5.0 && -40.0 <= box.z < 40.0
    {
      var id := random.Id();
      var x := random.Between(-40, 40);
      var y := random.Between(-5, 5);
      var z := random.Between(-40, 40);
      box := new Box(id, x as real, y as real, z as real, 1.0, 1.0, 1.0, affectedByPhysics := true);
    }

    /**
     * handleConnection: one new player box is added (and announced) first,
     * then the player is recorded, then the whole world and the Spawn are
     * sent to the newcomer.
     */
    method HandleConnection(connection: Connection) returns (player: Player)
      requires Valid()
      modifies this, random
      ensures Valid() && fresh(player) && fresh(player.collisionBox)
      ensures playersByConnections == old(playersByConnections)[connection := player]
      ensures player.connection == connection && player.inputState == NO_INPUT && player.lastShot == 0
      ensures boxes == old(boxes) + [player.collisionBox]
      ensures player.collisionBox.affectedByPhysics && player.collisionBox.y == 10.0
      ensures net == old(net) + [Broadcast(StreamMsg(player.collisionBox))]
                     + StreamOf(connection, boxes) + [Send(connection, Messages.Spawn(player.collisionBox.id))]
    {
      var playerBox := AddPlayerBox();
      player := new Player(connection, playerBox, NO_INPUT);
      playersByConnections := playersByConnections[connection := player];
      Welcome(connection, playerBox.id);
    }

    /** The tail of handleConnection: the world streamed to the newcomer, then its Spawn. */
    method Welcome(connection: Connection, id: Messages.int32)
      modifies this
      ensures boxes == old(boxes) && physicsBoxes == old(physicsBoxes)
      ensures playersByConnections == old(playersByConnections)
      ensures net == old(net) + StreamOf(connection, boxes) + [Send(connection, Messages.Spawn(id))]
    {
      var stream := StreamBoxes(connection);
      net := net + stream + [Send(connection, Messages.Spawn(id))];
    }

    /** The player box of handleConnection, added to the world. */
    method AddPlayerBox() returns (playerBox: Box)
      requires Valid()
      modifies this, random
      ensures Valid() && fresh(playerBox)
      ensures boxes == old(boxes) + [playerBox]
      ensures playerBox.affectedByPhysics && playerBox.y == 10.0
      ensures playerBox.sx == 0.5 && playerBox.sy == 2.0 && playerBox.sz == 0.5
      ensures net == old(net) + [Broadcast(StreamMsg(playerBox))]
      ensures playersByConnections == old(playersByConnections)
    {
      var id := random.Id();
      var x := random.Between(-20, 20);
      var z := random.Between(-20, 20);
      playerBox := new Box(id, x as real, 10.0, z as real, 0.5, 2.0, 0.5, affectedByPhysics := true);
      AddBox(playerBox);
    }

    /** The `for (worldBox in boxes) network.send(...)` loop, collected. */
    method StreamBoxes(connection: Connection) returns (stream: seq<NetEvent>)
      ensures stream == StreamOf(connection, boxes)
    {
      stream := [];
      var i := 0;
      while i < |boxes|
        invariant 0 <= i <= |boxes|
        invariant stream == StreamOf(connection, boxes[..i])
      {
        assert boxes[..i + 1][..i] == boxes[..i];
        stream := stream + [Send(connection, StreamMsg(boxes[i]))];
        i := i + 1;
      }
      assert boxes[..i] == boxes;
    }

    /** handleDisconnection: fails on an unknown connection; otherwise removes the box but keeps the player entry. */
    method HandleDisconnection(connection: Connection) returns (r: Result<(), Error>)
      requires Valid()
      modifies this
      ensures Valid() && playersByConnections == old(playersByConnections) && net == old(net)
      ensures connection !in old(playersByConnections) ==> r == Err(NullPointer) && boxes == old(boxes)
      ensures connection in old(playersByConnections) ==>
        (r == Ok(()) && playersByConnections[connection].collisionBox !in boxes
         && boxes == Seqs.Without(old(boxes), playersByConnections[connection].collisionBox))
    {
      if connection !in playersByConnections {
        return Err(NullPointer);
      }
      var player := playersByConnections[connection];
      RemoveBox(player.collisionBox);
      r := Ok(());
    }

    /** handleClientMessage: fails on an unknown connection; an InputState replaces the player's, anything else is ignored. */
    method HandleClientMessage(connection: Connection, message: Messages.Message) returns (r: Result<(), Error>)
      requires Valid()
      modifies this, set c | c in playersByConnections :: playersByConnections[c]
      ensures Valid() && boxes == old(boxes) && net == old(net)
      ensures playersByConnections == old(playersByConnections)
      ensures connection !in playersByConnections <==> r == Err(NullPointer)
      ensures r.Ok? && message.InputState? ==> playersByConnections[connection].inputState == message
      ensures forall p :: (p in old(playersByConnections.Values)
                           && !(r.Ok? && message.InputState? && p == playersByConnections[connection])) ==>
        p.inputState == old(p.inputState)
    {
      if connection !in playersByConnections {
        return Err(NullPointer);
      }
      var player := playersByConnections[connection];
      if message.InputState? {
        player.inputState := message;
      }
      r := Ok(());
    }

    /**
     * updatePlayer: steer the player's box from its input, jump when on the
     * ground, and fire one bullet when more than 100 ms have passed since
     * the last.  Returns whether a bullet was fired.
     */
    method UpdatePlayer(player: Player, input: InputMsg, delta: int, now: int) returns (fired: bool)
      requires Valid()
      modifies this`boxes, this`physicsBoxes, this`net, random, player`lastShot, player.collisionBox
      ensures Valid() && playersByConnections == old(playersByConnections)
      ensures var box := player.collisionBox;
        var angle := fromBits(input.cameraY);
        var speed := Speed(old(box.inGround), input.walk);
        var deltaSec := delta as real / 1000.0;
        box.vx == old(box.vx) + Steer(input.forward, input.backwards, input.right, input.left, sinDeg, angle, speed, deltaSec)
        && box.vz == old(box.vz) + Steer(input.forward, input.backwards, input.right, input.left, cosDeg, angle, speed, deltaSec)
        && box.vy == old(box.vy) + (if input.jump && old(box.inGround) then JUMP else 0.0)
        && box.x == old(box.x) && box.y == old(box.y) && box.z == old(box.z)
      ensures fired <==> input.fire && now - old(player.lastShot) > SHOT_MILLIS
      ensures player.lastShot == (if fired then now else old(player.lastShot))
      ensures player.inputState == old(player.inputState)
      ensures !fired ==> boxes == old(boxes) && net == old(net)
      ensures fired ==> |boxes| == |old(boxes)| + 1 && boxes[..|old(boxes)|] == old(boxes)
      ensures fired ==> var bullet := boxes[|boxes| - 1];
        fresh(bullet) && net == old(net) + [Broadcast(StreamMsg(bullet))]
        && ShotFrom(bullet, old(player.collisionBox.x), old(player.collisionBox.y), old(player.collisionBox.z),
                    fromBits(input.cameraY))
    {
      Move(player.collisionBox, input, delta);
      fired := false;
      if input.fire && now - player.lastShot > SHOT_MILLIS {
        player.lastShot := now;
        var bullet := Shoot(player.collisionBox, fromBits(input.cameraY));
        fired := true;
      }
    }

    /** The speed, steering and jump part of updatePlayer. */
    method Move(box: Box, input: InputMsg, delta: int)
      modifies box
      ensures var angle := fromBits(input.cameraY);
        var speed := Speed(old(box.inGround), input.walk);
        var deltaSec := delta as real / 1000.0;
        box.vx == old(box.vx) + Steer(input.forward, input.backwards, input.right, input.left, sinDeg, angle, speed, deltaSec)
        && box.vz == old(box.vz) + Steer(input.forward, input.backwards, input.right, input.left, cosDeg, angle, speed, deltaSec)
      ensures box.vy == old(box.vy) + (if input.jump && old(box.inGround) then JUMP else 0.0)
      ensures box.x == old(box.x) && box.y == old(box.y) && box.z == old(box.z)
      ensures box.inGround == old(box.inGround) && box.affectedByPhysics == old(box.affectedByPhysics)
      ensures box.sx == old(box.sx) && box.sy == old(box.sy) && box.sz == old(box.sz)
      ensures box.txtMultiplier == old(box.txtMultiplier)
    {
      var deltaSec := delta as real / 1000.0;
      var speed := RUN_SPEED;
      if !box.inGround {
        speed := speed * AIR_FACTOR;
      }
      if input.walk && box.inGround {
        speed := WALK_SPEED;
      }
      assert speed == Speed(box.inGround, input.walk);
      var angle := fromBits(input.cameraY);
      var vx, vz := box.vx, box.vz;
      if input.forward {
        vx := vx - sinDeg(angle) * speed * deltaSec;
        vz := vz - cosDeg(angle) * speed * deltaSec;
      }
      if input.backwards {
        vx := vx + sinDeg(angle) * speed * deltaSec;
        vz := vz + cosDeg(angle) * speed * deltaSec;
      }
      if input.right {
        vx := vx + sinDeg(angle + 90.0) * speed * deltaSec;
        vz := vz + cosDeg(angle + 90.0) * speed * deltaSec;
      }
      if input.left {
        vx := vx + sinDeg(angle - 90.0) * speed * deltaSec;
        vz := vz + cosDeg(angle - 90.0) * speed * deltaSec;
      }
      assert vx == box.vx + Steer(input.forward, input.backwards, input.right, input.left, sinDeg, angle, speed, deltaSec);
      assert vz == box.vz + Steer(input.forward, input.backwards, input.right, input.left, cosDeg, angle, speed, deltaSec);
      box.vx, box.vz := vx, vz;
      if input.jump && box.inGround {
        box.vy := box.vy + JUMP;
      }
    }

    /**
     * A bullet shot along `angle` by a box at (x, y, z): a 0.2 cube 0.6 in
     * front of it at the same height, moving forward at 0.75 and up at 0.15.
     */
    ghost predicate ShotFrom(bullet: Box, x: real, y: real, z: real, angle: real)
      reads bullet
    {
      bullet.x == x + -sinDeg(angle) * FRONT_POS && bullet.y == y && bullet.z == z + -cosDeg(angle) * FRONT_POS
      && bullet.vx == -sinDeg(angle) * SHOT_SPEED && bullet.vy == BULLET_VY && bullet.vz == -cosDeg(angle) * SHOT_SPEED
      && bullet.sx == 0.2 && bullet.sy == 0.2 && bullet.sz == 0.2 && bullet.affectedByPhysics
    }

    /** The bullet of updatePlayer: 0.6 in front of the shooter, flying forward and slightly up. */
    method Shoot(shooter: Box, angle: real) returns (bullet: Box)
      requires Valid()
      modifies this`boxes, this`physicsBoxes, this`net, random
      ensures Valid() && fresh(bullet)
      ensures boxes == old(boxes) + [bullet] && physicsBoxes == old(physicsBoxes) + [bullet]
      ensures net == old(net) + [Broadcast(StreamMsg(bullet))]
      ensures ShotFrom(bullet, shooter.x, shooter.y, shooter.z, angle)
    {
      var id := random.Id();
      bullet := new Box(id, shooter.x + -sinDeg(angle) * FRONT_POS, shooter.y, shooter.z + -cosDeg(angle) * FRONT_POS,
                        0.2, 0.2, 0.2,
                        vx := -sinDeg(angle) * SHOT_SPEED, vy := BULLET_VY, vz := -cosDeg(angle) * SHOT_SPEED);
      AddBox(bullet);
    }
  }
}
