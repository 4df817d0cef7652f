/**
 * The Android WorldRenderer (NativeActivityTest/app/src/main/java/io/snower/
 * game/client/WorldRenderer.kt): the set of boxes to draw, each with its
 * BoxRenderer of per-vertex colours and texture coordinates; the textures,
 * loaded once; the camera behind its clamping setters; and, per box, the
 * blend switch, texture bind and 36-vertex draw of the cube.
 *
 * Asset reading and PNG decoding, the shader compile and link helpers, and
 * the matrix set-up are outside the model: their results are parameters.
 */
module WorldRendering {
  import opened Wrappers
  import opened Geometry
  import opened GlContext
  import Util
  import Seqs
  import Boxes
  import Texture

  /** A cube is 6 faces of 2 triangles: 36 vertices. */
  const VERTEX_COUNT := 36
  const POSITION_DATA_SIZE := 3
  const COLOR_DATA_SIZE := 4
  const NORMAL_DATA_SIZE := 3
  const TEXTURE_COORDS_DATA_SIZE := 2

  const TXT_BASE_COORDS: seq<real> := [
    0.0, 0.0, 0.0, 1.0, 1.0, 0.0, 0.0, 1.0, 1.0, 1.0, 1.0, 0.0,
    0.0, 0.0, 0.0, 1.0, 1.0, 0.0, 0.0, 1.0, 1.0, 1.0, 1.0, 0.0,
    0.0, 0.0, 0.0, 1.0, 1.0, 0.0, 0.0, 1.0, 1.0, 1.0, 1.0, 0.0,
    0.0, 0.0, 0.0, 1.0, 1.0, 0.0, 0.0, 1.0, 1.0, 1.0, 1.0, 0.0,
    0.0, 0.0, 0.0, 1.0, 1.0, 0.0, 0.0, 1.0, 1.0, 1.0, 1.0, 0.0,
    0.0, 0.0, 0.0, 1.0, 1.0, 0.0, 0.0, 1.0, 1.0, 1.0, 1.0, 0.0]

  const CUBE_POSITIONS: seq<real> := [
    -1.0, 1.0, 1.0, -1.0, -1.0, 1.0, 1.0, 1.0, 1.0, -1.0, -1.0, 1.0, 1.0, -1.0, 1.0, 1.0, 1.0, 1.0,
    1.0, 1.0, 1.0, 1.0, -1.0, 1.0, 1.0, 1.0, -1.0, 1.0, -1.0, 1.0, 1.0, -1.0, -1.0, 1.0, 1.0, -1.0,
    1.0, 1.0, -1.0, 1.0, -1.0, -1.0, -1.0, 1.0, -1.0, 1.0, -1.0, -1.0, -1.0, -1.0, -1.0, -1.0, 1.0, -1.0,
    -1.0, 1.0, -1.0, -1.0, -1.0, -1.0, -1.0, 1.0, 1.0, -1.0, -1.0, -1.0, -1.0, -1.0, 1.0, -1.0, 1.0, 1.0,
    -1.0, 1.0, -1.0, -1.0, 1.0, 1.0, 1.0, 1.0, -1.0, -1.0, 1.0, 1.0, 1.0, 1.0, 1.0, 1.0, 1.0, -1.0,
    1.0, -1.0, -1.0, 1.0, -1.0, 1.0, -1.0, -1.0, -1.0, 1.0, -1.0, 1.0, -1.0, -1.0, 1.0, -1.0, -1.0, -1.0]

  const CUBE_NORMALS: seq<real> := [
    0.0, 0.0, 1.0, 0.0, 0.0, 1.0, 0.0, 0.0, 1.0, 0.0, 0.0, 1.0, 0.0, 0.0, 1.0, 0.0, 0.0, 1.0,
    1.0, 0.0, 0.0, 1.0, 0.0, 0.0, 1.0, 0.0, 0.0, 1.0, 0.0, 0.0, 1.0, 0.0, 0.0, 1.0, 0.0, 0.0,
    0.0, 0.0, -1.0, 0.0, 0.0, -1.0, 0.0, 0.0, -1.0, 0.0, 0.0, -1.0, 0.0, 0.0, -1.0, 0.0, 0.0, -1.0,
    -1.0, 0.0, 0.0, -1.0, 0.0, 0.0, -1.0, 0.0, 0.0, -1.0, 0.0, 0.0, -1.0, 0.0, 0.0, -1.0, 0.0, 0.0,
    0.0, 1.0, 0.0, 0.0, 1.0, 0.0, 0.0, 1.0, 0.0, 0.0, 1.0, 0.0, 0.0, 1.0, 0.0, 0.0, 1.0, 0.0,
    0.0, -1.0, 0.0, 0.0, -1.0, 0.0, 0.0, -1.0, 0.0, 0.0, -1.0, 0.0, 0.0, -1.0, 0.0, 0.0, -1.0, 0.0]

  const CUBE_TEXTURE_COORDINATES: seq<real> := [
    0.0, 0.0, 0.0, 1.0, 1.0, 0.0, 0.0, 1.0, 1.0, 1.0, 1.0, 0.0,
    0.0, 0.0, 0.0, 1.0, 1.0, 0.0, 0.0, 1.0, 1.0, 1.0, 1.0, 0.0,
    0.0, 0.0, 0.0, 1.0, 1.0, 0.0, 0.0, 1.0, 1.0, 1.0, 1.0, 0.0,
    0.0, 0.0, 0.0, 1.0, 1.0, 0.0, 0.0, 1.0, 1.0, 1.0, 1.0, 0.0,
    0.0, 0.0, 0.0, 1.0, 1.0, 0.0, 0.0, 1.0, 1.0, 1.0, 1.0, 0.0,
    0.0, 0.0, 0.0, 1.0, 1.0, 0.0, 0.0, 1.0, 1.0, 1.0, 1.0, 0.0]

  /**
   * The cube data holds exactly the 36 vertices glDrawArrays draws, the
   * texture coordinates are the base coordinates.
   */
  lemma CubeData()
    ensures |CUBE_POSITIONS| == POSITION_DATA_SIZE * VERTEX_COUNT
    ensures |CUBE_NORMALS| == NORMAL_DATA_SIZE * VERTEX_COUNT
    ensures |CUBE_TEXTURE_COORDINATES| == TEXTURE_COORDS_DATA_SIZE * VERTEX_COUNT
    ensures CUBE_TEXTURE_COORDINATES == TXT_BASE_COORDS
  {
  }

  /** Component k of a colour, in the order r, g, b, a. */
  function Component(c: Color, k: int): real
  {
    if k == 0 then c.r else if k == 1 then c.g else if k == 2 then c.b else c.a
  }

  /** The BoxRenderer colour data: 36 copies of (r, g, b, a). */
  function ColorData(c: Color, vertices: nat): (r: seq<real>)
    ensures |r| == COLOR_DATA_SIZE * vertices
    ensures forall j :: 0 <= j < |r| ==> r[j] == Component(c, j % 4)
  {
    if vertices == 0 then []
    else ColorData(c, vertices - 1) + [c.r, c.g, c.b, c.a]
  }

  /** The per-box data behind a box's rendererHandle. */
  class BoxRenderer {
    const colorBuffer: array<real>
    const textureCoordsBuffer: array<real>

    constructor (box: Boxes.Box)
      ensures fresh(colorBuffer) && fresh(textureCoordsBuffer)
      ensures colorBuffer[..] == ColorData(box.theColor, VERTEX_COUNT)
      ensures textureCoordsBuffer.Length == |TXT_BASE_COORDS|
      ensures forall i :: 0 <= i < |TXT_BASE_COORDS| ==> textureCoordsBuffer[i] == TXT_BASE_COORDS[i] * box.textureMultiplier
    {
      var colors := ColorBuffer(box.theColor);
      var coords := TextureCoordsBuffer(box.textureMultiplier);
      colorBuffer, textureCoordsBuffer := colors, coords;
    }
  }

  /** The per-vertex colour array: the colour's four components, once per vertex. */
  method ColorBuffer(c: Color) returns (colors: array<real>)
    ensures fresh(colors) && colors[..] == ColorData(c, VERTEX_COUNT)
  {
    colors := new real[VERTEX_COUNT * COLOR_DATA_SIZE];
    var v := 0;
    while v < VERTEX_COUNT
      invariant 0 <= v <= VERTEX_COUNT
      invariant forall j :: 0 <= j < 4 * v ==> colors[j] == Component(c, j % 4)
    {
      colors[4 * v] := c.r;
      colors[4 * v + 1] := c.g;
      colors[4 * v + 2] := c.b;
      colors[4 * v + 3] := c.a;
      v := v + 1;
    }
    assert colors[..] == ColorData(c, VERTEX_COUNT);
  }

  /** The texture coordinates, each base coordinate times the box's texture multiplier. */
  method TextureCoordsBuffer(m: real) returns (coords: array<real>)
    ensures fresh(coords) && coords.Length == |TXT_BASE_COORDS|
    ensures forall i :: 0 <= i < |TXT_BASE_COORDS| ==> coords[i] == TXT_BASE_COORDS[i] * m
  {
    coords := new real[VERTEX_COUNT * TEXTURE_COORDS_DATA_SIZE];
    var i := 0;
    while i < VERTEX_COUNT * TEXTURE_COORDS_DATA_SIZE
      invariant 0 <= i <= VERTEX_COUNT * TEXTURE_COORDS_DATA_SIZE
      invariant forall j :: 0 <= j < i ==> coords[j] == TXT_BASE_COORDS[j] * m
    {
      coords[i] := TXT_BASE_COORDS[i] * m;
      i := i + 1;
    }
  }

  /** The blend switch for one box: on exactly when the colour is translucent. */
  function BlendCall(alpha: real): (r: GlCall)
    ensures r == Enable(Blend) <==> alpha < 1.0
    ensures r == Disable(Blend) <==> alpha >= 1.0
  {
    if alpha < 1.0 then Enable(Blend) else Disable(Blend)
  }

  /** What draw reads of one box: its alpha and the name its texture binds, if any. */
  datatype BoxView = BoxView(alpha: real, texture: Option<int>)

  /**
   * The calls for one box: the blend switch, the texture bind (only when
   * the box's texture exists and is loaded), the sampler unit, the cube.
   */
  function BoxCalls(v: BoxView): seq<GlCall>
  {
    [BlendCall(v.alpha)]
    + (if v.texture.Some? then [BindTexture(v.texture.value)] else [])
    + [UniformTexture(0), DrawArrays(0, VERTEX_COUNT)]
  }

  /** The per-box part of draw, box after box. */
  function BoxesCalls(vs: seq<BoxView>): seq<GlCall>
  {
    if vs == [] then []
    else BoxesCalls(vs[..|vs| - 1]) + BoxCalls(vs[|vs| - 1])
  }

  /** The number of cube draws in a trace. */
  function DrawCount(cs: seq<GlCall>): (n: nat)
    ensures n <= |cs|
  {
    if cs == [] then 0
    else (if cs[0].DrawArrays? then 1 else 0) + DrawCount(cs[1..])
  }

  lemma {:induction false} DrawCountAppend(a: seq<GlCall>, b: seq<GlCall>)
    ensures DrawCount(a + b) == DrawCount(a) + DrawCount(b)
  {
    if a == [] {
      assert a + b == b;
    } else {
      DrawCountAppend(a[1..], b);
      assert (a + b)[1..] == a[1..] + b;
    }
  }

  lemma {:induction false} NoDraws(cs: seq<GlCall>)
    requires forall k :: 0 <= k < |cs| ==> !cs[k].DrawArrays?
    ensures DrawCount(cs) == 0
  {
    if cs != [] {
      NoDraws(cs[1..]);
    }
  }

  /** Each box block draws the cube once, last, after its blend switch. */
  lemma BoxCallsDrawOnce(v: BoxView)
    ensures var cs := BoxCalls(v);
      DrawCount(cs) == 1 && cs[0] == BlendCall(v.alpha) && cs[|cs| - 1] == DrawArrays(0, VERTEX_COUNT)
  {
    var cs := BoxCalls(v);
    var d := [DrawArrays(0, VERTEX_COUNT)];
    assert DrawCount(d) == 1 by { assert d[1..] == []; }
    var front := cs[..|cs| - 1];
    assert cs == front + d;
    NoDraws(front);
    DrawCountAppend(front, d);
  }

  lemma KeyOf(s: set<int>)
    requires s != {}
    ensures exists k :: k in s
  {
    if forall k :: k !in s {
      assert false;
    }
  }

  /**
   * The GL calls of loading the textures `ts` one after the other with the
   * default filter and wrap, the k-th taking the name `name0 + k + 1`.
   */
  function LoadsInOrder(ts: seq<Texture.GLTextureWrapper>, name0: int): (r: seq<GlCall>)
    ensures |r| == 9 * |ts|
    ensures forall k :: 0 <= k < |ts| ==> r[9 * k] == GenTexture(name0 + k + 1)
  {
    if ts == [] then []
    else
      var t := ts[|ts| - 1];
      var init := LoadsInOrder(ts[..|ts| - 1], name0);
      assert forall k :: 0 <= k < |ts| - 1 ==> ts[..|ts| - 1][k] == ts[k];
      init + Texture.LoadCalls(name0 + |ts|, t.width, t.height, t.buffer, GL_LINEAR_MIPMAP_LINEAR, GL_REPEAT)
  }

  /** Loading one more texture appends its load calls under the next name. */
  lemma LoadsInOrderSnoc(ts: seq<Texture.GLTextureWrapper>, t: Texture.GLTextureWrapper, name0: int)
    ensures LoadsInOrder(ts + [t], name0) == LoadsInOrder(ts, name0)
      + Texture.LoadCalls(name0 + |ts| + 1, t.width, t.height, t.buffer, GL_LINEAR_MIPMAP_LINEAR, GL_REPEAT)
  {
    assert (ts + [t])[..|ts|] == ts;
  }

  /**
   * What the texture loop knows at each turn: the textures loaded on entry
   * (`before`, with their names `ids0`) are still loaded under those names;
   * every other loaded texture is in `loaded`, the k-th under the name
   * `name0 + k + 1`.
   */
  ghost predicate Tracked(repr: set<Texture.GLTextureWrapper>, before: set<Texture.GLTextureWrapper>,
                          ids0: map<Texture.GLTextureWrapper, int>, loaded: seq<Texture.GLTextureWrapper>, name0: int)
    reads repr
  {
    before <= repr && before <= ids0.Keys
    && (forall t :: t in before ==> t.loadedInGL && t.id == ids0[t])
    && (forall t :: t in loaded ==> t in repr && t !in before && t.loadedInGL)
    && (forall t :: t in repr && t.loadedInGL ==> t in before || t in loaded)
    && (forall k :: 0 <= k < |loaded| ==> loaded[k].id == name0 + k + 1)
  }

  /** One turn of the texture loop: load `t`, and extend the load order when it was not loaded yet. */
  method LoadNext(gl: Gl, t: Texture.GLTextureWrapper, ghost repr: set<Texture.GLTextureWrapper>,
                  ghost before: set<Texture.GLTextureWrapper>, ghost ids0: map<Texture.GLTextureWrapper, int>,
                  ghost loaded: seq<Texture.GLTextureWrapper>, ghost name0: int, ghost calls0: seq<GlCall>)
      returns (ghost loaded': seq<Texture.GLTextureWrapper>)
    requires t in repr && Tracked(repr, before, ids0, loaded, name0)
    requires gl.lastName == name0 + |loaded|
    requires gl.calls == calls0 + LoadsInOrder(loaded, name0)
    modifies gl, t
    ensures Tracked(repr, before, ids0, loaded', name0) && t.loadedInGL
    ensures old(t.loadedInGL) ==> loaded' == loaded
    ensures !old(t.loadedInGL) ==> loaded' == loaded + [t]
    ensures gl.lastName == name0 + |loaded'|
    ensures gl.calls == calls0 + LoadsInOrder(loaded', name0)
  {
    if t.loadedInGL {
      t.Load(gl);
      loaded' := loaded;
    } else {
      assert t !in before && t !in loaded;
      ghost var step := Texture.LoadCalls(name0 + |loaded| + 1, t.width, t.height, t.buffer, GL_LINEAR_MIPMAP_LINEAR, GL_REPEAT);
      t.Load(gl);
      LoadsInOrderSnoc(loaded, t, name0);
      Seqs.AppendAssoc(calls0, LoadsInOrder(loaded, name0), step);
      loaded' := loaded + [t];
      assert forall u :: u in loaded' ==> u in loaded || u == t;
    }
  }

  /**
   * The texture loop of init, over the map in some order (the source fills
   * a ConcurrentHashMap, whose iteration order is unspecified): `loaded` is
   * that order, restricted to the textures that were not loaded before.
   * Each of those is loaded exactly once, under the next fresh name, and
   * the GL trace grows by exactly their load calls in that order; a
   * texture loaded before keeps its name and makes no call.
   */
  method LoadAll(gl: Gl, textures: map<int, Texture.GLTextureWrapper>, ghost repr: set<Texture.GLTextureWrapper>)
      returns (ghost loaded: seq<Texture.GLTextureWrapper>)
    requires forall id :: id in textures ==> textures[id] in repr
    modifies gl, repr
    ensures forall id :: id in textures ==> textures[id].loadedInGL
    ensures forall t :: t in repr && old(t.loadedInGL) ==> t.loadedInGL && t.id == old(t.id)
    ensures (forall t :: t in repr ==> old(t.loadedInGL)) ==> gl.calls == old(gl.calls)
    ensures Seqs.Distinct(loaded)
    ensures forall t :: t in loaded ==> t in textures.Values && !old(t.loadedInGL)
    ensures forall id :: id in textures && !old(textures[id].loadedInGL) ==> textures[id] in loaded
    ensures forall k :: 0 <= k < |loaded| ==> loaded[k].id == old(gl.lastName) + k + 1
    ensures gl.lastName == old(gl.lastName) + |loaded|
    ensures gl.calls == old(gl.calls) + LoadsInOrder(loaded, old(gl.lastName))
  {
    loaded := [];
    // The textures already loaded on entry, and their names.
    ghost var before := set t | t in repr && old(t.loadedInGL);
    ghost var ids0 := map t | t in before :: old(t.id);
    ghost var name0 := gl.lastName;
    var todo := textures.Keys;
    while todo != {}
      invariant todo <= textures.Keys
      invariant Tracked(repr, before, ids0, loaded, name0)
      invariant forall t :: t in loaded ==> t in textures.Values
      invariant forall id :: id in textures && id !in todo ==> textures[id] in before || textures[id] in loaded
      invariant gl.lastName == name0 + |loaded|
      invariant gl.calls == old(gl.calls) + LoadsInOrder(loaded, name0)
      decreases |todo|
    {
      KeyOf(todo);
      var key :| key in todo;
      var t := textures[key];
      loaded := LoadNext(gl, t, repr, before, ids0, loaded, name0, old(gl.calls));
      todo := todo - {key};
    }
    assert (forall t :: t in repr ==> old(t.loadedInGL)) ==> loaded == [] by {
      if loaded != [] {
        assert loaded[0] in loaded;
      }
    }
  }

  class WorldRenderer {
    const gl: Gl
    var width: int
    var height: int
    var boxes: seq<Boxes.Box>
    var textures: map<int, Texture.GLTextureWrapper>
    /** The texture wrappers the map refers to. */
    ghost var textureRepr: set<Texture.GLTextureWrapper>
    var vertexShaderSource: string
    var fragmentShaderSource: string
    var assetsLoaded: bool
    var glInited: bool
    var program: int
    var cameraPosX: real
    var cameraPosY: real
    var cameraPosZ: real
    var cameraRotX: real
    var cameraRotY: real
    var cameraRotZ: real

    /**
     * The box set holds each box once, every box in it has a renderer
     * handle, and the camera angles are within their setters' ranges.
     */
    ghost predicate TexturesTracked()
      reads this
    {
      forall id :: id in textures ==> textures[id] in textureRepr
    }

    ghost predicate Valid()
      reads this, boxes
    {
      TexturesTracked()
      && Seqs.Distinct(boxes)
      && (forall b :: b in boxes ==> b.rendererHandle != null)
      && -Util.MAX_PITCH <= cameraRotX <= Util.MAX_PITCH
      && -Util.FULL_TURN < cameraRotY < Util.FULL_TURN
      && -Util.FULL_TURN < cameraRotZ < Util.FULL_TURN
    }

    constructor (gl: Gl)
      ensures Valid() && this.gl == gl
      ensures boxes == [] && textures == map[] && !assetsLoaded && !glInited && program == 0
      ensures width == 0 && height == 0 && vertexShaderSource == "" && fragmentShaderSource == ""
      ensures cameraPosX == 0.0 && cameraPosY == 0.0 && cameraPosZ == 0.0
      ensures cameraRotX == 0.0 && cameraRotY == 0.0 && cameraRotZ == 0.0
    {
      this.gl := gl;
      width, height := 0, 0;
      boxes := [];
      textures := map[];
      textureRepr := {};
      vertexShaderSource, fragmentShaderSource := "", "";
      assetsLoaded, glInited := false, false;
      program := 0;
      cameraPosX, cameraPosY, cameraPosZ := 0.0, 0.0, 0.0;
      cameraRotX, cameraRotY, cameraRotZ := 0.0, 0.0, 0.0;
    }

    /** addBox: a box already in the set is left alone; a new one joins it with a fresh BoxRenderer. */
    method AddBox(box: Boxes.Box)
      requires Valid()
      modifies this, box
      ensures Valid()
      ensures box in old(boxes) ==> boxes == old(boxes) && box.rendererHandle == old(box.rendererHandle)
      ensures box !in old(boxes) ==> (boxes == old(boxes) + [box]
        && box.rendererHandle != null && fresh(box.rendererHandle))
      ensures textures == old(textures) && assetsLoaded == old(assetsLoaded) && glInited == old(glInited)
      ensures cameraRotX == old(cameraRotX) && cameraRotY == old(cameraRotY) && cameraRotZ == old(cameraRotZ)
      ensures box.theColor == old(box.theColor) && box.State() == old(box.State())
      ensures box.physicsHandle == old(box.physicsHandle) && box.affectedByPhysics == old(box.affectedByPhysics)
    {
      if box !in boxes {
        Seqs.AppendDistinct(boxes, box);
        boxes := boxes + [box];
        var renderer := new BoxRenderer(box);
        box.rendererHandle := renderer;
      }
    }

    /** removeBox: an absent box is left alone; a present one leaves the set and loses its handle. */
    method RemoveBox(box: Boxes.Box)
      requires Valid()
      modifies this, box
      ensures Valid()
      ensures box !in old(boxes) ==> boxes == old(boxes) && box.rendererHandle == old(box.rendererHandle)
      ensures box in old(boxes) ==> boxes == Seqs.Without(old(boxes), box) && box.rendererHandle == null
      ensures box !in boxes
      ensures textures == old(textures) && assetsLoaded == old(assetsLoaded) && glInited == old(glInited)
      ensures cameraRotX == old(cameraRotX) && cameraRotY == old(cameraRotY) && cameraRotZ == old(cameraRotZ)
      ensures box.theColor == old(box.theColor) && box.State() == old(box.State())
      ensures box.physicsHandle == old(box.physicsHandle)
    {
      if box in boxes {
        Seqs.WithoutDistinct(boxes, box);
        boxes := Seqs.Without(boxes, box);
        box.rendererHandle := null;
      }
    }

    /**
     * preloadAssets: the first call stores the decoded textures (over any
     * with the same id) and the shader sources; later calls do nothing.
     */
    method PreloadAssets(decoded: map<int, Texture.GLTextureWrapper>, vertexSource: string, fragmentSource: string)
      requires Valid()
      modifies this
      ensures Valid() && assetsLoaded && boxes == old(boxes) && glInited == old(glInited)
      ensures old(assetsLoaded) ==> (textures == old(textures)
        && vertexShaderSource == old(vertexShaderSource) && fragmentShaderSource == old(fragmentShaderSource))
      ensures !old(assetsLoaded) ==> (textures == old(textures) + decoded
        && vertexShaderSource == vertexSource && fragmentShaderSource == fragmentSource)
      ensures cameraRotX == old(cameraRotX) && cameraRotY == old(cameraRotY) && cameraRotZ == old(cameraRotZ)
    {
      if !assetsLoaded {
        assetsLoaded := true;
        vertexShaderSource := vertexSource;
        fragmentShaderSource := fragmentSource;
        textures := textures + decoded;
        textureRepr := textureRepr + decoded.Values;
      }
    }

    /**
     * init: the first successful call loads every texture, then stores the
     * program the shader helpers built (`linked`) and sets glInited; if they
     * fail, the error escapes and glInited stays false.  Once glInited, it
     * does nothing.  Loading is idempotent, so textures already loaded by a
     * failed call issue no further GL calls.
     */
    method Init(linked: Result<int, string>) returns (r: Result<(), string>, ghost loaded: seq<Texture.GLTextureWrapper>)
      requires Valid()
      modifies this, gl, textureRepr
      ensures Valid() && boxes == old(boxes) && textures == old(textures) && assetsLoaded == old(assetsLoaded)
      ensures old(glInited) ==> r.Ok? && glInited && gl.calls == old(gl.calls) && program == old(program) && loaded == []
      ensures !old(glInited) ==> ((forall id :: id in textures ==> textures[id].loadedInGL)
        && (r.Ok? <==> linked.Ok?) && glInited == linked.Ok?
        && (linked.Ok? ==> program == linked.value))
      ensures (forall t :: t in old(textureRepr) ==> old(t.loadedInGL)) ==> gl.calls == old(gl.calls)
      ensures Seqs.Distinct(loaded)
      ensures forall t :: t in loaded ==> t in textures.Values && !old(t.loadedInGL)
      ensures !old(glInited) ==> forall id :: id in textures && !old(textures[id].loadedInGL) ==> textures[id] in loaded
      ensures forall k :: 0 <= k < |loaded| ==> loaded[k].id == old(gl.lastName) + k + 1
      ensures gl.lastName == old(gl.lastName) + |loaded|
      ensures gl.calls == old(gl.calls) + LoadsInOrder(loaded, old(gl.lastName))
      ensures cameraRotX == old(cameraRotX) && cameraRotY == old(cameraRotY) && cameraRotZ == old(cameraRotZ)
    {
      if glInited {
        return Ok(()), [];
      }
      loaded := LoadAll(gl, textures, textureRepr);
      if linked.Err? {
        r := Err(linked.error);
        return;
      }
      program := linked.value;
      glInited := true;
      r := Ok(());
    }

    method SetResolution(width: int, height: int)
      requires Valid()
      modifies this
      ensures Valid() && this.width == width && this.height == height
      ensures boxes == old(boxes) && textures == old(textures)
      ensures cameraRotX == old(cameraRotX) && cameraRotY == old(cameraRotY) && cameraRotZ == old(cameraRotZ)
    {
      this.width := width;
      this.height := height;
    }

    method SetCameraRotX(value: real)
      requires Valid()
      modifies this
      ensures Valid() && cameraRotX == Util.PitchOf(value)
      ensures cameraRotY == old(cameraRotY) && cameraRotZ == old(cameraRotZ) && boxes == old(boxes)
    {
      cameraRotX := Util.FMod360(Util.CoerceIn(value, -85.0, 85.0));
    }

    method SetCameraRotY(value: real)
      requires Valid()
      modifies this
      ensures Valid() && cameraRotY == Util.FMod360(value)
      ensures cameraRotX == old(cameraRotX) && cameraRotZ == old(cameraRotZ) && boxes == old(boxes)
    {
      cameraRotY := Util.FMod360(value);
    }

    method SetCameraRotZ(value: real)
      requires Valid()
      modifies this
      ensures Valid() && cameraRotZ == Util.FMod360(value)
      ensures cameraRotX == old(cameraRotX) && cameraRotY == old(cameraRotY) && boxes == old(boxes)
    {
      cameraRotZ := Util.FMod360(value);
    }

    /** The name `textures[id]?.bind` binds: only that of a loaded texture. */
    function BoundTexture(id: int): (r: Option<int>)
      requires TexturesTracked()
      reads this, textureRepr
      ensures r.Some? <==> id in textures && textures[id].loadedInGL
    {
      if id in textures && textures[id].loadedInGL then Some(textures[id].id) else None
    }

    function ViewOf(b: Boxes.Box): BoxView
      requires TexturesTracked()
      reads this, textureRepr, b
    {
      BoxView(b.theColor.a, BoundTexture(b.textureId))
    }

    /** What draw reads of the boxes `bs`, in set order. */
    function Views(bs: seq<Boxes.Box>): (r: seq<BoxView>)
      requires TexturesTracked()
      reads this, textureRepr, bs
      ensures |r| == |bs| && forall k :: 0 <= k < |bs| ==> r[k] == ViewOf(bs[k])
    {
      if bs == [] then []
      else Views(bs[..|bs| - 1]) + [ViewOf(bs[|bs| - 1])]
    }

    /** One box's block of draw. */
    method DrawBox(box: Boxes.Box)
      requires TexturesTracked()
      modifies gl
      ensures gl.calls == old(gl.calls) + BoxCalls(old(ViewOf(box)))
      ensures gl.lastName == old(gl.lastName)
    {
      if box.theColor.a < 1.0 {
        gl.Call(Enable(Blend));
      } else {
        gl.Call(Disable(Blend));
      }
      if box.textureId in textures {
        textures[box.textureId].Bind(gl);
      }
      gl.Call(UniformTexture(0));
      gl.Call(DrawArrays(0, VERTEX_COUNT));
    }

    /**
     * draw: culling and depth test on, the program in use, then one block
     * per box (the cast of its rendererHandle needs Valid()).
     */
    method Draw()
      requires TexturesTracked()
      modifies gl
      ensures gl.calls == old(gl.calls) + [Enable(CullFace), Enable(DepthTest), UseProgram(program)] + BoxesCalls(Views(boxes))
      ensures gl.lastName == old(gl.lastName)
    {
      gl.CallAll([Enable(CullFace), Enable(DepthTest), UseProgram(program)]);
      DrawBoxes();
    }

    /** The box loop of draw. */
    method DrawBoxes()
      requires TexturesTracked()
      modifies gl
      ensures gl.calls == old(gl.calls) + BoxesCalls(old(Views(boxes)))
      ensures gl.lastName == old(gl.lastName)
    {
      ghost var views := Views(boxes);
      var i := 0;
      while i < |boxes|
        invariant 0 <= i <= |boxes|
        invariant gl.calls == old(gl.calls) + BoxesCalls(views[..i])
        invariant gl.lastName == old(gl.lastName)
      {
        assert views[..i + 1][..i] == views[..i];
        DrawBox(boxes[i]);
        Seqs.AppendAssoc(old(gl.calls), BoxesCalls(views[..i]), BoxCalls(views[i]));
        i := i + 1;
      }
      assert views[..i] == views;
    }
  }

  /** draw issues exactly one cube draw per box. */
  lemma {:induction false} OneDrawPerBox(vs: seq<BoxView>)
    ensures DrawCount(BoxesCalls(vs)) == |vs|
  {
    if vs != [] {
      var n := |vs| - 1;
      OneDrawPerBox(vs[..n]);
      BoxCallsDrawOnce(vs[n]);
      DrawCountAppend(BoxesCalls(vs[..n]), BoxCalls(vs[n]));
    }
  }
}
