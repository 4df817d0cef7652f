/**
 * The Nuklear GLES2 backend (NativeActivityTest/app/src/main/cpp/nk_gles2_impl.h):
 * device set-up and tear-down, the atlas upload, and the per-frame render
 * that converts Nuklear's command queue into one vertex and one index buffer
 * and draws it command by command.
 *
 * GL and Nuklear calls are recorded in `trace`.  Nuklear itself is outside
 * the model: its command queue is a sequence of opaque entries, and
 * nk_convert / nk_draw_foreach are the `convert` function the backend is
 * built with.  GL object names come from a counter standing for the driver.
 */
module NkGles {
  import opened Wrappers
  import Util

  datatype Cap = Blend | CullFace | DepthTest | ScissorTest
  datatype Target = ArrayBuffer | ElementArrayBuffer
  datatype ShaderKind = VertexShader | FragmentShader
  datatype TexParam = MinFilterLinear | MagFilterLinear
  datatype Scratch = Vertices | Elements
  datatype AntiAliasing = AntiAliasingOff | AntiAliasingOn

  /** A clip rectangle in Nuklear's top-left-origin coordinates. */
  datatype Rect = Rect(x: real, y: real, w: real, h: real)

  /** One entry of the draw list nk_convert builds. */
  datatype DrawCommand = DrawCommand(elemCount: nat, texture: int, clip: Rect)

  /** One entry of the Nuklear command queue (its contents belong to Nuklear). */
  datatype UiCommand = UiCommand(tag: nat)

  datatype ConvertConfig = ConvertConfig(
    circleSegmentCount: nat, curveSegmentCount: nat, arcSegmentCount: nat,
    globalAlpha: real, shapeAA: AntiAliasing, lineAA: AntiAliasing)

  /** What nk_convert returns: the draw list it wrote, and its status flags. */
  datatype Converted = Converted(commands: seq<DrawCommand>, status: int)

  /** The GL names the device owns. */
  datatype Device = Device(prog: int, vertShdr: int, fragShdr: int, fontTex: int, vbo: int, ebo: int)

  datatype Call =
    // Nuklear
    | NkInitDefault | NkFree | NkBufferInitDefault | NkBufferFree | NkFontAtlasClear
    | NkConvert(config: ConvertConfig) | NkClear
    // GL objects
    | CreateProgram(id: int) | CreateShader(kind: ShaderKind, id: int) | CompileShader(id: int)
    | AttachShader(prog: int, shader: int) | LinkProgram(prog: int)
    | GenBuffer(id: int) | GenTexture(id: int)
    | DetachShader(prog: int, shader: int) | DeleteShader(id: int) | DeleteProgram(id: int)
    | DeleteTexture(id: int) | DeleteBuffer(id: int)
    // GL state and drawing
    | BindTexture(id: int) | BindBuffer(target: Target, id: int) | TexParameter(param: TexParam)
    | TexImage2D(width: int, height: int)
    | Enable(cap: Cap) | Disable(cap: Cap) | UseProgram(id: int)
    | BufferData(target: Target, size: int) | BufferSubData(target: Target, size: int)
    | Scissor(x: int, y: int, w: int, h: int)
    | DrawElements(count: nat, byteOffset: nat)
    // the scratch buffers
    | Malloc(which: Scratch, size: int) | Free(which: Scratch)

  /** sizeof(nk_draw_index): indices are unsigned 16-bit (GL_UNSIGNED_SHORT). */
  const INDEX_BYTES := 2

  // ---------------------------------------------------------------------
  // Device set-up and tear-down

  /** The calls of nk_gles_device_create for the given names (both compiles and the link succeeded). */
  function CreateCalls(d: Device): seq<Call>
  {
    [NkBufferInitDefault, CreateProgram(d.prog),
     CreateShader(VertexShader, d.vertShdr), CreateShader(FragmentShader, d.fragShdr),
     CompileShader(d.vertShdr), CompileShader(d.fragShdr),
     AttachShader(d.prog, d.vertShdr), AttachShader(d.prog, d.fragShdr), LinkProgram(d.prog),
     GenBuffer(d.vbo), GenBuffer(d.ebo),
     BindTexture(0), BindBuffer(ArrayBuffer, 0), BindBuffer(ElementArrayBuffer, 0)]
  }

  /** The calls of nk_gles_device_upload_atlas. */
  function UploadCalls(d: Device, width: int, height: int): seq<Call>
  {
    [GenTexture(d.fontTex), BindTexture(d.fontTex),
     TexParameter(MinFilterLinear), TexParameter(MagFilterLinear), TexImage2D(width, height)]
  }

  /** The calls of nk_gles_device_destroy. */
  function DestroyCalls(d: Device): seq<Call>
  {
    [DetachShader(d.prog, d.vertShdr), DetachShader(d.prog, d.fragShdr),
     DeleteShader(d.vertShdr), DeleteShader(d.fragShdr), DeleteProgram(d.prog),
     DeleteTexture(d.fontTex), DeleteBuffer(d.vbo), DeleteBuffer(d.ebo), NkBufferFree]
  }

  datatype Resource = ProgramObject(id: int) | ShaderObject(id: int) | TextureObject(id: int)
                    | BufferObject(id: int) | CommandBuffer

  function CreatedBy(c: Call): set<Resource>
  {
    match c
    case NkBufferInitDefault => {CommandBuffer}
    case CreateProgram(id) => {ProgramObject(id)}
    case CreateShader(_, id) => {ShaderObject(id)}
    case GenBuffer(id) => {BufferObject(id)}
    case GenTexture(id) => {TextureObject(id)}
    case _ => {}
  }

  function DeletedBy(c: Call): set<Resource>
  {
    match c
    case NkBufferFree => {CommandBuffer}
    case DeleteProgram(id) => {ProgramObject(id)}
    case DeleteShader(id) => {ShaderObject(id)}
    case DeleteBuffer(id) => {BufferObject(id)}
    case DeleteTexture(id) => {TextureObject(id)}
    case _ => {}
  }

  /** The objects a device owns once created and its atlas uploaded. */
  function Owned(d: Device): set<Resource>
  {
    {CommandBuffer, ProgramObject(d.prog), ShaderObject(d.vertShdr), ShaderObject(d.fragShdr),
     BufferObject(d.vbo), BufferObject(d.ebo), TextureObject(d.fontTex)}
  }

  /** Every object create and the atlas upload make is one the device owns. */
  lemma AcquiredOwned(d: Device, width: int, height: int)
    ensures var cu := CreateCalls(d) + UploadCalls(d, width, height);
      forall i :: 0 <= i < |cu| ==> CreatedBy(cu[i]) <= Owned(d)
  {
  }

  /** Every object destroy deletes is one the device owns. */
  lemma ReleasedOwned(d: Device)
    ensures forall j :: 0 <= j < |DestroyCalls(d)| ==> DeletedBy(DestroyCalls(d)[j]) <= Owned(d)
  {
  }

  /**
   * Destroy releases everything create and the atlas upload acquired: each
   * owned object is both made by one of their calls and deleted by one of
   * destroy's.
   */
  lemma OwnedAcquiredAndReleased(d: Device, width: int, height: int, r: Resource)
    requires r in Owned(d)
    ensures var cu := CreateCalls(d) + UploadCalls(d, width, height);
      exists i :: 0 <= i < |cu| && r in CreatedBy(cu[i])
    ensures exists j :: 0 <= j < |DestroyCalls(d)| && r in DeletedBy(DestroyCalls(d)[j])
  {
    var cu := CreateCalls(d) + UploadCalls(d, width, height);
    var x := DestroyCalls(d);
    var (i, j) :=
      if r == CommandBuffer then (0, 8)
      else if r == ProgramObject(d.prog) then (1, 4)
      else if r == ShaderObject(d.vertShdr) then (2, 2)
      else if r == ShaderObject(d.fragShdr) then (3, 3)
      else if r == BufferObject(d.vbo) then (9, 6)
      else if r == BufferObject(d.ebo) then (10, 7)
      else (14, 5);
    assert r in CreatedBy(cu[i]);
    assert r in DeletedBy(x[j]);
  }

  /** Destroy detaches exactly the shaders create attached. */
  lemma DetachPairsAttach(d: Device)
    ensures forall p, s :: AttachShader(p, s) in CreateCalls(d) <==> DetachShader(p, s) in DestroyCalls(d)
  {
  }

  // ---------------------------------------------------------------------
  // Rendering

  /** The conversion configuration nk_gles_render fills in. */
  function RenderConfig(aa: AntiAliasing): (c: ConvertConfig)
    ensures c.circleSegmentCount == 44 && c.curveSegmentCount == 22 && c.arcSegmentCount == 22
    ensures c.globalAlpha == 1.0 && c.shapeAA == aa && c.lineAA == aa
  {
    ConvertConfig(44, 22, 22, 1.0, aa, aa)
  }

  /** display size over window size; the backend sets the display size to the window size. */
  function Scale(display: int, size: int): real
    requires size != 0
  {
    display as real / size as real
  }

  lemma ScaleIsOne(size: int)
    requires size != 0
    ensures Scale(size, size) == 1.0
  {
    var r := size as real;
    assert r != 0.0;
    assert r / r == 1.0;
  }

  /** The glScissor rectangle for a clip rectangle: Y is flipped to GL's bottom-left origin. */
  function ScissorFor(clip: Rect, height: int, sx: real, sy: real): Call
  {
    Scissor(Util.TruncReal(clip.x * sx),
            Util.TruncReal((height - Util.TruncReal(clip.y + clip.h)) as real * sy),
            Util.TruncReal(clip.w * sx),
            Util.TruncReal(clip.h * sy))
  }

  /** At scale 1 and whole-pixel clips, x, w and h pass through and y becomes height - (y + h). */
  lemma ScissorFlip(x: int, y: int, w: int, h: int, height: int)
    ensures ScissorFor(Rect(x as real, y as real, w as real, h as real), height, 1.0, 1.0)
      == Scissor(x, height - (y + h), w, h)
  {
    Util.TruncRealOfInt(x);
    Util.TruncRealOfInt(w);
    Util.TruncRealOfInt(h);
    Util.TruncRealOfInt(y + h);
    assert (y as real + h as real) == (y + h) as real;
    Util.TruncRealOfInt(height - (y + h));
  }

  /** The number of indices the given commands use. */
  function SumElems(cmds: seq<DrawCommand>): nat
  {
    if cmds == [] then 0 else SumElems(cmds[..|cmds| - 1]) + cmds[|cmds| - 1].elemCount
  }

  /** The calls the nk_draw_foreach loop issues: per non-empty command, texture, scissor, draw. */
  function LoopCalls(cmds: seq<DrawCommand>, height: int, sx: real, sy: real): seq<Call>
  {
    if cmds == [] then []
    else
      var init := cmds[..|cmds| - 1];
      var cmd := cmds[|cmds| - 1];
      LoopCalls(init, height, sx, sy)
      + (if cmd.elemCount == 0 then []
         else [BindTexture(cmd.texture), ScissorFor(cmd.clip, height, sx, sy),
               DrawElements(cmd.elemCount, INDEX_BYTES * SumElems(init))])
  }

  /** The commands that draw something, in order. */
  function NonEmpty(cmds: seq<DrawCommand>): seq<DrawCommand>
  {
    if cmds == [] then []
    else NonEmpty(cmds[..|cmds| - 1]) + (if cmds[|cmds| - 1].elemCount == 0 then [] else [cmds[|cmds| - 1]])
  }

  /** Every draw is of a non-empty command, at the index offset of all commands before it. */
  lemma {:induction false} LoopDrawsSound(cmds: seq<DrawCommand>, height: int, sx: real, sy: real)
    ensures forall c :: c in LoopCalls(cmds, height, sx, sy) && c.DrawElements? ==>
      exists i :: 0 <= i < |cmds| && cmds[i].elemCount > 0
                  && c == DrawElements(cmds[i].elemCount, INDEX_BYTES * SumElems(cmds[..i]))
  {
    if cmds != [] {
      var n := |cmds| - 1;
      var init := cmds[..n];
      LoopDrawsSound(init, height, sx, sy);
      forall c | c in LoopCalls(cmds, height, sx, sy) && c.DrawElements?
        ensures exists i :: 0 <= i < |cmds| && cmds[i].elemCount > 0
                  && c == DrawElements(cmds[i].elemCount, INDEX_BYTES * SumElems(cmds[..i]))
      {
        if c in LoopCalls(init, height, sx, sy) {
          var i :| 0 <= i < n && init[i].elemCount > 0
                   && c == DrawElements(init[i].elemCount, INDEX_BYTES * SumElems(init[..i]));
          assert cmds[..i] == init[..i];
        } else {
          assert cmds[..n] == init;
        }
      }
    }
  }

  /** Every non-empty command is drawn, at the index offset of all commands before it. */
  lemma {:induction false} LoopDrawsComplete(cmds: seq<DrawCommand>, height: int, sx: real, sy: real)
    ensures forall i :: 0 <= i < |cmds| && cmds[i].elemCount > 0 ==>
      DrawElements(cmds[i].elemCount, INDEX_BYTES * SumElems(cmds[..i])) in LoopCalls(cmds, height, sx, sy)
  {
    if cmds != [] {
      var n := |cmds| - 1;
      var init := cmds[..n];
      var before, all := LoopCalls(init, height, sx, sy), LoopCalls(cmds, height, sx, sy);
      LoopDrawsComplete(init, height, sx, sy);
      assert all[..|before|] == before;
      forall i | 0 <= i < |cmds| && cmds[i].elemCount > 0
        ensures DrawElements(cmds[i].elemCount, INDEX_BYTES * SumElems(cmds[..i])) in all
      {
        if i < n {
          assert cmds[..i] == init[..i] && cmds[i] == init[i];
          var c := DrawElements(cmds[i].elemCount, INDEX_BYTES * SumElems(cmds[..i]));
          var k :| 0 <= k < |before| && before[k] == c;
          assert all[k] == c;
        } else {
          assert all[|all| - 1] == DrawElements(cmds[i].elemCount, INDEX_BYTES * SumElems(init));
        }
      }
    }
  }

  /** Beside the draws the loop only binds textures and sets scissors: three calls per non-empty command. */
  lemma {:induction false} LoopCallsShape(cmds: seq<DrawCommand>, height: int, sx: real, sy: real)
    ensures forall c :: c in LoopCalls(cmds, height, sx, sy) ==> c.DrawElements? || c.BindTexture? || c.Scissor?
    ensures |LoopCalls(cmds, height, sx, sy)| == 3 * |NonEmpty(cmds)|
  {
    if cmds != [] {
      LoopCallsShape(cmds[..|cmds| - 1], height, sx, sy);
    }
  }

  /** An empty command adds nothing to the loop, wherever it stands. */
  lemma EmptyCommandSkipped(cmds: seq<DrawCommand>, c: DrawCommand, height: int, sx: real, sy: real)
    requires c.elemCount == 0
    ensures LoopCalls(cmds + [c], height, sx, sy) == LoopCalls(cmds, height, sx, sy)
  {
    assert (cmds + [c])[..|cmds|] == cmds;
  }

  /** The calls before the draw loop: global state, program, buffers, scratch copy via nk_convert. */
  function SetupCalls(d: Device, aa: AntiAliasing, maxVertexBuffer: int, maxElementBuffer: int): seq<Call>
  {
    [Enable(Blend), Disable(CullFace), Disable(DepthTest), Enable(ScissorTest),
     UseProgram(d.prog),
     BindBuffer(ArrayBuffer, d.vbo), BindBuffer(ElementArrayBuffer, d.ebo),
     BufferData(ArrayBuffer, maxVertexBuffer), BufferData(ElementArrayBuffer, maxElementBuffer),
     Malloc(Vertices, maxVertexBuffer), Malloc(Elements, maxElementBuffer),
     NkConvert(RenderConfig(aa)),
     BufferSubData(ArrayBuffer, maxVertexBuffer), BufferSubData(ElementArrayBuffer, maxElementBuffer),
     Free(Vertices), Free(Elements)]
  }

  /** The calls after the draw loop: the queue is cleared and GL state restored. */
  function TeardownCalls(): seq<Call>
  {
    [NkClear, UseProgram(0), BindBuffer(ArrayBuffer, 0), BindBuffer(ElementArrayBuffer, 0),
     Disable(Blend), Disable(ScissorTest)]
  }

  /** The whole trace of one nk_gles_render. */
  function RenderCalls(d: Device, aa: AntiAliasing, maxV: int, maxE: int,
                       cmds: seq<DrawCommand>, height: int, sx: real, sy: real): seq<Call>
  {
    SetupCalls(d, aa, maxV, maxE) + LoopCalls(cmds, height, sx, sy) + TeardownCalls()
  }

  /** Each scratch buffer is allocated at its maximum size and freed again after it. */
  lemma ScratchAllocatedThenFreed(d: Device, aa: AntiAliasing, maxV: int, maxE: int,
                                  cmds: seq<DrawCommand>, height: int, sx: real, sy: real)
    ensures var t := RenderCalls(d, aa, maxV, maxE, cmds, height, sx, sy);
      exists k, m :: 0 <= k < m < |t| && t[k] == Malloc(Vertices, maxV) && t[m] == Free(Vertices)
    ensures var t := RenderCalls(d, aa, maxV, maxE, cmds, height, sx, sy);
      exists k, m :: 0 <= k < m < |t| && t[k] == Malloc(Elements, maxE) && t[m] == Free(Elements)
  {
    var t := RenderCalls(d, aa, maxV, maxE, cmds, height, sx, sy);
    assert t[9] == Malloc(Vertices, maxV) && t[14] == Free(Vertices);
    assert t[10] == Malloc(Elements, maxE) && t[15] == Free(Elements);
  }

  /** The draws of one render come after both scratch buffers are freed and before the queue is cleared. */
  lemma ScratchFreedBeforeDraws(d: Device, aa: AntiAliasing, maxV: int, maxE: int,
                                cmds: seq<DrawCommand>, height: int, sx: real, sy: real)
    ensures var t := RenderCalls(d, aa, maxV, maxE, cmds, height, sx, sy);
      forall k, m :: 0 <= k < |t| && 0 <= m < |t| && t[k].Free? && t[m].DrawElements? ==> k < m
    ensures var t := RenderCalls(d, aa, maxV, maxE, cmds, height, sx, sy);
      forall m :: 0 <= m < |t| && t[m].DrawElements? ==> t[|t| - 6] == NkClear && m < |t| - 6
  {
    var l := LoopCalls(cmds, height, sx, sy);
    var t := RenderCalls(d, aa, maxV, maxE, cmds, height, sx, sy);
    LoopCallsShape(cmds, height, sx, sy);
    forall k | 16 <= k < 16 + |l| ensures !t[k].Free? {
      assert t[k] == l[k - 16] && l[k - 16] in l;
    }
    forall m | 0 <= m < |t| && t[m].DrawElements? ensures 16 <= m < 16 + |l| {
    }
  }

  class NkGles {
    /** nk_convert followed by nk_draw_foreach: the draw list for a queue and configuration. */
    const convert: (seq<UiCommand>, ConvertConfig) -> Converted
    var dev: Device
    var queue: seq<UiCommand>   // gles.ctx's command queue
    var trace: seq<Call>
    var lastName: nat           // the driver's most recently issued name

    constructor (convert: (seq<UiCommand>, ConvertConfig) -> Converted)
      ensures this.convert == convert && queue == [] && trace == [] && lastName == 0
      ensures dev == Device(0, 0, 0, 0, 0, 0)
    {
      this.convert := convert;
      dev := Device(0, 0, 0, 0, 0, 0);
      queue := [];
      trace := [];
      lastName := 0;
    }

    method NewName() returns (id: int)
      modifies this
      ensures id == lastName && lastName == old(lastName) + 1
      ensures dev == old(dev) && queue == old(queue) && trace == old(trace)
    {
      lastName := lastName + 1;
      id := lastName;
    }

    /**
     * nk_gles_device_create.  The three assert(status == GL_TRUE) checks
     * abort unless both shaders compile and the program links.
     */
    method DeviceCreate(vertCompiles: bool, fragCompiles: bool, links: bool) returns (r: Result<(), string>)
      modifies this
      ensures queue == old(queue) && lastName >= old(lastName)
      ensures r.Ok? <==> vertCompiles && fragCompiles && links
      ensures r.Ok? ==> trace == old(trace) + CreateCalls(dev) && dev.fontTex == old(dev.fontTex)
      ensures r.Ok? ==> old(lastName) < dev.prog < dev.vertShdr < dev.fragShdr < dev.vbo < dev.ebo == lastName
    {
      // the calls are collected and appended to the trace on each way out
      var calls := [NkBufferInitDefault];
      var prog := NewName();
      dev := dev.(prog := prog);
      calls := calls + [CreateProgram(prog)];
      var vs := NewName();
      dev := dev.(vertShdr := vs);
      calls := calls + [CreateShader(VertexShader, vs)];
      var fs := NewName();
      dev := dev.(fragShdr := fs);
      calls := calls + [CreateShader(FragmentShader, fs), CompileShader(vs), CompileShader(fs)];
      if !vertCompiles || !fragCompiles {
        trace := trace + calls;
        return Err("shader compilation failed");
      }
      calls := calls + [AttachShader(prog, vs), AttachShader(prog, fs), LinkProgram(prog)];
      if !links {
        trace := trace + calls;
        return Err("program link failed");
      }
      var vbo := NewName();
      var ebo := NewName();
      dev := dev.(vbo := vbo, ebo := ebo);
      calls := calls + [GenBuffer(vbo), GenBuffer(ebo),
                        BindTexture(0), BindBuffer(ArrayBuffer, 0), BindBuffer(ElementArrayBuffer, 0)];
      trace := trace + calls;
      r := Ok(());
    }

    /** nk_gles_device_upload_atlas: a fresh texture holding the baked font atlas. */
    method UploadAtlas(width: int, height: int)
      modifies this
      ensures queue == old(queue) && lastName == old(lastName) + 1
      ensures dev == old(dev).(fontTex := lastName)
      ensures trace == old(trace) + UploadCalls(dev, width, height)
    {
      var tex := NewName();
      dev := dev.(fontTex := tex);
      trace := trace + [GenTexture(tex), BindTexture(tex),
                        TexParameter(MinFilterLinear), TexParameter(MagFilterLinear), TexImage2D(width, height)];
    }

    /** nk_gles_device_destroy. */
    method DeviceDestroy()
      modifies this
      ensures dev == old(dev) && queue == old(queue) && lastName == old(lastName)
      ensures trace == old(trace) + DestroyCalls(dev)
    {
      trace := trace + [DetachShader(dev.prog, dev.vertShdr), DetachShader(dev.prog, dev.fragShdr),
                        DeleteShader(dev.vertShdr), DeleteShader(dev.fragShdr), DeleteProgram(dev.prog),
                        DeleteTexture(dev.fontTex), DeleteBuffer(dev.vbo), DeleteBuffer(dev.ebo), NkBufferFree];
    }

    /** nk_gles_init: a fresh Nuklear context, then the device. */
    method Init(vertCompiles: bool, fragCompiles: bool, links: bool) returns (r: Result<(), string>)
      modifies this
      ensures queue == [] && (r.Ok? <==> vertCompiles && fragCompiles && links)
      ensures r.Ok? ==> trace == old(trace) + [NkInitDefault] + CreateCalls(dev)
    {
      queue := [];
      trace := trace + [NkInitDefault];
      r := DeviceCreate(vertCompiles, fragCompiles, links);
    }

    /** nk_gles_font_stash_end: upload the baked atlas (of the given size). */
    method FontStashEnd(width: int, height: int)
      modifies this
      ensures queue == old(queue) && dev == old(dev).(fontTex := lastName)
      ensures trace == old(trace) + UploadCalls(dev, width, height)
    {
      UploadAtlas(width, height);
    }

    /** nk_gles_shutdown: free atlas and context, destroy the device, zero all state. */
    method Shutdown()
      modifies this
      ensures trace == old(trace) + [NkFontAtlasClear, NkFree] + DestroyCalls(old(dev))
      ensures dev == Device(0, 0, 0, 0, 0, 0) && queue == []
    {
      trace := trace + [NkFontAtlasClear, NkFree];
      DeviceDestroy();
      dev := Device(0, 0, 0, 0, 0, 0);
      queue := [];
    }

    /**
     * nk_gles_render: set up GL state, convert the queue through scratch
     * buffers of exactly the maximum sizes (the status nk_convert returns is
     * ignored), draw each non-empty command at its running index offset,
     * clear the queue and restore GL state.
     */
    method Render(aa: AntiAliasing, maxVertexBuffer: int, maxElementBuffer: int, width: int, height: int)
      requires width != 0 && height != 0
      modifies this
      ensures dev == old(dev) && lastName == old(lastName) && queue == []
      ensures trace == old(trace) + RenderCalls(dev, aa, maxVertexBuffer, maxElementBuffer,
        convert(old(queue), RenderConfig(aa)).commands, height, Scale(width, width), Scale(height, height))
    {
      var displayWidth, displayHeight := width, height;
      var sx := displayWidth as real / width as real;
      var sy := displayHeight as real / height as real;
      trace := trace + [Enable(Blend), Disable(CullFace), Disable(DepthTest), Enable(ScissorTest),
                        UseProgram(dev.prog),
                        BindBuffer(ArrayBuffer, dev.vbo), BindBuffer(ElementArrayBuffer, dev.ebo),
                        BufferData(ArrayBuffer, maxVertexBuffer), BufferData(ElementArrayBuffer, maxElementBuffer),
                        Malloc(Vertices, maxVertexBuffer), Malloc(Elements, maxElementBuffer)];
      var config := ConvertConfig(44, 22, 22, 1.0, aa, aa);
      trace := trace + [NkConvert(config)];
      var converted := convert(queue, config);
      trace := trace + [BufferSubData(ArrayBuffer, maxVertexBuffer), BufferSubData(ElementArrayBuffer, maxElementBuffer),
                        Free(Vertices), Free(Elements)];
      DrawCommands(converted.commands, height, sx, sy);
      trace := trace + [NkClear];
      queue := [];
      trace := trace + [UseProgram(0), BindBuffer(ArrayBuffer, 0), BindBuffer(ElementArrayBuffer, 0),
                        Disable(Blend), Disable(ScissorTest)];
    }

    /** The nk_draw_foreach loop: `offset` counts the indices of the commands already visited. */
    method DrawCommands(cmds: seq<DrawCommand>, height: int, sx: real, sy: real)
      modifies this
      ensures dev == old(dev) && lastName == old(lastName) && queue == old(queue)
      ensures trace == old(trace) + LoopCalls(cmds, height, sx, sy)
    {
      var offset: nat := 0;
      var i := 0;
      while i < |cmds|
        invariant 0 <= i <= |cmds| && offset == SumElems(cmds[..i])
        invariant dev == old(dev) && lastName == old(lastName) && queue == old(queue)
        invariant trace == old(trace) + LoopCalls(cmds[..i], height, sx, sy)
      {
        var cmd := cmds[i];
        assert cmds[..i + 1][..i] == cmds[..i];
        if cmd.elemCount != 0 {
          trace := trace + [BindTexture(cmd.texture), ScissorFor(cmd.clip, height, sx, sy),
                            DrawElements(cmd.elemCount, INDEX_BYTES * offset)];
        }
        offset := offset + cmd.elemCount;
        i := i + 1;
      }
      assert cmds[..i] == cmds;
    }
  }
}
