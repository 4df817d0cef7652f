/**
 * GLTextureWrapper (NativeActivityTest/app/src/main/java/io/snower/game/
 * client/GLTextureWrapper.kt): RGBA pixels decoded from a PNG, loaded into
 * GL at most once at a time, bound only while loaded, and unloaded again.
 * The PNG decoder is outside the model: its output is a parameter.
 */
module Texture {
  import opened Wrappers
  import opened GlContext

  const BYTES_PER_PIXEL := 4

  /** The bytes createFromPNGInputStream allocates for the pixels. */
  function BufferSize(width: nat, height: nat): (n: nat)
    ensures n == BYTES_PER_PIXEL * width * height
    ensures n / BYTES_PER_PIXEL == width * height && n % BYTES_PER_PIXEL == 0
  {
    BYTES_PER_PIXEL * width * height
  }

  /** The calls load makes for a fresh name `id`: bind, then configure, then upload. */
  function LoadCalls(id: int, width: int, height: int, buffer: seq<byte>, filter: int, wrap: int): seq<GlCall>
  {
    [GenTexture(id), BindTexture(id), PixelStoreUnpackAlignment(1),
     TexParameter(MinFilter, filter), TexParameter(MagFilter, filter),
     TexParameter(WrapS, wrap), TexParameter(WrapT, wrap),
     TexImage2D(width, height, buffer), GenerateMipmap]
  }

  /**
   * A load generates the name, binds it before any upload, uploads the
   * stored size and pixels, and sets the filter on min and mag and the wrap
   * on S and T.
   */
  lemma LoadOrder(id: int, width: int, height: int, buffer: seq<byte>, filter: int, wrap: int)
    ensures var cs := LoadCalls(id, width, height, buffer, filter, wrap);
      cs[0] == GenTexture(id) && cs[1] == BindTexture(id)
      && (forall k :: 0 <= k < |cs| && cs[k].TexImage2D? ==> k > 1 && cs[k] == TexImage2D(width, height, buffer))
      && TexImage2D(width, height, buffer) in cs
      && (forall p: TexParam :: TexParameter(p, if p.MinFilter? || p.MagFilter? then filter else wrap) in cs)
  {
    var cs := LoadCalls(id, width, height, buffer, filter, wrap);
    forall p: TexParam ensures TexParameter(p, if p.MinFilter? || p.MagFilter? then filter else wrap) in cs {
      match p
      case MinFilter => assert cs[3] == TexParameter(p, filter);
      case MagFilter => assert cs[4] == TexParameter(p, filter);
      case WrapS => assert cs[5] == TexParameter(p, wrap);
      case WrapT => assert cs[6] == TexParameter(p, wrap);
    }
  }

  class GLTextureWrapper {
    const buffer: seq<byte>
    const capacity: nat
    const width: nat
    const height: nat
    var loadedInGL: bool
    var id: int

    constructor (buffer: seq<byte>, capacity: nat, width: nat, height: nat)
      ensures this.buffer == buffer && this.capacity == capacity
      ensures this.width == width && this.height == height
      ensures !loadedInGL && id == 0
    {
      this.buffer := buffer;
      this.capacity := capacity;
      this.width := width;
      this.height := height;
      loadedInGL := false;
      id := 0;
    }

    /** load: nothing while loaded; otherwise a fresh name, bound and uploaded. */
    method Load(gl: Gl, filter: int := GL_LINEAR_MIPMAP_LINEAR, wrap: int := GL_REPEAT)
      modifies this, gl
      ensures loadedInGL
      ensures old(loadedInGL) ==> id == old(id) && gl.calls == old(gl.calls) && gl.lastName == old(gl.lastName)
      ensures !old(loadedInGL) ==> (id == gl.lastName && gl.lastName == old(gl.lastName) + 1
        && gl.calls == old(gl.calls) + LoadCalls(id, width, height, buffer, filter, wrap))
    {
      if loadedInGL {
        return;
      }
      loadedInGL := true;
      id := gl.NewName();
      gl.Call(GenTexture(id));
      Bind(gl);
      gl.Call(PixelStoreUnpackAlignment(1));
      gl.Call(TexParameter(MinFilter, filter));
      gl.Call(TexParameter(MagFilter, filter));
      gl.Call(TexParameter(WrapS, wrap));
      gl.Call(TexParameter(WrapT, wrap));
      gl.Call(TexImage2D(width, height, buffer));
      gl.Call(GenerateMipmap);
    }

    /** bind: no call unless loaded. */
    method Bind(gl: Gl)
      modifies gl
      ensures gl.lastName == old(gl.lastName)
      ensures gl.calls == old(gl.calls) + (if loadedInGL then [BindTexture(id)] else [])
    {
      if !loadedInGL {
        return;
      }
      gl.Call(BindTexture(id));
    }

    /** unload: nothing unless loaded; otherwise delete the current name. */
    method Unload(gl: Gl)
      modifies this, gl
      ensures !loadedInGL && id == old(id) && gl.lastName == old(gl.lastName)
      ensures gl.calls == old(gl.calls) + (if old(loadedInGL) then [DeleteTexture(old(id))] else [])
    {
      if !loadedInGL {
        return;
      }
      gl.Call(DeleteTexture(id));
      loadedInGL := false;
    }
  }

  /**
   * createFromPNGInputStream: a buffer of 4 * width * height bytes that the
   * decoder fills with `decoded`, one row of 4 * width bytes at a time; the
   * flip leaves exactly the decoded bytes readable.  Decoded data larger
   * than the buffer overflows it, an error.
   */
  method CreateFromPng(width: nat, height: nat, decoded: seq<byte>) returns (r: Result<GLTextureWrapper, string>)
    ensures r.Ok? <==> |decoded| <= BufferSize(width, height)
    ensures r.Ok? ==> (fresh(r.value) && r.value.capacity == BufferSize(width, height)
      && r.value.buffer == decoded && r.value.width == width && r.value.height == height
      && !r.value.loadedInGL)
  {
    var capacity := BYTES_PER_PIXEL * width * height;
    if |decoded| > capacity {
      return Err("BufferOverflowException");
    }
    var wrapper := new GLTextureWrapper(decoded, capacity, width, height);
    r := Ok(wrapper);
  }
}
