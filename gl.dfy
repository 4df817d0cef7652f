/**
 * The Android GL interface (NativeActivityTest/app/src/main/java/io/snower/
 * game/client/GLInterface.kt) as far as the texture wrapper and the world
 * renderer use it: every call is appended to `calls`, and object names come
 * from a counter standing for the driver.
 */
module GlContext {
  newtype byte = x: int | 0 <= x < 256

  datatype Cap = Blend | CullFace | DepthTest
  datatype TexParam = MinFilter | MagFilter | WrapS | WrapT

  /** GL_LINEAR_MIPMAP_LINEAR, GL_LINEAR and GL_REPEAT. */
  const GL_LINEAR_MIPMAP_LINEAR := 0x2703
  const GL_LINEAR := 0x2601
  const GL_REPEAT := 0x2901

  datatype GlCall =
    | GenTexture(id: int) | BindTexture(id: int) | PixelStoreUnpackAlignment(alignment: int)
    | TexParameter(param: TexParam, value: int) | TexImage2D(width: int, height: int, data: seq<byte>)
    | GenerateMipmap | DeleteTexture(id: int)
    | Enable(cap: Cap) | Disable(cap: Cap)
    | UseProgram(prog: int) | UniformTexture(unit: int) | DrawArrays(first: int, count: int)

  class Gl {
    var calls: seq<GlCall>
    var lastName: nat

    constructor ()
      ensures calls == [] && lastName == 0
    {
      calls := [];
      lastName := 0;
    }

    method Call(c: GlCall)
      modifies this
      ensures calls == old(calls) + [c] && lastName == old(lastName)
    {
      calls := calls + [c];
    }

    method CallAll(cs: seq<GlCall>)
      modifies this
      ensures calls == old(calls) + cs && lastName == old(lastName)
    {
      calls := calls + cs;
    }

    /** A fresh, non-zero object name. */
    method NewName() returns (id: int)
      modifies this
      ensures id == lastName == old(lastName) + 1 && calls == old(calls)
    {
      lastName := lastName + 1;
      id := lastName;
    }
  }
}
