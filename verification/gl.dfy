/** The OpenGL calls the renderer issues, as values. Drawing and loading code
    is modelled as a function producing the sequence of calls it would issue,
    in order; the driver that executes them is not modelled. Object names
    (texture, vertex array ids) are plain naturals, 0 meaning "none". */
module GL {
  import opened Base

  /** `glDepthFunc` comparison modes used by the renderer. */
  datatype DepthFunc = Less | LessEqual

  /** Client-side pixel layouts for uploads (`GL_RED`, `GL_RGB`, `GL_RGBA`). */
  datatype PixelFormat = Red | Rgb | Rgba

  /** Sized storage formats (`GL_R8`, `GL_RGB4`, `GL_RGBA4`, `GL_RGB8`). */
  datatype InternalFormat = R8 | Rgb4 | Rgba4 | Rgb8

  datatype Call =
    | BindTextureUnit(unit: nat, texture: nat)
    | BindVertexArray(vao: nat)
      /** `glDrawElements(GL_TRIANGLES, count, GL_UNSIGNED_INT, 0)` */
    | DrawElements(count: nat)
      /** `glDrawArrays(GL_TRIANGLES, first, count)` */
    | DrawArrays(first: nat, count: nat)
      /** `Shader::setSampler(name, unit)` on the shader handed to the caller */
    | SetSampler(name: string, value: int)
    | SetDepthFunc(func: DepthFunc)
      /** `glTextureStorage2D`; `None` stands for a format variable the
          source leaves uninitialised. */
    | TextureStorage2D(texture: nat, levels: nat, internalFormat: Option<InternalFormat>, width: int, height: int)
      /** `glTextureSubImage2D` of mip level `level` from unsigned bytes. */
    | TextureSubImage2D(texture: nat, level: nat, width: int, height: int, format: Option<PixelFormat>)
      /** `glTextureSubImage3D` of one layer (cube face), `GL_RGB` bytes. */
    | TextureSubImage3D(texture: nat, level: nat, layer: nat, width: int, height: int)
    | GenerateTextureMipmap(texture: nat)
    | ClearColor(r: real, g: real, b: real, a: real)
      /** `glClear` of the colour and depth buffers of the bound framebuffer. */
    | ClearColorAndDepth
      /** A line written to the console. */
    | Log(message: string)

  /** `GLuint` is 32 bits: a signed `GLint` or `int` handed to it is
      converted modulo 2^32. */
  const UintRange: nat := 0x1_0000_0000

  function ToUnsigned(x: int): (u: nat)
    ensures u < UintRange
    ensures 0 <= x < UintRange ==> u == x
    ensures x < 0 && -x <= UintRange ==> u == x + UintRange
  {
    x % UintRange
  }

  predicate IsLog(c: Call)
  {
    c.Log?
  }

  /** The calls of a trace that allocate or fill texture storage. */
  predicate IsTextureWrite(c: Call)
  {
    c.TextureStorage2D? || c.TextureSubImage2D? || c.TextureSubImage3D? || c.GenerateTextureMipmap?
  }
}
