/** The integer logic of src/backend/mod.rs: the capability limits `GlConstants`
    keeps, the overflow-checked byte count of a pixel readback, the
    classification of the driver's error codes after `UseProgram`, and the
    order of the driver commands the frame operations issue. */
module GlBackend {
  import opened Wrappers

  /** `GLint` (i32), `GLuint` and `GLenum` (u32) of the `gl` bindings. */
  type GLint = x: int | -0x8000_0000 <= x < 0x8000_0000
  type GLuint = x: int | 0 <= x < 0x1_0000_0000
  type GLenum = GLuint

  /** One byte of RGBA8 pixel data. */
  type Byte = x: int | 0 <= x < 0x100

  /** Largest `usize` on a 64-bit target. */
  const USIZE_MAX: int := 0xFFFF_FFFF_FFFF_FFFF

  /** Largest `isize` on a 64-bit target: `Vec::<u8>::with_capacity` panics
      with a capacity overflow when asked for more bytes than this. */
  const ISIZE_MAX: int := 0x7FFF_FFFF_FFFF_FFFF

  /** The two error codes `update_program` distinguishes. */
  const NO_ERROR: GLenum := 0
  const INVALID_OPERATION: GLenum := 0x0502

  /** The capability limits `GlConstants::load` queries. */
  datatype Limit = MaxTextureSize | MaxRenderbufferSize | MaxFramebufferWidth | MaxFramebufferHeight

  /** What a `bug!` (or a failed `unwrap`) reports before the process aborts. */
  datatype Bug =
    | UnexpectedLimit(limit: Limit, value: int)
    | ScreenByteCount(width: GLuint, height: GLuint)
    | TextureByteCount(width: GLuint, height: GLuint)
    | CapacityOverflow(bytes: nat)
    | UnexpectedError(code: GLenum)
    | UnexpectedSecondError(code: GLenum)
    | SwapFailed

  /** A computation that either returns a value or aborts with a bug report. */
  datatype Run<T> = Returns(value: T) | Aborts(bug: Bug)

  /** `Result<(), ErrDontCare>`: the error carries no information. */
  datatype Status = Ok | Err

  /** `GlConstants { max_texture_size: (width, height) }`. */
  datatype GlConstants = GlConstants(maxTextureSize: (GLuint, GLuint))

  // ---------------------------------------------------------------------------
  // GlConstants::load

  /** `u32::try_from`: the value, when it is representable as a u32. */
  function TryFromU32(v: int): Option<GLuint>
  {
    if 0 <= v < 0x1_0000_0000 then Some(v) else None
  }

  /** The inner `get` of `GlConstants::load`, given what `GetIntegerv`
      answered: a negative limit is a bug, any other passes unchanged. */
  function GetLimit(limit: Limit, v: GLint): (r: Run<GLuint>)
    ensures r.Returns? <==> v >= 0
    ensures r.Returns? ==> r.value == v
    ensures r.Aborts? ==> r.bug == UnexpectedLimit(limit, v)
  {
    match TryFromU32(v)
    case Some(u) => Returns(u)
    case None => Aborts(UnexpectedLimit(limit, v))
  }

  function Min(a: GLuint, b: GLuint): GLuint
  {
    if a <= b then a else b
  }

  /** `GlConstants::load`, given the four answers of the driver in the order
      they are queried. The first negative answer aborts; otherwise each
      component of `max_texture_size` is the least of the texture,
      renderbuffer and matching framebuffer limits. */
  function Load(texture: GLint, renderbuffer: GLint, framebufferWidth: GLint, framebufferHeight: GLint)
    : (r: Run<GlConstants>)
    ensures r.Returns? <==> texture >= 0 && renderbuffer >= 0 && framebufferWidth >= 0 && framebufferHeight >= 0
    ensures r == Aborts(UnexpectedLimit(MaxTextureSize, texture)) <==> texture < 0
    ensures r == Aborts(UnexpectedLimit(MaxRenderbufferSize, renderbuffer)) <==> texture >= 0 && renderbuffer < 0
    ensures r == Aborts(UnexpectedLimit(MaxFramebufferWidth, framebufferWidth))
            <==> texture >= 0 && renderbuffer >= 0 && framebufferWidth < 0
    ensures r == Aborts(UnexpectedLimit(MaxFramebufferHeight, framebufferHeight))
            <==> texture >= 0 && renderbuffer >= 0 && framebufferWidth >= 0 && framebufferHeight < 0
    ensures r.Returns? ==>
              var (w, h) := r.value.maxTextureSize;
              && w <= texture && w <= renderbuffer && w <= framebufferWidth
              && (w == texture || w == renderbuffer || w == framebufferWidth)
              && h <= texture && h <= renderbuffer && h <= framebufferHeight
              && (h == texture || h == renderbuffer || h == framebufferHeight)
  {
    match GetLimit(MaxTextureSize, texture)
    case Aborts(b) => Aborts(b)
    case Returns(textureSize) =>
      match GetLimit(MaxRenderbufferSize, renderbuffer)
      case Aborts(b) => Aborts(b)
      case Returns(renderbufferSize) =>
        var size := Min(textureSize, renderbufferSize);
        match GetLimit(MaxFramebufferWidth, framebufferWidth)
        case Aborts(b) => Aborts(b)
        case Returns(width) =>
          match GetLimit(MaxFramebufferHeight, framebufferHeight)
          case Aborts(b) => Aborts(b)
          case Returns(height) => Returns(GlConstants((Min(size, width), Min(size, height))))
  }

  // ---------------------------------------------------------------------------
  // The readback byte count of take_screenshot and get_image_data

  /** `usize::checked_mul`. */
  function CheckedMul(a: nat, b: nat): Option<nat>
  {
    if a * b <= USIZE_MAX then Some(a * b) else None
  }

  /** `checked_mul(height, width).and_then(|p| p.checked_mul(4))`: the number
      of RGBA8 bytes of a width x height image, present exactly when it fits
      in a usize. */
  function ByteCount(width: GLuint, height: GLuint): (r: Option<nat>)
    ensures r.Some? <==> width * height * 4 <= USIZE_MAX
    ensures r.Some? ==> r.value == width * height * 4
  {
    match CheckedMul(height, width)
    case None => None
    case Some(p) => CheckedMul(p, 4)
  }

  /** On a 64-bit target the product of two u32 values always fits, so only
      the multiplication by 4 can overflow. */
  lemma PixelCountFits(width: GLuint, height: GLuint)
    ensures CheckedMul(height, width) == Some(height * width)
    ensures ByteCount(width, height) == CheckedMul(height * width, 4)
  {
    assert height * width <= 0xFFFF_FFFF * 0xFFFF_FFFF by {
      MulBounded(height, width, 0xFFFF_FFFF);
    }
  }

  lemma MulBounded(a: nat, b: nat, m: nat)
    requires a <= m && b <= m
    ensures a * b <= m * m
  {
    assert a * b <= m * b;
    assert m * b <= m * m;
  }

  /** The largest square whose byte count fits in a usize is 2^31 - 1 pixels
      wide; one pixel more on each side overflows the checked multiplications.
      (Reserving that many bytes still exceeds `ISIZE_MAX`, so a readback of
      such a square aborts later, at the allocation.) */
  lemma ByteCountLimit()
    ensures ByteCount(0x7FFF_FFFF, 0x7FFF_FFFF) == Some(0x7FFF_FFFF * 0x7FFF_FFFF * 4)
    ensures ByteCount(0x8000_0000, 0x8000_0000) == None
  {
  }

  // ---------------------------------------------------------------------------
  // update_program

  /** What `update_program` returns when it does not abort: `Ok(())` when the
      program was made current, `Err(ErrDontCare)` when the driver refused. */
  datatype ProgramBind = Bound | Refused

  /** How many `GetError` answers `update_program` reads. */
  function ErrorsRead(errors: nat -> GLenum): (n: nat)
    ensures 1 <= n <= 2
    ensures n == 2 <==> errors(0) == INVALID_OPERATION
  {
    if errors(0) == INVALID_OPERATION then 2 else 1
  }

  /** The classification in `update_program`, with `errors(i)` the answer of
      the i-th `GetError` after `UseProgram`. */
  function UseProgramOutcome(errors: nat -> GLenum): (r: Run<ProgramBind>)
    ensures r == Returns(Bound) <==> errors(0) == NO_ERROR
    ensures r == Returns(Refused) <==> errors(0) == INVALID_OPERATION && errors(1) == NO_ERROR
    ensures r.Aborts? <==> errors(0) != NO_ERROR && (errors(0) != INVALID_OPERATION || errors(1) != NO_ERROR)
    ensures r.Aborts? && errors(0) == INVALID_OPERATION ==> r.bug == UnexpectedSecondError(errors(1))
    ensures r.Aborts? && errors(0) != INVALID_OPERATION ==> r.bug == UnexpectedError(errors(0))
  {
    var first := errors(0);
    if first == NO_ERROR then Returns(Bound)
    else if first == INVALID_OPERATION then
      var second := errors(1);
      if second != NO_ERROR then Aborts(UnexpectedSecondError(second)) else Returns(Refused)
    else Aborts(UnexpectedError(first))
  }

  /** The outcome depends only on the answers actually read. */
  lemma UseProgramOutcomeReadsOnly(e1: nat -> GLenum, e2: nat -> GLenum)
    requires forall i: nat :: i < ErrorsRead(e1) ==> e1(i) == e2(i)
    ensures ErrorsRead(e1) == ErrorsRead(e2)
    ensures UseProgramOutcome(e1) == UseProgramOutcome(e2)
  {
    assert e1(0) == e2(0);
    if e1(0) == INVALID_OPERATION {
      assert e1(1) == e2(1);
    }
  }

  // ---------------------------------------------------------------------------
  // Driver commands

  /** An RGBA clear colour; each f32 component is an opaque tag. */
  datatype Rgba = Rgba(r: int, g: int, b: int, a: int)

  datatype ClearMask = ColorBufferBit | DepthBufferBit

  /** A texture as `get_image_data` sees it: its id and dimensions. */
  datatype RawTexture = RawTexture(id: GLuint, dimensions: (GLuint, GLuint))

  /** The entries of the driver command log. `UpdateFramebuffer` and
      `UpdateTexture` are requests to the binding cache, which decides on its
      own whether a driver bind is needed. */
  datatype Command =
    | UpdateFramebuffer(framebuffer: GLuint)
    | UpdateTexture(texture: GLuint)
    | SetClearColor(color: Rgba)
    | Clear(mask: ClearMask)
    | ReadPixels(width: GLuint, height: GLuint)
    | GetTexImage
    | SwapBuffers
    | UseProgram(program: GLuint)
    | GetError

  /** `count` consecutive `GetError` commands. */
  function GetErrors(count: nat): (s: seq<Command>)
    ensures |s| == count && forall i :: 0 <= i < count ==> s[i] == GetError
  {
    if count == 0 then [] else GetErrors(count - 1) + [GetError]
  }

  /** The backend: what the binding cache has bound, the capability limits
      loaded at start-up, and the log of commands issued so far. */
  class Backend {
    var boundFramebuffer: GLuint
    var boundTexture: GLuint
    var commands: seq<Command>
    const constants: GlConstants

    constructor (constants: GlConstants, framebuffer: GLuint, texture: GLuint)
      ensures this.constants == constants
      ensures boundFramebuffer == framebuffer && boundTexture == texture && commands == []
    {
      this.constants := constants;
      boundFramebuffer := framebuffer;
      boundTexture := texture;
      commands := [];
    }

    /** The part of `Backend::initialize` that this model keeps: the limits
        are loaded from the four `GetIntegerv` answers, which aborts on a
        negative one, and the backend starts with the given bindings and an
        empty command log. */
    static method Initialize(textureLimit: GLint, renderbufferLimit: GLint,
                             framebufferWidthLimit: GLint, framebufferHeightLimit: GLint,
                             framebuffer: GLuint, texture: GLuint)
      returns (r: Run<Backend>)
      ensures var loaded := Load(textureLimit, renderbufferLimit, framebufferWidthLimit, framebufferHeightLimit);
              && (r.Aborts? <==> loaded.Aborts?)
              && (r.Aborts? ==> r.bug == loaded.bug)
              && (r.Returns? ==>
                    && fresh(r.value) && r.value.constants == loaded.value
                    && r.value.boundFramebuffer == framebuffer && r.value.boundTexture == texture
                    && r.value.commands == [])
    {
      var loaded := Load(textureLimit, renderbufferLimit, framebufferWidthLimit, framebufferHeightLimit);
      if loaded.Aborts? {
        return Aborts(loaded.bug);
      }
      var backend := new Backend(loaded.value, framebuffer, texture);
      r := Returns(backend);
    }

    /** `self.state.update_framebuffer(id)`: afterwards `id` is bound. */
    method UpdateFramebufferBinding(id: GLuint)
      modifies this
      ensures boundFramebuffer == id && boundTexture == old(boundTexture)
      ensures commands == old(commands) + [UpdateFramebuffer(id)]
    {
      boundFramebuffer := id;
      commands := commands + [UpdateFramebuffer(id)];
    }

    /** `self.state.update_texture(id)`: afterwards `id` is bound. */
    method UpdateTextureBinding(id: GLuint)
      modifies this
      ensures boundTexture == id && boundFramebuffer == old(boundFramebuffer)
      ensures commands == old(commands) + [UpdateTexture(id)]
    {
      boundTexture := id;
      commands := commands + [UpdateTexture(id)];
    }

    /** `take_screenshot`: when the byte count fits in a usize and the buffer
        of that many bytes can be reserved, binds the default framebuffer,
        reads the pixels and returns exactly `width*height*4` bytes, those
        `pixels` stands for; otherwise aborts before touching the driver. */
    method TakeScreenshot(width: GLuint, height: GLuint, pixels: nat -> Byte) returns (r: Run<seq<Byte>>)
      modifies this
      ensures width * height * 4 > USIZE_MAX ==> r == Aborts(ScreenByteCount(width, height))
      ensures ISIZE_MAX < width * height * 4 <= USIZE_MAX ==> r == Aborts(CapacityOverflow(width * height * 4))
      ensures r.Aborts? ==> commands == old(commands) && boundFramebuffer == old(boundFramebuffer)
      ensures width * height * 4 <= ISIZE_MAX ==>
                && r.Returns? && |r.value| == width * height * 4
                && (forall i :: 0 <= i < |r.value| ==> r.value[i] == pixels(i))
                && commands == old(commands) + [UpdateFramebuffer(0), ReadPixels(width, height)]
                && boundFramebuffer == 0
      ensures boundTexture == old(boundTexture)
    {
      var byteCount := ByteCount(width, height);
      if byteCount.None? {
        return Aborts(ScreenByteCount(width, height));
      }
      if byteCount.value > ISIZE_MAX {
        return Aborts(CapacityOverflow(byteCount.value));
      }
      UpdateFramebufferBinding(0);
      commands := commands + [ReadPixels(width, height)];
      var data := seq(byteCount.value, i requires 0 <= i => pixels(i));
      r := Returns(data);
    }

    /** `get_image_data`: when the byte count of the texture fits in a usize
        and the buffer can be reserved, binds the texture, reads its image and
        returns exactly `width*height*4` bytes; otherwise aborts before
        touching the driver. */
    method GetImageData(texture: RawTexture, pixels: nat -> Byte) returns (r: Run<seq<Byte>>)
      modifies this
      ensures var (width, height) := texture.dimensions;
              width * height * 4 > USIZE_MAX ==> r == Aborts(TextureByteCount(width, height))
      ensures var (width, height) := texture.dimensions;
              ISIZE_MAX < width * height * 4 <= USIZE_MAX ==> r == Aborts(CapacityOverflow(width * height * 4))
      ensures r.Aborts? ==> commands == old(commands) && boundTexture == old(boundTexture)
      ensures var (width, height) := texture.dimensions;
              width * height * 4 <= ISIZE_MAX ==>
                && r.Returns? && |r.value| == width * height * 4
                && (forall i :: 0 <= i < |r.value| ==> r.value[i] == pixels(i))
                && commands == old(commands) + [UpdateTexture(texture.id), GetTexImage]
                && boundTexture == texture.id
      ensures boundFramebuffer == old(boundFramebuffer)
    {
      var (width, height) := texture.dimensions;
      var byteCount := ByteCount(width, height);
      if byteCount.None? {
        return Aborts(TextureByteCount(width, height));
      }
      if byteCount.value > ISIZE_MAX {
        return Aborts(CapacityOverflow(byteCount.value));
      }
      UpdateTextureBinding(texture.id);
      commands := commands + [GetTexImage];
      var data := seq(byteCount.value, i requires 0 <= i => pixels(i));
      r := Returns(data);
    }

    /** `clear_depth`: binds `framebuffer`, then clears its depth buffer. */
    method ClearDepth(framebuffer: GLuint) returns (status: Status)
      modifies this
      ensures status == Ok
      ensures boundFramebuffer == framebuffer && boundTexture == old(boundTexture)
      ensures commands == old(commands) + [UpdateFramebuffer(framebuffer), Clear(DepthBufferBit)]
    {
      UpdateFramebufferBinding(framebuffer);
      commands := commands + [Clear(DepthBufferBit)];
      status := Ok;
    }

    /** `clear_color`: binds `bufferId`, sets the clear colour, then clears
        the colour buffer. */
    method ClearColor(bufferId: GLuint, color: Rgba) returns (status: Status)
      modifies this
      ensures status == Ok
      ensures boundFramebuffer == bufferId && boundTexture == old(boundTexture)
      ensures commands == old(commands) + [UpdateFramebuffer(bufferId), SetClearColor(color), Clear(ColorBufferBit)]
    {
      UpdateFramebufferBinding(bufferId);
      commands := commands + [SetClearColor(color), Clear(ColorBufferBit)];
      status := Ok;
    }

    /** `finalize_frame`: swaps buffers (a failed swap aborts), then binds the
        default framebuffer and clears its depth; afterwards framebuffer 0 is
        bound. */
    method FinalizeFrame(swapSucceeds: bool) returns (r: Run<Status>)
      modifies this
      ensures !swapSucceeds ==>
                r == Aborts(SwapFailed) && commands == old(commands) + [SwapBuffers]
                && boundFramebuffer == old(boundFramebuffer)
      ensures swapSucceeds ==>
                && r == Returns(Ok)
                && commands == old(commands)
                   + [SwapBuffers, UpdateFramebuffer(0), UpdateFramebuffer(0), Clear(DepthBufferBit)]
                && boundFramebuffer == 0
      ensures boundTexture == old(boundTexture)
    {
      commands := commands + [SwapBuffers];
      if !swapSucceeds {
        return Aborts(SwapFailed);
      }
      UpdateFramebufferBinding(0);
      var status := ClearDepth(0);
      r := Returns(status);
    }

    /** `update_program`: issues `UseProgram`, then reads one error code, and
        a second one only after `INVALID_OPERATION`; the outcome is their
        classification. */
    method UpdateProgram(program: GLuint, errors: nat -> GLenum) returns (r: Run<ProgramBind>)
      modifies this
      ensures r == UseProgramOutcome(errors)
      ensures commands == old(commands) + [UseProgram(program)] + GetErrors(ErrorsRead(errors))
      ensures boundFramebuffer == old(boundFramebuffer) && boundTexture == old(boundTexture)
    {
      commands := commands + [UseProgram(program), GetError];
      var glError := errors(0);
      if glError == NO_ERROR {
        r := Returns(Bound);
      } else if glError == INVALID_OPERATION {
        commands := commands + [GetError];
        var otherError := errors(1);
        if otherError != NO_ERROR {
          r := Aborts(UnexpectedSecondError(otherError));
        } else {
          r := Returns(Refused);
        }
      } else {
        r := Aborts(UnexpectedError(glError));
      }
      assert GetErrors(2) == [GetError, GetError];
    }
  }
}
