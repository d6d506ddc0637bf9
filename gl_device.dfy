/**
 * A fake OpenGL ES 2.0 device standing in for `GL20`: the names it has handed
 * out and not deleted, the current framebuffer, renderbuffer and texture
 * bindings, what each framebuffer has attached, the viewport, and the clears
 * issued. Completeness is answered by `verdict`, an oracle on the bound
 * framebuffer's attachments (and the storage of its renderbuffers); a name
 * the device never handed out, such as 0, is the window-system framebuffer,
 * which is always complete. When `outOfNames` holds every `glGen*` returns 0.
 * The colour-texture hooks of the framebuffer subclasses (`createTexture`,
 * `disposeColorTexture`, `attachFrameBufferColorTexture`) are device
 * operations here: allocate, release and attach a texture name.
 */
module GLDevice {
  import opened FrameBufferSpecs

  const GL_FRAMEBUFFER_COMPLETE: int := 0x8CD5
  const GL_FRAMEBUFFER_INCOMPLETE_ATTACHMENT: int := 0x8CD6
  const GL_FRAMEBUFFER_INCOMPLETE_MISSING_ATTACHMENT: int := 0x8CD7
  const GL_FRAMEBUFFER_INCOMPLETE_DIMENSIONS: int := 0x8CD9
  const GL_FRAMEBUFFER_UNSUPPORTED: int := 0x8CDD

  const GL_COLOR_BUFFER_BIT: bv32 := 0x4000
  const GL_DEPTH_BUFFER_BIT: bv32 := 0x0100
  const GL_STENCIL_BUFFER_BIT: bv32 := 0x0400

  const GL_DEPTH24_STENCIL8_OES: int := 0x88F0

  /** What a framebuffer attachment point holds. */
  datatype Attachment = NoAttachment | TextureAt(texture: int) | RenderbufferAt(renderbuffer: int)

  /** The colour, depth and stencil attachment points of one framebuffer. */
  datatype FboConfig = FboConfig(color: Attachment, depth: Attachment, stencil: Attachment)

  /** The storage `glRenderbufferStorage` gave a renderbuffer. */
  datatype Storage = Storage(internalFormat: int, width: int, height: int)

  datatype AttachPoint = DepthPoint | StencilPoint

  datatype Rect = Rect(x: int, y: int, width: int, height: int)

  const EmptyConfig := FboConfig(NoAttachment, NoAttachment, NoAttachment)

  /**
   * The device. Names come from one counter; every name handed out is
   * positive and below `nextName`, and every live framebuffer has an
   * attachment record.
   */
  class Device {
    const verdict: (FboConfig, map<int, Storage>) -> int
    const outOfNames: bool
    var nextName: int
    var framebuffers: set<int>
    var renderbuffers: set<int>
    var buffers: set<int>
    var textures: set<int>
    var textureSpecs: map<int, AttachmentSpec>
    var boundFramebuffer: int
    var boundRenderbuffer: int
    var boundTexture: int
    var storage: map<int, Storage>
    var config: map<int, FboConfig>
    var viewport: Rect
    var clearColor: (real, real, real, real)
    var clears: seq<bv32>
    var statusQueries: nat

    /** Every live framebuffer, renderbuffer and texture name is positive and below `nextName`. */
    ghost predicate Valid()
      reads this`nextName, this`framebuffers, this`renderbuffers, this`textures
    {
      && nextName > 0
      && NamesBelow(framebuffers, nextName)
      && NamesBelow(renderbuffers, nextName)
      && NamesBelow(textures, nextName)
    }

    /** The attachments of framebuffer `h`; none for a name without a record. */
    function ConfigOf(h: int): FboConfig
      reads this`config
    {
      if h in config then config[h] else EmptyConfig
    }

    /** The status `glCheckFramebufferStatus` reports: the window-system framebuffer is always complete. */
    function Status(): int
      reads this`boundFramebuffer, this`framebuffers, this`config, this`storage
    {
      if boundFramebuffer in framebuffers
      then verdict(ConfigOf(boundFramebuffer), storage)
      else GL_FRAMEBUFFER_COMPLETE
    }

    constructor (verdict: (FboConfig, map<int, Storage>) -> int, outOfNames: bool)
      ensures this.verdict == verdict && this.outOfNames == outOfNames && Valid()
      ensures nextName == 1 && framebuffers == {} && renderbuffers == {} && buffers == {} && textures == {}
      ensures textureSpecs == map[] && storage == map[] && config == map[]
      ensures boundFramebuffer == 0 && boundRenderbuffer == 0 && boundTexture == 0
      ensures viewport == Rect(0, 0, 0, 0) && clears == [] && statusQueries == 0
    {
      this.verdict, this.outOfNames := verdict, outOfNames;
      nextName := 1;
      framebuffers, renderbuffers, buffers, textures := {}, {}, {}, {};
      textureSpecs, storage, config := map[], map[], map[];
      boundFramebuffer, boundRenderbuffer, boundTexture := 0, 0, 0;
      viewport := Rect(0, 0, 0, 0);
      clearColor := (0.0, 0.0, 0.0, 0.0);
      clears := [];
      statusQueries := 0;
    }

    /** `glGenFramebuffer`: a fresh name with nothing attached, or 0 when out of names. */
    method GenFramebuffer() returns (h: int)
      requires Valid()
      modifies this`nextName, this`framebuffers, this`config
      ensures Valid()
      ensures outOfNames ==> h == 0 && nextName == old(nextName) && framebuffers == old(framebuffers) && config == old(config)
      ensures !outOfNames ==> h == old(nextName) && nextName == h + 1 && framebuffers == old(framebuffers) + {h}
                              && config == old(config)[h := EmptyConfig]
    {
      if outOfNames {
        return 0;
      }
      h := nextName;
      nextName, framebuffers, config := h + 1, framebuffers + {h}, config[h := EmptyConfig];
    }

    /** `glGenRenderbuffer`. */
    method GenRenderbuffer() returns (h: int)
      requires Valid()
      modifies this`nextName, this`renderbuffers
      ensures Valid()
      ensures outOfNames ==> h == 0 && nextName == old(nextName) && renderbuffers == old(renderbuffers)
      ensures !outOfNames ==> h == old(nextName) && nextName == h + 1 && renderbuffers == old(renderbuffers) + {h}
    {
      if outOfNames {
        return 0;
      }
      h := nextName;
      nextName, renderbuffers := h + 1, renderbuffers + {h};
    }

    /** `createTexture(spec)`: a fresh texture made from the spec. */
    method CreateTexture(spec: AttachmentSpec) returns (h: int)
      requires Valid()
      modifies this`nextName, this`textures, this`textureSpecs
      ensures Valid()
      ensures outOfNames ==> h == 0 && nextName == old(nextName) && textures == old(textures)
                             && textureSpecs == old(textureSpecs)
      ensures !outOfNames ==> h == old(nextName) && nextName == h + 1 && textures == old(textures) + {h}
                              && textureSpecs == old(textureSpecs)[h := spec]
    {
      if outOfNames {
        return 0;
      }
      h := nextName;
      nextName, textures, textureSpecs := h + 1, textures + {h}, textureSpecs[h := spec];
    }

    /** `glBindFramebuffer(GL_FRAMEBUFFER, h)`. */
    method BindFramebuffer(h: int)
      modifies this`boundFramebuffer
      ensures boundFramebuffer == h
    {
      boundFramebuffer := h;
    }

    /** `glBindRenderbuffer(GL_RENDERBUFFER, h)`. */
    method BindRenderbuffer(h: int)
      modifies this`boundRenderbuffer
      ensures boundRenderbuffer == h
    {
      boundRenderbuffer := h;
    }

    /** `GLUtils.bindTexture`. */
    method BindTexture(h: int)
      modifies this`boundTexture
      ensures boundTexture == h
    {
      boundTexture := h;
    }

    /** `glRenderbufferStorage`: gives the bound renderbuffer storage; ignored when none is bound. */
    method RenderbufferStorage(internalFormat: int, width: int, height: int)
      modifies this`storage
      ensures storage == if boundRenderbuffer in renderbuffers
                         then old(storage)[boundRenderbuffer := Storage(internalFormat, width, height)]
                         else old(storage)
    {
      if boundRenderbuffer in renderbuffers {
        storage := storage[boundRenderbuffer := Storage(internalFormat, width, height)];
      }
    }

    /** `glFramebufferRenderbuffer` on the bound framebuffer; renderbuffer 0 detaches; ignored on the window framebuffer. */
    method FramebufferRenderbuffer(point: AttachPoint, rb: int)
      modifies this`config
      ensures config == if boundFramebuffer in framebuffers
                        then old(config)[boundFramebuffer := AttachRenderbuffer(old(ConfigOf(boundFramebuffer)), point, rb)]
                        else old(config)
    {
      if boundFramebuffer in framebuffers {
        config := config[boundFramebuffer := AttachRenderbuffer(ConfigOf(boundFramebuffer), point, rb)];
      }
    }

    /** `attachFrameBufferColorTexture`: the texture goes to colour attachment 0 of the bound framebuffer. */
    method FramebufferTexture(tex: int)
      modifies this`config
      ensures config == if boundFramebuffer in framebuffers
                        then old(config)[boundFramebuffer := old(ConfigOf(boundFramebuffer)).(color := TextureAt(tex))]
                        else old(config)
    {
      if boundFramebuffer in framebuffers {
        config := config[boundFramebuffer := ConfigOf(boundFramebuffer).(color := TextureAt(tex))];
      }
    }

    /** `glCheckFramebufferStatus(GL_FRAMEBUFFER)`. */
    method CheckFramebufferStatus() returns (status: int)
      modifies this`statusQueries
      ensures status == Status() && statusQueries == old(statusQueries) + 1
    {
      status := Status();
      statusQueries := statusQueries + 1;
    }

    /** `glDeleteFramebuffer`: a bound framebuffer that is deleted leaves the binding at 0. */
    method DeleteFramebuffer(h: int)
      requires Valid()
      modifies this`framebuffers, this`boundFramebuffer
      ensures Valid()
      ensures framebuffers == old(framebuffers) - {h}
      ensures boundFramebuffer == if h in old(framebuffers) && old(boundFramebuffer) == h then 0 else old(boundFramebuffer)
    {
      if h in framebuffers {
        framebuffers := framebuffers - {h};
        if boundFramebuffer == h {
          boundFramebuffer := 0;
        }
      }
    }

    /** `glDeleteRenderbuffer`. */
    method DeleteRenderbuffer(h: int)
      requires Valid()
      modifies this`renderbuffers
      ensures Valid()
      ensures renderbuffers == old(renderbuffers) - {h}
    {
      renderbuffers := renderbuffers - {h};
    }

    /** `glDeleteBuffer`: deletes a buffer object (vertex or index data), not a renderbuffer. */
    method DeleteBuffer(h: int)
      modifies this`buffers
      ensures buffers == old(buffers) - {h}
    {
      buffers := buffers - {h};
    }

    /** `disposeColorTexture`. */
    method DisposeTexture(h: int)
      requires Valid()
      modifies this`textures
      ensures Valid()
      ensures textures == old(textures) - {h}
    {
      textures := textures - {h};
    }

    /** `glViewport`. */
    method Viewport(x: int, y: int, width: int, height: int)
      modifies this`viewport
      ensures viewport == Rect(x, y, width, height)
    {
      viewport := Rect(x, y, width, height);
    }

    /** `glClearColor`. */
    method ClearColor(r: real, g: real, b: real, a: real)
      modifies this`clearColor
      ensures clearColor == (r, g, b, a)
    {
      clearColor := (r, g, b, a);
    }

    /** `glClear(mask)`, recorded. */
    method Clear(mask: bv32)
      modifies this`clears
      ensures clears == old(clears) + [mask]
    {
      clears := clears + [mask];
    }
  }

  /** Every name in `names` is positive and below `bound`. */
  predicate NamesBelow(names: set<int>, bound: int) {
    forall h :: h in names ==> 0 < h < bound
  }

  /** The attachment record after attaching renderbuffer `rb` (0 detaches) at `point`. */
  function AttachRenderbuffer(c: FboConfig, point: AttachPoint, rb: int): (d: FboConfig)
    ensures d.color == c.color
    ensures point == DepthPoint ==> d.stencil == c.stencil && d.depth == (if rb == 0 then NoAttachment else RenderbufferAt(rb))
    ensures point == StencilPoint ==> d.depth == c.depth && d.stencil == (if rb == 0 then NoAttachment else RenderbufferAt(rb))
  {
    var a := if rb == 0 then NoAttachment else RenderbufferAt(rb);
    match point
    case DepthPoint => c.(depth := a)
    case StencilPoint => c.(stencil := a)
  }
}
