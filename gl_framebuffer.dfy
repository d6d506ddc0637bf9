/**
 * `GLFrameBuffer`: an off-screen render target built from a `Builder` on a GL
 * device. The statics `defaultFramebufferHandle` and its initialised flag,
 * together with the engine-wide list of managed framebuffers behind
 * `LSystem.addFrameBuffer`/`removeFrameBuffer`, live in `Globals`.
 */
module GLFrameBuffers {
  import opened Wrappers
  import opened FrameBufferSpecs
  import opened GLDevice

  /** Why `build` throws. */
  datatype BuildError =
    | IncompleteAttachment
    | IncompleteDimensions
    | MissingAttachment
    | UnsupportedFormats
    | UnknownError(status: int)
    | NoTextureSpec

  /** The message `build` throws for a status other than GL_FRAMEBUFFER_COMPLETE. */
  function ErrorOf(status: int): (e: BuildError)
    ensures e == IncompleteAttachment <==> status == GL_FRAMEBUFFER_INCOMPLETE_ATTACHMENT
    ensures e == IncompleteDimensions <==> status == GL_FRAMEBUFFER_INCOMPLETE_DIMENSIONS
    ensures e == MissingAttachment <==> status == GL_FRAMEBUFFER_INCOMPLETE_MISSING_ATTACHMENT
    ensures e == UnsupportedFormats <==> status == GL_FRAMEBUFFER_UNSUPPORTED
    ensures e.UnknownError? <==> status !in {GL_FRAMEBUFFER_INCOMPLETE_ATTACHMENT, GL_FRAMEBUFFER_INCOMPLETE_DIMENSIONS,
                                             GL_FRAMEBUFFER_INCOMPLETE_MISSING_ATTACHMENT, GL_FRAMEBUFFER_UNSUPPORTED}
    ensures e.UnknownError? ==> e.status == status
    ensures !e.NoTextureSpec?
  {
    if status == GL_FRAMEBUFFER_INCOMPLETE_ATTACHMENT then IncompleteAttachment
    else if status == GL_FRAMEBUFFER_INCOMPLETE_DIMENSIONS then IncompleteDimensions
    else if status == GL_FRAMEBUFFER_INCOMPLETE_MISSING_ATTACHMENT then MissingAttachment
    else if status == GL_FRAMEBUFFER_UNSUPPORTED then UnsupportedFormats
    else UnknownError(status)
  }

  /** `FrameBufferDepthFormat`, the depth/stencil planes `clear` is asked to clear. */
  datatype DepthFormat = DepthStencilNone | Depth16 | Stencil8 | DepthStencil24_8

  /**
   * The mask `clear` passes to `glClear`, or None when it returns before
   * clearing: for DEPTHSTENCIL_NONE the depth bit is set and then the method
   * returns without calling `glClear` at all.
   */
  function ClearMask(f: DepthFormat): (r: Option<bv32>)
    ensures r.None? <==> f == DepthStencilNone
    ensures r.Some? ==> r.value & GL_COLOR_BUFFER_BIT != 0
  {
    match f
    case DepthStencilNone => None
    case Depth16 => Some(GL_COLOR_BUFFER_BIT | GL_DEPTH_BUFFER_BIT)
    case Stencil8 => Some(GL_COLOR_BUFFER_BIT | GL_STENCIL_BUFFER_BIT)
    case DepthStencil24_8 => Some(GL_COLOR_BUFFER_BIT | GL_DEPTH_BUFFER_BIT | GL_STENCIL_BUFFER_BIT)
  }

  /**
   * Every clear clears the colour plane; the depth plane exactly for the
   * formats with depth and the stencil plane exactly for those with stencil;
   * no other bit is set; and DEPTHSTENCIL_NONE clears nothing.
   */
  lemma ClearMaskPlanes(f: DepthFormat)
    ensures ClearMask(f).None? <==> f == DepthStencilNone
    ensures ClearMask(f).Some? ==> ClearMask(f).value & GL_COLOR_BUFFER_BIT != 0
    ensures ClearMask(f).Some? ==>
      (ClearMask(f).value & GL_DEPTH_BUFFER_BIT != 0 <==> f in {Depth16, DepthStencil24_8})
    ensures ClearMask(f).Some? ==>
      (ClearMask(f).value & GL_STENCIL_BUFFER_BIT != 0 <==> f in {Stencil8, DepthStencil24_8})
    ensures ClearMask(f).Some? ==>
      ClearMask(f).value & !(GL_COLOR_BUFFER_BIT | GL_DEPTH_BUFFER_BIT | GL_STENCIL_BUFFER_BIT) == 0
  {
  }

  /** No element occurs twice. */
  predicate NoDup<T(==)>(xs: seq<T>) {
    forall i, j :: 0 <= i < j < |xs| ==> xs[i] != xs[j]
  }

  /** Registering: appended when not already present. */
  function AddIfAbsent<T(==)>(xs: seq<T>, x: T): (ys: seq<T>)
    ensures x in ys && (forall i :: 0 <= i < |xs| ==> xs[i] in ys) && (forall i :: 0 <= i < |ys| ==> ys[i] in xs || ys[i] == x)
    ensures x in xs ==> ys == xs
    ensures NoDup(xs) ==> NoDup(ys)
  {
    if x in xs then xs else xs + [x]
  }

  /** Unregistering: every occurrence removed, the order of the rest kept. */
  function Remove<T(==)>(xs: seq<T>, x: T): (ys: seq<T>)
    ensures x !in ys && forall i :: 0 <= i < |ys| ==> ys[i] in xs && ys[i] != x
    ensures forall i :: 0 <= i < |xs| && xs[i] != x ==> xs[i] in ys
    ensures |ys| <= |xs| && (x !in xs ==> ys == xs)
    ensures NoDup(xs) ==> NoDup(ys)
  {
    if xs == [] then []
    else if xs[0] == x then Remove(xs[1..], x)
    else [xs[0]] + Remove(xs[1..], x)
  }

  /** The set of elements of a sequence. */
  function Elems(xs: seq<int>): set<int> {
    set x | x in xs
  }

  /** `n + 1` when the flag holds: the name counter after an optional `glGen*`. */
  function Bump(n: int, b: bool): int {
    if b then n + 1 else n
  }

  /** An optional renderbuffer attachment. */
  function Optional(b: bool, rb: int): Attachment {
    if b then RenderbufferAt(rb) else NoAttachment
  }

  /** Attaching renderbuffer `rb`; 0 detaches. */
  function Att(rb: int): Attachment {
    if rb == 0 then NoAttachment else RenderbufferAt(rb)
  }

  /** Storage given to renderbuffer `rb` when the flag holds. */
  function WithStorage(m: map<int, Storage>, b: bool, rb: int, st: Storage): map<int, Storage> {
    if b then m[rb := st] else m
  }

  /** The renderbuffer names for the separate depth and stencil renderbuffers that are present. */
  function Present(d: bool, dName: int, s: bool, sName: int): set<int> {
    (if d then {dName} else {}) + (if s then {sName} else {})
  }

  /** The static state of `GLFrameBuffer` and the engine's list of managed framebuffers. */
  class Globals {
    const isIOS: bool
    var defaultFramebufferHandleInitialized: bool
    var defaultFramebufferHandle: int
    var frameBuffers: seq<GLFrameBuffer>

    /**
     * The registry holds each framebuffer once. `LSystem`'s list is taken to
     * behave as a set; `invalidate` walks it while rebuilding, so a list that
     * grew on every `build` would never let that walk end.
     */
    predicate Valid()
      reads this`frameBuffers
    {
      NoDup(frameBuffers)
    }

    constructor (isIOS: bool)
      ensures Valid() && this.isIOS == isIOS && !defaultFramebufferHandleInitialized
      ensures defaultFramebufferHandle == 0 && frameBuffers == []
    {
      this.isIOS := isIOS;
      defaultFramebufferHandleInitialized := false;
      defaultFramebufferHandle := 0;
      frameBuffers := [];
    }

    /**
     * The first `build` records the default framebuffer: the one bound at that
     * moment on iOS, 0 elsewhere. Later builds keep it.
     */
    method InitDefaultHandle(gl: Device)
      modifies this`defaultFramebufferHandleInitialized, this`defaultFramebufferHandle
      ensures defaultFramebufferHandleInitialized
      ensures old(defaultFramebufferHandleInitialized) ==> defaultFramebufferHandle == old(defaultFramebufferHandle)
      ensures !old(defaultFramebufferHandleInitialized) ==>
        defaultFramebufferHandle == if isIOS then gl.boundFramebuffer else 0
    {
      if !defaultFramebufferHandleInitialized {
        defaultFramebufferHandleInitialized := true;
        if isIOS {
          defaultFramebufferHandle := gl.boundFramebuffer;
        } else {
          defaultFramebufferHandle := 0;
        }
      }
    }

    /** `LSystem.addFrameBuffer`, taken to add a framebuffer not yet registered and ignore one that is. */
    method AddFrameBuffer(fb: GLFrameBuffer)
      requires Valid()
      modifies this`frameBuffers
      ensures Valid() && frameBuffers == AddIfAbsent(old(frameBuffers), fb)
    {
      frameBuffers := AddIfAbsent(frameBuffers, fb);
    }

    /** `LSystem.removeFrameBuffer`, taken to drop the framebuffer from the registry. */
    method RemoveFrameBuffer(fb: GLFrameBuffer)
      requires Valid()
      modifies this`frameBuffers
      ensures Valid() && frameBuffers == Remove(old(frameBuffers), fb)
    {
      frameBuffers := Remove(frameBuffers, fb);
    }
  }

  /** What `build`'s outcome is described against: the device, the object and the registry before it. */
  datatype Before = Before(
    nextName: int, textureAttachments: seq<int>,
    framebuffers: set<int>, renderbuffers: set<int>, buffers: set<int>, textures: set<int>,
    textureSpecs: map<int, AttachmentSpec>, config: map<int, FboConfig>, storage: map<int, Storage>,
    statusQueries: nat, depthbufferHandle: int, stencilbufferHandle: int,
    packedHandle: int, hasPacked: bool, frameBuffers: seq<GLFrameBuffer>)

  /** Pixels read back from a colour attachment; the pixel contents are not modelled. */
  datatype Image = Image(width: int, height: int, flip: bool, alpha: bool, texture: int)

  /** Why `getImageData` throws. */
  datatype ReadError = GenFailed | IndexOutOfRange | NullImage

  class GLFrameBuffer {
    const builder: Builder
    const gl: Device
    const sys: Globals
    var textureAttachments: seq<int>
    var framebufferHandle: int
    var depthbufferHandle: int
    var stencilbufferHandle: int
    var depthStencilPackedBufferHandle: int
    var hasDepthStencilPackedBuffer: bool

    /** The object before `build` runs. */
    constructor Empty(builder: Builder, gl: Device, sys: Globals)
      ensures this.builder == builder && this.gl == gl && this.sys == sys
      ensures textureAttachments == [] && !hasDepthStencilPackedBuffer
      ensures framebufferHandle == 0 && depthbufferHandle == 0 && stencilbufferHandle == 0
      ensures depthStencilPackedBufferHandle == 0
    {
      this.builder, this.gl, this.sys := builder, gl, sys;
      textureAttachments := [];
      framebufferHandle, depthbufferHandle, stencilbufferHandle := 0, 0, 0;
      depthStencilPackedBufferHandle := 0;
      hasDepthStencilPackedBuffer := false;
    }

    /** `disposeColorTexture` on every texture attachment. */
    method DisposeColorTextures()
      requires gl.Valid()
      modifies gl`textures
      ensures gl.Valid()
      ensures gl.textures == old(gl.textures) - Elems(textureAttachments)
    {
      for i := 0 to |textureAttachments|
        invariant gl.Valid()
        invariant gl.textures == old(gl.textures) - Elems(textureAttachments[..i])
      {
        assert Elems(textureAttachments[..i + 1]) == Elems(textureAttachments[..i]) + {textureAttachments[i]} by {
          assert textureAttachments[..i + 1] == textureAttachments[..i] + [textureAttachments[i]];
        }
        gl.DisposeTexture(textureAttachments[i]);
      }
      assert textureAttachments[..|textureAttachments|] == textureAttachments;
    }

    /** Binds every texture attachment in turn; the last one stays bound. */
    method BindColorTextures()
      modifies gl`boundTexture
      ensures gl.boundTexture ==
        if textureAttachments == [] then old(gl.boundTexture) else textureAttachments[|textureAttachments| - 1]
    {
      for i := 0 to |textureAttachments|
        invariant gl.boundTexture == if i == 0 then old(gl.boundTexture) else textureAttachments[i - 1]
      {
        gl.BindTexture(textureAttachments[i]);
      }
    }

    /** The state `build` starts from, as far as its outcome is described against it. */
    ghost function Snap(): Before
      reads this, gl, sys
    {
      Before(gl.nextName, textureAttachments, gl.framebuffers, gl.renderbuffers, gl.buffers, gl.textures,
             gl.textureSpecs, gl.config, gl.storage, gl.statusQueries, depthbufferHandle, stencilbufferHandle,
             depthStencilPackedBufferHandle, hasDepthStencilPackedBuffer, sys.frameBuffers)
    }

    /*
     * The names `build` hands out from `b`, in order: the framebuffer is
     * `b.nextName`, then come the depth renderbuffer, the stencil
     * renderbuffer (each only when the builder asks for it), the colour
     * texture and, on the fallback, the packed depth+stencil renderbuffer.
     */
    ghost function DepthName(b: Before): int { b.nextName + 1 }
    ghost function StencilName(b: Before): int reads builder { Bump(DepthName(b), builder.hasDepthRenderBuffer) }
    ghost function TextureName(b: Before): int reads builder { Bump(StencilName(b), builder.hasStencilRenderBuffer) }
    ghost function PackedName(b: Before): int reads builder { TextureName(b) + 1 }

    /** The separate renderbuffers `build` makes from `b`. */
    ghost function SeparateNames(b: Before): set<int>
      reads builder
    {
      Present(builder.hasDepthRenderBuffer, DepthName(b), builder.hasStencilRenderBuffer, StencilName(b))
    }

    /**
     * The framebuffer's first configuration: the FIRST texture of the list at
     * colour attachment 0 (after a rebuild an old one) and each separate
     * renderbuffer at its point.
     */
    ghost function FirstConfig(b: Before): FboConfig
      reads builder
    {
      FboConfig(TextureAt((b.textureAttachments + [TextureName(b)])[0]),
                Optional(builder.hasDepthRenderBuffer, DepthName(b)),
                Optional(builder.hasStencilRenderBuffer, StencilName(b)))
    }

    /** The renderbuffer storage with the separate renderbuffers' formats and the builder's size. */
    ghost function FirstStorage(b: Before): map<int, Storage>
      reads builder
    {
      WithStorage(WithStorage(b.storage, builder.hasDepthRenderBuffer, DepthName(b),
                              Storage(builder.depthFormat, builder.width, builder.height)),
                  builder.hasStencilRenderBuffer, StencilName(b),
                  Storage(builder.stencilFormat, builder.width, builder.height))
    }

    /** The fallback happens exactly when the first status is GL_FRAMEBUFFER_UNSUPPORTED with both separate renderbuffers. */
    ghost predicate FellBack(b: Before)
      reads builder
    {
      gl.verdict(FirstConfig(b), FirstStorage(b)) == GL_FRAMEBUFFER_UNSUPPORTED
      && builder.hasDepthRenderBuffer && builder.hasStencilRenderBuffer
    }

    /** The configuration after the fallback: the packed renderbuffer at both points. */
    ghost function PackedConfig(b: Before): FboConfig
      reads builder
    {
      FirstConfig(b).(depth := RenderbufferAt(PackedName(b)), stencil := RenderbufferAt(PackedName(b)))
    }

    ghost function PackedStorage(b: Before): map<int, Storage>
      reads builder
    {
      FirstStorage(b)[PackedName(b) := Storage(GL_DEPTH24_STENCIL8_OES, builder.width, builder.height)]
    }

    /** The status `build` decides on: the second one when it fell back, else the first. */
    ghost function FinalStatus(b: Before): int
      reads builder
    {
      if FellBack(b) then gl.verdict(PackedConfig(b), PackedStorage(b)) else gl.verdict(FirstConfig(b), FirstStorage(b))
    }

    /** What both outcomes share: the names, the configuration, the storage and the handles. */
    ghost predicate Configured(b: Before)
      reads this`framebufferHandle, this`textureAttachments, this`depthbufferHandle, this`stencilbufferHandle,
            this`depthStencilPackedBufferHandle, this`hasDepthStencilPackedBuffer,
            gl`textureSpecs, gl`config, gl`storage, gl`statusQueries, gl`nextName, gl`boundRenderbuffer,
            gl`boundTexture, builder
    {
      var fellBack := FellBack(b);
      && builder.textureAttachmentSpecs != []
      && framebufferHandle == b.nextName
      && textureAttachments == b.textureAttachments + [TextureName(b)]
      && gl.textureSpecs == b.textureSpecs[TextureName(b) := builder.textureAttachmentSpecs[0]]
      && gl.config == b.config[b.nextName := if fellBack then PackedConfig(b) else FirstConfig(b)]
      && gl.storage == (if fellBack then PackedStorage(b) else FirstStorage(b))
      && gl.statusQueries == b.statusQueries + (if fellBack then 2 else 1)
      && gl.nextName == (if fellBack then PackedName(b) + 1 else TextureName(b) + 1)
      && gl.boundRenderbuffer == 0 && gl.boundTexture == TextureName(b)
      && (fellBack ==> depthbufferHandle == 0 && stencilbufferHandle == 0
                       && depthStencilPackedBufferHandle == PackedName(b) && hasDepthStencilPackedBuffer)
      && (!fellBack ==> depthbufferHandle == (if builder.hasDepthRenderBuffer then DepthName(b) else b.depthbufferHandle)
                        && stencilbufferHandle == (if builder.hasStencilRenderBuffer then StencilName(b) else b.stencilbufferHandle)
                        && depthStencilPackedBufferHandle == b.packedHandle
                        && hasDepthStencilPackedBuffer == b.hasPacked)
    }

    /** None of the names `build` hands out from `b` was in use in `b`. */
    ghost predicate Fresh(b: Before)
      reads builder
    {
      && b.nextName !in b.framebuffers
      && DepthName(b) !in b.renderbuffers && StencilName(b) !in b.renderbuffers
      && TextureName(b) !in b.textures
    }

    /** What `build` leaves alone until the status check: the packed handle, the flag, the buffers, the queries and the registry. */
    ghost predicate Kept(b: Before)
      reads this`depthStencilPackedBufferHandle, this`hasDepthStencilPackedBuffer,
            gl`buffers, gl`statusQueries, sys`frameBuffers
    {
      && depthStencilPackedBufferHandle == b.packedHandle
      && hasDepthStencilPackedBuffer == b.hasPacked
      && gl.buffers == b.buffers
      && gl.statusQueries == b.statusQueries
      && sys.frameBuffers == b.frameBuffers
    }

    /** The framebuffer `b.nextName` is live and bound. */
    ghost predicate FramebufferMade(b: Before)
      reads this`framebufferHandle, gl`framebuffers, gl`boundFramebuffer
    {
      && framebufferHandle == b.nextName
      && gl.framebuffers == b.framebuffers + {b.nextName}
      && gl.boundFramebuffer == b.nextName
    }

    /** The separate renderbuffers the builder asks for are live, with their storage. */
    ghost predicate SeparateMade(b: Before)
      reads this`depthbufferHandle, this`stencilbufferHandle, gl`renderbuffers, gl`storage, builder
    {
      && depthbufferHandle == (if builder.hasDepthRenderBuffer then DepthName(b) else b.depthbufferHandle)
      && stencilbufferHandle == (if builder.hasStencilRenderBuffer then StencilName(b) else b.stencilbufferHandle)
      && gl.renderbuffers == b.renderbuffers + SeparateNames(b)
      && gl.storage == FirstStorage(b)
    }

    /** What holds from the separate renderbuffers on until the status check. */
    ghost predicate Separate(b: Before)
      reads this`framebufferHandle, this`depthbufferHandle, this`stencilbufferHandle,
            this`depthStencilPackedBufferHandle, this`hasDepthStencilPackedBuffer,
            gl`nextName, gl`framebuffers, gl`renderbuffers, gl`textures, gl`buffers, gl`statusQueries,
            gl`storage, gl`boundFramebuffer, sys`frameBuffers, builder
    {
      gl.Valid() && !gl.outOfNames && Fresh(b) && Kept(b) && FramebufferMade(b) && SeparateMade(b)
    }

    /** The colour texture is made from the first spec and appended to the list. */
    ghost predicate ColorTextureMade(b: Before)
      reads this`textureAttachments, gl`nextName, gl`textures, gl`textureSpecs, gl`boundTexture, builder
    {
      && builder.textureAttachmentSpecs != []
      && textureAttachments == b.textureAttachments + [TextureName(b)]
      && gl.nextName == TextureName(b) + 1
      && gl.textures == b.textures + {TextureName(b)}
      && gl.textureSpecs == b.textureSpecs[TextureName(b) := builder.textureAttachmentSpecs[0]]
      && gl.boundTexture == TextureName(b)
    }

    /** No texture is made yet. */
    ghost predicate TexturesKept(b: Before)
      reads this`textureAttachments, gl`textures, gl`textureSpecs
    {
      textureAttachments == b.textureAttachments && gl.textures == b.textures && gl.textureSpecs == b.textureSpecs
    }

    /** The state after the framebuffer and the separate renderbuffers are made, with nothing attached yet. */
    ghost predicate Allocated(b: Before)
      reads this, gl, sys, builder
    {
      && Separate(b) && TexturesKept(b)
      && gl.nextName == TextureName(b)
      && gl.config == b.config[b.nextName := EmptyConfig]
    }

    /**
     * The state just before the status check, from `b` and a builder with a
     * texture spec: the framebuffer is bound with the first configuration,
     * nothing queried yet.
     */
    ghost predicate Prepared(b: Before)
      reads this, gl, sys, builder
    {
      && Separate(b) && ColorTextureMade(b)
      && gl.config == b.config[b.nextName := FirstConfig(b)]
      && gl.boundRenderbuffer == 0
    }

    /** The state after the status check (and the fallback), before the default framebuffer is bound again. */
    ghost predicate Checked(b: Before, status: int)
      reads this, gl, sys, builder
    {
      && gl.Valid() && Configured(b) && Fresh(b) && status == FinalStatus(b)
      && gl.boundFramebuffer == b.nextName
      && gl.framebuffers == b.framebuffers + {b.nextName}
      && gl.textures == b.textures + {TextureName(b)}
      && gl.renderbuffers == b.renderbuffers + (if FellBack(b) then {PackedName(b)} else SeparateNames(b))
      && gl.buffers == b.buffers
      && sys.frameBuffers == b.frameBuffers
    }

    /**
     * The outcome of `build` from `b` with a texture spec. On success the
     * framebuffer is registered and everything it made stays alive; on
     * failure the error names the status, and everything is released except
     * that the packed renderbuffer (or, when the flag stayed set from an
     * earlier build, the new separate renderbuffers) is never deleted,
     * because `glDeleteBuffer` deletes a buffer object of that name instead.
     */
    ghost predicate Built(b: Before, r: Result<(), BuildError>)
      reads this, gl, sys, builder
    {
      var status := FinalStatus(b);
      && Configured(b)
      && (status == GL_FRAMEBUFFER_COMPLETE ==>
            && r == Ok(())
            && sys.frameBuffers == AddIfAbsent(b.frameBuffers, this)
            && gl.boundFramebuffer == sys.defaultFramebufferHandle
            && gl.framebuffers == b.framebuffers + {b.nextName}
            && gl.textures == b.textures + {TextureName(b)}
            && gl.renderbuffers == b.renderbuffers + (if FellBack(b) then {PackedName(b)} else SeparateNames(b))
            && gl.buffers == b.buffers)
      && (status != GL_FRAMEBUFFER_COMPLETE ==>
            && r == Err(ErrorOf(status))
            && sys.frameBuffers == b.frameBuffers
            && gl.boundFramebuffer == (if sys.defaultFramebufferHandle == b.nextName then 0 else sys.defaultFramebufferHandle)
            && gl.framebuffers == b.framebuffers
            && gl.textures == b.textures - Elems(b.textureAttachments)
            && gl.renderbuffers == b.renderbuffers +
                 (if FellBack(b) then {PackedName(b)} else if b.hasPacked then SeparateNames(b) else {})
            && gl.buffers == (if hasDepthStencilPackedBuffer then b.buffers - {depthStencilPackedBufferHandle}
                              else b.buffers))
    }

    /**
     * `build`: records the default framebuffer on first use, then builds as
     * `Built` describes; without a texture spec it fails with nothing
     * registered and the new framebuffer left bound.
     */
    method Build() returns (r: Result<(), BuildError>)
      requires gl.Valid() && !gl.outOfNames && sys.Valid()
      modifies this, sys`defaultFramebufferHandleInitialized, sys`defaultFramebufferHandle, sys`frameBuffers
      modifies gl`nextName, gl`framebuffers, gl`renderbuffers, gl`buffers, gl`textures, gl`textureSpecs,
               gl`boundFramebuffer, gl`boundRenderbuffer, gl`boundTexture, gl`storage, gl`config, gl`statusQueries
      ensures gl.Valid() && sys.Valid() && sys.defaultFramebufferHandleInitialized
      ensures old(sys.defaultFramebufferHandleInitialized) ==> sys.defaultFramebufferHandle == old(sys.defaultFramebufferHandle)
      ensures !old(sys.defaultFramebufferHandleInitialized) ==>
        sys.defaultFramebufferHandle == if sys.isIOS then old(gl.boundFramebuffer) else 0
      ensures framebufferHandle == old(gl.nextName)
      ensures r.Ok? ==> sys.frameBuffers == AddIfAbsent(old(sys.frameBuffers), this)
                        && |textureAttachments| == |old(textureAttachments)| + 1
      ensures r.Err? ==> sys.frameBuffers == old(sys.frameBuffers)
      ensures r == Err(NoTextureSpec) <==> builder.textureAttachmentSpecs == []
      ensures builder.textureAttachmentSpecs == [] ==>
        textureAttachments == old(textureAttachments) && gl.boundFramebuffer == framebufferHandle
      ensures builder.textureAttachmentSpecs != [] ==> Built(old(Snap()), r)
    {
      sys.InitDefaultHandle(gl);
      ghost var before := Snap();
      var ready := Prepare();
      if !ready {
        return Err(NoTextureSpec);
      }
      r := CheckAndRegister(before);
    }

    /** `build` on a framebuffer already in the registry, as `invalidate` does it: the registry stays as it was. */
    method Rebuild() returns (r: Result<(), BuildError>)
      requires gl.Valid() && !gl.outOfNames && sys.Valid() && this in sys.frameBuffers
      modifies this, sys`defaultFramebufferHandleInitialized, sys`defaultFramebufferHandle, sys`frameBuffers
      modifies gl`nextName, gl`framebuffers, gl`renderbuffers, gl`buffers, gl`textures, gl`textureSpecs,
               gl`boundFramebuffer, gl`boundRenderbuffer, gl`boundTexture, gl`storage, gl`config, gl`statusQueries
      ensures gl.Valid() && sys.frameBuffers == old(sys.frameBuffers)
      ensures r.Ok? ==> |textureAttachments| == |old(textureAttachments)| + 1
    {
      r := Build();
    }

    /**
     * Everything before the status check: the framebuffer, the separate
     * renderbuffers, and (when there is a texture spec) the colour texture,
     * all attached; `ready` is false when there is no texture spec.
     */
    method Prepare() returns (ready: bool)
      requires gl.Valid() && !gl.outOfNames
      modifies this`framebufferHandle, this`depthbufferHandle, this`stencilbufferHandle, this`textureAttachments
      modifies gl`nextName, gl`framebuffers, gl`config, gl`renderbuffers, gl`boundFramebuffer, gl`boundRenderbuffer,
               gl`storage, gl`textures, gl`textureSpecs, gl`boundTexture
      ensures gl.Valid() && gl.boundFramebuffer == framebufferHandle && framebufferHandle == old(gl.nextName)
      ensures ready <==> builder.textureAttachmentSpecs != []
      ensures !ready ==> textureAttachments == old(textureAttachments)
      ensures ready ==> Prepared(old(Snap()))
    {
      ghost var b := Snap();
      AllocateSeparate(b);
      if |builder.textureAttachmentSpecs| == 0 {
        return false;
      }
      MakeColorTexture(b);
      AttachAll(b);
      BindForDrawing(b);
      return true;
    }

    /** Generates and binds the framebuffer and the separate depth and stencil renderbuffers. */
    method AllocateSeparate(ghost b: Before)
      requires gl.Valid() && !gl.outOfNames && b == Snap()
      modifies this`framebufferHandle, this`depthbufferHandle, this`stencilbufferHandle
      modifies gl`nextName, gl`framebuffers, gl`config, gl`renderbuffers, gl`boundFramebuffer, gl`boundRenderbuffer, gl`storage
      ensures Allocated(b)
    {
      NewFramebuffer(b);
      depthbufferHandle := MaybeRenderbuffer(builder.hasDepthRenderBuffer, builder.depthFormat, depthbufferHandle);
      stencilbufferHandle := MaybeRenderbuffer(builder.hasStencilRenderBuffer, builder.stencilFormat, stencilbufferHandle);
    }

    /** Generates the framebuffer and binds it. */
    method NewFramebuffer(ghost b: Before)
      requires gl.Valid() && !gl.outOfNames && b == Snap()
      modifies this`framebufferHandle, gl`nextName, gl`framebuffers, gl`config, gl`boundFramebuffer
      ensures gl.Valid() && Fresh(b) && Kept(b) && FramebufferMade(b) && TexturesKept(b)
      ensures gl.nextName == b.nextName + 1 && gl.config == b.config[b.nextName := EmptyConfig]
      ensures gl.renderbuffers == b.renderbuffers && gl.storage == b.storage
      ensures depthbufferHandle == b.depthbufferHandle && stencilbufferHandle == b.stencilbufferHandle
    {
      framebufferHandle := gl.GenFramebuffer();
      gl.BindFramebuffer(framebufferHandle);
    }

    /** A new renderbuffer when `wanted`, as `NewRenderbuffer` makes it; otherwise `current` and nothing happens. */
    method MaybeRenderbuffer(wanted: bool, internalFormat: int, current: int) returns (h: int)
      requires gl.Valid() && !gl.outOfNames
      modifies gl`nextName, gl`renderbuffers, gl`boundRenderbuffer, gl`storage
      ensures gl.Valid()
      ensures h == if wanted then old(gl.nextName) else current
      ensures gl.nextName == Bump(old(gl.nextName), wanted)
      ensures gl.renderbuffers == old(gl.renderbuffers) + (if wanted then {h} else {})
      ensures gl.storage == WithStorage(old(gl.storage), wanted, h, Storage(internalFormat, builder.width, builder.height))
    {
      h := current;
      if wanted {
        h := NewRenderbuffer(internalFormat);
      }
    }

    /** Generates a renderbuffer, binds it and gives it storage of the builder's size. */
    method NewRenderbuffer(internalFormat: int) returns (h: int)
      requires gl.Valid() && !gl.outOfNames
      modifies gl`nextName, gl`renderbuffers, gl`boundRenderbuffer, gl`storage
      ensures gl.Valid() && gl.boundRenderbuffer == h
      ensures h == old(gl.nextName) && gl.nextName == h + 1
      ensures gl.renderbuffers == old(gl.renderbuffers) + {h}
      ensures gl.storage == old(gl.storage)[h := Storage(internalFormat, builder.width, builder.height)]
    {
      h := gl.GenRenderbuffer();
      gl.BindRenderbuffer(h);
      gl.RenderbufferStorage(internalFormat, builder.width, builder.height);
    }

    /** Creates the colour texture from the first spec, appends it to the list and binds it. */
    method MakeColorTexture(ghost b: Before)
      requires Allocated(b) && builder.textureAttachmentSpecs != []
      modifies this`textureAttachments, gl`nextName, gl`textures, gl`textureSpecs, gl`boundTexture
      ensures Separate(b) && ColorTextureMade(b) && gl.config == b.config[b.nextName := EmptyConfig]
    {
      var texture := gl.CreateTexture(builder.textureAttachmentSpecs[0]);
      textureAttachments := textureAttachments + [texture];
      gl.BindTexture(texture);
    }

    /** Attaches the FIRST texture of the list and the separate renderbuffers to the bound framebuffer. */
    method AttachAll(ghost b: Before)
      requires Separate(b) && ColorTextureMade(b) && gl.config == b.config[b.nextName := EmptyConfig]
      modifies gl`config
      ensures Separate(b) && ColorTextureMade(b) && gl.config == b.config[b.nextName := FirstConfig(b)]
    {
      ghost var color := TextureAt(textureAttachments[0]);
      gl.FramebufferTexture(textureAttachments[0]);
      assert gl.config == b.config[b.nextName := FboConfig(color, NoAttachment, NoAttachment)];
      MaybeAttach(builder.hasDepthRenderBuffer, DepthPoint, depthbufferHandle);
      assert gl.config == b.config[b.nextName := FboConfig(color, Optional(builder.hasDepthRenderBuffer, DepthName(b)), NoAttachment)];
      MaybeAttach(builder.hasStencilRenderBuffer, StencilPoint, stencilbufferHandle);
      assert gl.config == b.config[b.nextName := FirstConfig(b)];
    }

    /** Unbinds the renderbuffer and binds every colour texture in turn, which leaves the new one bound. */
    method BindForDrawing(ghost b: Before)
      requires Separate(b) && ColorTextureMade(b) && gl.config == b.config[b.nextName := FirstConfig(b)]
      modifies gl`boundRenderbuffer, gl`boundTexture
      ensures Prepared(b)
    {
      gl.BindRenderbuffer(0);
      BindColorTextures();
    }

    /** Attaches `rb` at `point` of the bound framebuffer when `wanted`. */
    method MaybeAttach(wanted: bool, point: AttachPoint, rb: int)
      requires gl.boundFramebuffer in gl.framebuffers
      modifies gl`config
      ensures gl.config == if wanted
        then old(gl.config)[gl.boundFramebuffer := AttachRenderbuffer(old(gl.ConfigOf(gl.boundFramebuffer)), point, rb)]
        else old(gl.config)
    {
      if wanted {
        gl.FramebufferRenderbuffer(point, rb);
      }
    }

    /** From the status check on: the packed fallback when asked for, then the outcome. */
    method CheckAndRegister(ghost b: Before) returns (r: Result<(), BuildError>)
      requires Prepared(b) && sys.Valid()
      modifies this`depthbufferHandle, this`stencilbufferHandle, this`depthStencilPackedBufferHandle,
               this`hasDepthStencilPackedBuffer, sys`frameBuffers
      modifies gl`nextName, gl`framebuffers, gl`renderbuffers, gl`buffers, gl`textures,
               gl`boundFramebuffer, gl`boundRenderbuffer, gl`storage, gl`config, gl`statusQueries
      ensures gl.Valid() && sys.Valid() && Built(b, r)
    {
      var result := Check(b);
      r := Register(b, result);
    }

    /** The status check, and the packed fallback when it reports GL_FRAMEBUFFER_UNSUPPORTED with both separate renderbuffers. */
    method Check(ghost b: Before) returns (result: int)
      requires Prepared(b)
      modifies this`depthbufferHandle, this`stencilbufferHandle, this`depthStencilPackedBufferHandle,
               this`hasDepthStencilPackedBuffer
      modifies gl`nextName, gl`renderbuffers, gl`boundRenderbuffer, gl`storage, gl`config, gl`statusQueries
      ensures Checked(b, result)
    {
      result := gl.CheckFramebufferStatus();
      if result == GL_FRAMEBUFFER_UNSUPPORTED && builder.hasDepthRenderBuffer && builder.hasStencilRenderBuffer {
        result := FallBackToPacked();
      }
    }

    /** Binds the default framebuffer again, then either releases and reports the error or registers. */
    method Register(ghost b: Before, result: int) returns (r: Result<(), BuildError>)
      requires Checked(b, result) && sys.Valid()
      modifies sys`frameBuffers, gl`buffers, gl`textures, gl`renderbuffers, gl`framebuffers, gl`boundFramebuffer
      ensures gl.Valid() && sys.Valid() && Built(b, r)
    {
      gl.BindFramebuffer(sys.defaultFramebufferHandle);
      if result != GL_FRAMEBUFFER_COMPLETE {
        ReleaseAfterFailure();
        return Err(ErrorOf(result));
      }
      sys.AddFrameBuffer(this);
      return Ok(());
    }

    /**
     * The fallback: both separate renderbuffers are deleted and replaced by one
     * packed GL_DEPTH24_STENCIL8_OES renderbuffer attached at both points; the
     * status is checked again.
     */
    method FallBackToPacked() returns (status: int)
      requires gl.Valid() && !gl.outOfNames
      requires gl.boundFramebuffer == framebufferHandle && framebufferHandle in gl.framebuffers
      modifies this`depthbufferHandle, this`stencilbufferHandle, this`depthStencilPackedBufferHandle,
               this`hasDepthStencilPackedBuffer
      modifies gl`nextName, gl`renderbuffers, gl`boundRenderbuffer, gl`storage, gl`config, gl`statusQueries
      ensures gl.Valid()
      ensures var p := old(gl.nextName);
        && depthbufferHandle == 0 && stencilbufferHandle == 0
        && depthStencilPackedBufferHandle == p && hasDepthStencilPackedBuffer
        && gl.nextName == p + 1
        && gl.renderbuffers == old(gl.renderbuffers) - {old(depthbufferHandle), old(stencilbufferHandle)} + {p}
        && gl.storage == old(gl.storage)[p := Storage(GL_DEPTH24_STENCIL8_OES, builder.width, builder.height)]
        && gl.boundRenderbuffer == 0
        && gl.config == old(gl.config)[framebufferHandle :=
             old(gl.ConfigOf(framebufferHandle)).(depth := RenderbufferAt(p), stencil := RenderbufferAt(p))]
        && gl.statusQueries == old(gl.statusQueries) + 1
        && status == gl.Status()
    {
      DeleteSeparate();
      depthStencilPackedBufferHandle := NewRenderbuffer(GL_DEPTH24_STENCIL8_OES);
      hasDepthStencilPackedBuffer := true;
      gl.BindRenderbuffer(0);
      AttachPacked();
      status := gl.CheckFramebufferStatus();
    }

    /** Deletes both separate renderbuffers and zeroes their handles. */
    method DeleteSeparate()
      requires gl.Valid()
      modifies this`depthbufferHandle, this`stencilbufferHandle, gl`renderbuffers
      ensures gl.Valid() && depthbufferHandle == 0 && stencilbufferHandle == 0
      ensures gl.renderbuffers == old(gl.renderbuffers) - {old(depthbufferHandle), old(stencilbufferHandle)}
    {
      gl.DeleteRenderbuffer(depthbufferHandle);
      depthbufferHandle := 0;
      gl.DeleteRenderbuffer(stencilbufferHandle);
      stencilbufferHandle := 0;
    }

    /** Attaches the packed renderbuffer at the depth and at the stencil point of the bound framebuffer. */
    method AttachPacked()
      requires gl.boundFramebuffer == framebufferHandle && framebufferHandle in gl.framebuffers
      requires depthStencilPackedBufferHandle != 0
      modifies gl`config
      ensures gl.config == old(gl.config)[framebufferHandle := old(gl.ConfigOf(framebufferHandle)).(
        depth := RenderbufferAt(depthStencilPackedBufferHandle), stencil := RenderbufferAt(depthStencilPackedBufferHandle))]
    {
      gl.FramebufferRenderbuffer(DepthPoint, depthStencilPackedBufferHandle);
      gl.FramebufferRenderbuffer(StencilPoint, depthStencilPackedBufferHandle);
    }

    /**
     * The release after a failed status: every colour texture is disposed; the
     * packed renderbuffer name is passed to `glDeleteBuffer`, which deletes a
     * buffer object of that name and leaves the renderbuffer alive; otherwise
     * the separate renderbuffers are deleted; then the framebuffer.
     */
    method ReleaseAfterFailure()
      requires gl.Valid()
      modifies gl`textures, gl`buffers, gl`renderbuffers, gl`framebuffers, gl`boundFramebuffer
      ensures gl.Valid()
      ensures gl.textures == old(gl.textures) - Elems(textureAttachments)
      ensures gl.buffers == if hasDepthStencilPackedBuffer then old(gl.buffers) - {depthStencilPackedBufferHandle} else old(gl.buffers)
      ensures gl.renderbuffers == if hasDepthStencilPackedBuffer then old(gl.renderbuffers)
        else old(gl.renderbuffers) - Present(builder.hasDepthRenderBuffer, depthbufferHandle,
                                             builder.hasStencilRenderBuffer, stencilbufferHandle)
      ensures gl.framebuffers == old(gl.framebuffers) - {framebufferHandle}
      ensures gl.boundFramebuffer ==
        if framebufferHandle in old(gl.framebuffers) && old(gl.boundFramebuffer) == framebufferHandle
        then 0 else old(gl.boundFramebuffer)
    {
      DisposeColorTextures();
      if hasDepthStencilPackedBuffer {
        gl.DeleteBuffer(depthStencilPackedBufferHandle);
      } else {
        if builder.hasDepthRenderBuffer {
          gl.DeleteRenderbuffer(depthbufferHandle);
        }
        if builder.hasStencilRenderBuffer {
          gl.DeleteRenderbuffer(stencilbufferHandle);
        }
      }
      gl.DeleteFramebuffer(framebufferHandle);
    }

    /** `close`: releases the textures, the renderbuffers (the packed one with `glDeleteRenderbuffer` here) and the framebuffer, and unregisters. */
    method Close()
      requires gl.Valid() && sys.Valid()
      modifies gl`textures, gl`renderbuffers, gl`framebuffers, gl`boundFramebuffer, sys`frameBuffers
      ensures gl.Valid() && sys.Valid()
      ensures gl.textures == old(gl.textures) - Elems(textureAttachments)
      ensures gl.renderbuffers == old(gl.renderbuffers) -
        (if hasDepthStencilPackedBuffer then {depthStencilPackedBufferHandle}
         else Present(builder.hasDepthRenderBuffer, depthbufferHandle, builder.hasStencilRenderBuffer, stencilbufferHandle))
      ensures gl.framebuffers == old(gl.framebuffers) - {framebufferHandle}
      ensures gl.boundFramebuffer ==
        if framebufferHandle in old(gl.framebuffers) && old(gl.boundFramebuffer) == framebufferHandle
        then 0 else old(gl.boundFramebuffer)
      ensures sys.frameBuffers == Remove(old(sys.frameBuffers), this)
    {
      DisposeColorTextures();
      if hasDepthStencilPackedBuffer {
        gl.DeleteRenderbuffer(depthStencilPackedBufferHandle);
      } else {
        if builder.hasDepthRenderBuffer {
          gl.DeleteRenderbuffer(depthbufferHandle);
        }
        if builder.hasStencilRenderBuffer {
          gl.DeleteRenderbuffer(stencilbufferHandle);
        }
      }
      gl.DeleteFramebuffer(framebufferHandle);
      sys.RemoveFrameBuffer(this);
    }

    /** `bind`. */
    method Bind()
      modifies gl`boundFramebuffer
      ensures gl.boundFramebuffer == framebufferHandle
    {
      gl.BindFramebuffer(framebufferHandle);
    }

    /** `unbind`: back to the default framebuffer. */
    method Unbind()
      modifies gl`boundFramebuffer
      ensures gl.boundFramebuffer == sys.defaultFramebufferHandle
    {
      gl.BindFramebuffer(sys.defaultFramebufferHandle);
    }

    /** `begin`: bind, and a viewport covering the whole framebuffer. */
    method Begin()
      modifies gl`boundFramebuffer, gl`viewport
      ensures gl.boundFramebuffer == framebufferHandle
      ensures gl.viewport == Rect(0, 0, builder.width, builder.height)
    {
      Bind();
      gl.Viewport(0, 0, builder.width, builder.height);
    }

    /** `end(x, y, width, height)`: unbind, and the given viewport. */
    method EndWithViewport(x: int, y: int, width: int, height: int)
      modifies gl`boundFramebuffer, gl`viewport
      ensures gl.boundFramebuffer == sys.defaultFramebufferHandle
      ensures gl.viewport == Rect(x, y, width, height)
    {
      Unbind();
      gl.Viewport(x, y, width, height);
    }

    /** `end()`: unbind, and a viewport of the framebuffer's size at the origin. */
    method End()
      modifies gl`boundFramebuffer, gl`viewport
      ensures gl.boundFramebuffer == sys.defaultFramebufferHandle
      ensures gl.viewport == Rect(0, 0, builder.width, builder.height)
    {
      EndWithViewport(0, 0, builder.width, builder.height);
    }

    /**
     * `clear(r, g, b, a, format)`: sets the clear colour, then clears the
     * colour plane and the planes the format names; DEPTHSTENCIL_NONE issues
     * no clear at all.
     */
    method Clear(r: real, g: real, b: real, a: real, format: DepthFormat)
      modifies gl`clearColor, gl`clears
      ensures gl.clearColor == (r, g, b, a)
      ensures format == DepthStencilNone ==> gl.clears == old(gl.clears)
      ensures format != DepthStencilNone ==> |gl.clears| == |old(gl.clears)| + 1
      ensures gl.clears == old(gl.clears) + (if ClearMask(format).Some? then [ClearMask(format).value] else [])
    {
      gl.ClearColor(r, g, b, a);
      var flag := GL_COLOR_BUFFER_BIT;
      match format {
        case DepthStencilNone =>
          flag := flag | GL_DEPTH_BUFFER_BIT;
          return;
        case Depth16 =>
          flag := flag | GL_DEPTH_BUFFER_BIT;
        case Stencil8 =>
          flag := flag | GL_STENCIL_BUFFER_BIT;
        case DepthStencil24_8 =>
          flag := flag | GL_DEPTH_BUFFER_BIT;
          flag := flag | GL_STENCIL_BUFFER_BIT;
      }
      gl.Clear(flag);
    }

    /** `clear(r, g, b, a)`: DEPTHSTENCIL_NONE, so the colour is set and nothing is cleared. */
    method ClearColorOnly(r: real, g: real, b: real, a: real)
      modifies gl`clearColor, gl`clears
      ensures gl.clearColor == (r, g, b, a) && gl.clears == old(gl.clears)
    {
      Clear(r, g, b, a, DepthStencilNone);
    }

    /**
     * `getImageData(index, flip, alpha)`: reads colour attachment `index`
     * through a temporary framebuffer. A device without names throws; an
     * index outside the list throws after the temporary framebuffer was
     * made; an incomplete temporary framebuffer gives null and stays bound
     * and alive; otherwise the pixels are read, the default framebuffer is
     * bound again and the temporary one deleted.
     */
    method GetImageData(index: int, flip: bool, alpha: bool) returns (r: Result<Option<Image>, ReadError>)
      requires gl.Valid()
      modifies gl`nextName, gl`framebuffers, gl`config, gl`boundFramebuffer, gl`statusQueries
      ensures gl.Valid()
      ensures gl.outOfNames ==>
        r == Err(GenFailed) && gl.nextName == old(gl.nextName) && gl.framebuffers == old(gl.framebuffers)
        && gl.config == old(gl.config) && gl.boundFramebuffer == old(gl.boundFramebuffer)
        && gl.statusQueries == old(gl.statusQueries)
      ensures !gl.outOfNames && !(0 <= index < |textureAttachments|) ==>
        var n := old(gl.nextName);
        r == Err(IndexOutOfRange) && gl.nextName == n + 1 && gl.framebuffers == old(gl.framebuffers) + {n}
        && gl.config == old(gl.config)[n := EmptyConfig] && gl.boundFramebuffer == old(gl.boundFramebuffer)
        && gl.statusQueries == old(gl.statusQueries)
      ensures !gl.outOfNames && 0 <= index < |textureAttachments| ==>
        var n := old(gl.nextName);
        var readConfig := EmptyConfig.(color := TextureAt(textureAttachments[index]));
        var status := gl.verdict(readConfig, gl.storage);
        && gl.nextName == n + 1
        && gl.config == old(gl.config)[n := readConfig]
        && gl.statusQueries == old(gl.statusQueries) + 1
        && (status != GL_FRAMEBUFFER_COMPLETE ==>
              r == Ok(None) && gl.framebuffers == old(gl.framebuffers) + {n} && gl.boundFramebuffer == n)
        && (status == GL_FRAMEBUFFER_COMPLETE ==>
              && r == Ok(Some(Image(builder.width, builder.height, flip, alpha, textureAttachments[index])))
              && gl.framebuffers == old(gl.framebuffers)
              && gl.boundFramebuffer == (if sys.defaultFramebufferHandle == n then 0 else sys.defaultFramebufferHandle))
    {
      var nfb := gl.GenFramebuffer();
      if nfb == 0 {
        return Err(GenFailed);
      }
      if !(0 <= index < |textureAttachments|) {
        return Err(IndexOutOfRange);
      }
      var texture := textureAttachments[index];
      gl.BindFramebuffer(nfb);
      gl.FramebufferTexture(texture);
      var status := gl.CheckFramebufferStatus();
      if status != GL_FRAMEBUFFER_COMPLETE {
        return Ok(None);
      }
      var image := Image(builder.width, builder.height, flip, alpha, texture);
      gl.BindFramebuffer(sys.defaultFramebufferHandle);
      gl.DeleteFramebuffer(nfb);
      return Ok(Some(image));
    }

    /** `getTextureData(flip, alpha)`: attachment 0; a null image fails when it is turned into a texture. */
    method GetTextureData(flip: bool, alpha: bool) returns (r: Result<Image, ReadError>)
      requires gl.Valid()
      modifies gl`nextName, gl`framebuffers, gl`config, gl`boundFramebuffer, gl`statusQueries
      ensures gl.Valid()
      ensures gl.outOfNames ==> r == Err(GenFailed)
      ensures !gl.outOfNames && textureAttachments == [] ==> r == Err(IndexOutOfRange)
      ensures r.Ok? ==> r.value == Image(builder.width, builder.height, flip, alpha, textureAttachments[0])
      ensures !gl.outOfNames && textureAttachments != [] ==>
        (r.Ok? <==> gl.verdict(EmptyConfig.(color := TextureAt(textureAttachments[0])), gl.storage) == GL_FRAMEBUFFER_COMPLETE)
    {
      var image := GetImageData(0, flip, alpha);
      match image
      case Err(e) => return Err(e);
      case Ok(None) => return Err(NullImage);
      case Ok(Some(img)) => return Ok(img);
    }
  }

  /**
   * `new FrameBuffer(builder)`: an empty framebuffer object, then `build`.
   * A new framebuffer is not registered yet, so success appends it.
   */
  method Create(builder: Builder, gl: Device, sys: Globals) returns (fb: GLFrameBuffer, r: Result<(), BuildError>)
    requires gl.Valid() && !gl.outOfNames && sys.Valid()
    modifies sys`defaultFramebufferHandleInitialized, sys`defaultFramebufferHandle, sys`frameBuffers
    modifies gl`nextName, gl`framebuffers, gl`renderbuffers, gl`buffers, gl`textures, gl`textureSpecs,
             gl`boundFramebuffer, gl`boundRenderbuffer, gl`boundTexture, gl`storage, gl`config, gl`statusQueries
    ensures fresh(fb) && fb.builder == builder && fb.gl == gl && fb.sys == sys && gl.Valid() && sys.Valid()
    ensures fb.framebufferHandle == old(gl.nextName)
    ensures r.Ok? ==> sys.frameBuffers == old(sys.frameBuffers) + [fb] && |fb.textureAttachments| == 1
    ensures r.Err? ==> sys.frameBuffers == old(sys.frameBuffers)
    ensures r == Err(NoTextureSpec) <==> builder.textureAttachmentSpecs == []
  {
    fb := new GLFrameBuffer.Empty(builder, gl, sys);
    r := fb.Build();
  }

  /**
   * `invalidate`: after the context is lost, rebuilds every registered
   * framebuffer in order; the first failure ends the pass. Nothing happens
   * without a GL device.
   */
  method Invalidate(gl: Device, sys: Globals, glAvailable: bool) returns (r: Result<(), (int, BuildError)>)
    requires gl.Valid() && !gl.outOfNames && sys.Valid()
    requires forall i :: 0 <= i < |sys.frameBuffers| ==> sys.frameBuffers[i].gl == gl && sys.frameBuffers[i].sys == sys
    modifies set i | 0 <= i < |sys.frameBuffers| :: sys.frameBuffers[i]
    modifies sys`defaultFramebufferHandleInitialized, sys`defaultFramebufferHandle, sys`frameBuffers
    modifies gl`nextName, gl`framebuffers, gl`renderbuffers, gl`buffers, gl`textures, gl`textureSpecs,
             gl`boundFramebuffer, gl`boundRenderbuffer, gl`boundTexture, gl`storage, gl`config, gl`statusQueries
    ensures gl.Valid() && sys.Valid() && sys.frameBuffers == old(sys.frameBuffers)
    ensures !glAvailable ==> r == Ok(()) && gl.nextName == old(gl.nextName)
    ensures r.Ok? ==> forall i :: 0 <= i < |sys.frameBuffers| ==>
      |sys.frameBuffers[i].textureAttachments| == |old(sys.frameBuffers[i].textureAttachments)| + (if glAvailable then 1 else 0)
    ensures r.Err? ==> glAvailable && 0 <= r.error.0 < |sys.frameBuffers|
    ensures r.Err? ==> forall i :: 0 <= i < r.error.0 ==>
      |sys.frameBuffers[i].textureAttachments| == |old(sys.frameBuffers[i].textureAttachments)| + 1
    ensures r.Err? ==> forall i :: r.error.0 < i < |sys.frameBuffers| ==>
      sys.frameBuffers[i].textureAttachments == old(sys.frameBuffers[i].textureAttachments)
  {
    if !glAvailable {
      return Ok(());
    }
    var buffers := sys.frameBuffers;
    for i := 0 to |buffers|
      invariant gl.Valid() && sys.frameBuffers == buffers
      invariant forall j :: 0 <= j < i ==>
        |buffers[j].textureAttachments| == |old(buffers[j].textureAttachments)| + 1
      invariant forall j :: i <= j < |buffers| ==> buffers[j].textureAttachments == old(buffers[j].textureAttachments)
    {
      var fb := buffers[i];
      var built := fb.Rebuild();
      if built.Err? {
        return Err((i, built.error));
      }
    }
    return Ok(());
  }
}
