/**
 * Attachment descriptions and the fluent builder of `GLFrameBuffer`. The
 * builder records colour/depth/stencil texture specs in call order and, for
 * depth and stencil render buffers, the internal format and a flag.
 */
module FrameBufferSpecs {

  const GL_DEPTH_COMPONENT: int := 0x1902
  const GL_DEPTH_COMPONENT16: int := 0x81A5
  const GL_STENCIL_INDEX8: int := 0x8D48
  const GL_STENCIL_ATTACHMENT: int := 0x8D20
  const GL_DEPTH_ATTACHMENT: int := 0x8D00

  /** `FrameBufferTextureAttachmentSpec`. */
  datatype AttachmentSpec = AttachmentSpec(
    internalFormat: int, format: int, dataType: int,
    isFloat: bool, isGpuOnly: bool, isDepth: bool, isStencil: bool)
  {
    /** `isColorTexture`: neither a depth nor a stencil texture. */
    predicate IsColorTexture() {
      !isDepth && !isStencil
    }
  }

  /** The spec `addColorTextureAttachment(internalFormat, format, type)` records. */
  function ColorSpec(internalFormat: int, format: int, dataType: int): (s: AttachmentSpec)
    ensures s.IsColorTexture() && !s.isFloat && !s.isGpuOnly
    ensures s.internalFormat == internalFormat && s.format == format && s.dataType == dataType
  {
    AttachmentSpec(internalFormat, format, dataType, false, false, false, false)
  }

  /** The spec `addFloatAttachment(internalFormat, format, type, gpuOnly)` records. */
  function FloatSpec(internalFormat: int, format: int, dataType: int, gpuOnly: bool): (s: AttachmentSpec)
    ensures s.IsColorTexture() && s.isFloat && s.isGpuOnly == gpuOnly
    ensures s.internalFormat == internalFormat && s.format == format && s.dataType == dataType
  {
    AttachmentSpec(internalFormat, format, dataType, true, gpuOnly, false, false)
  }

  /** The spec `addDepthTextureAttachment(internalFormat, type)` records: pixel format GL_DEPTH_COMPONENT. */
  function DepthTextureSpec(internalFormat: int, dataType: int): (s: AttachmentSpec)
    ensures !s.IsColorTexture() && s.isDepth && !s.isStencil && s.format == GL_DEPTH_COMPONENT
    ensures s.internalFormat == internalFormat && s.dataType == dataType
  {
    AttachmentSpec(internalFormat, GL_DEPTH_COMPONENT, dataType, false, false, true, false)
  }

  /**
   * The spec `addStencilTextureAttachment(internalFormat, type)` records. Its
   * pixel format is the attachment-point constant GL_STENCIL_ATTACHMENT, as the
   * engine passes it.
   */
  function StencilTextureSpec(internalFormat: int, dataType: int): (s: AttachmentSpec)
    ensures !s.IsColorTexture() && s.isStencil && !s.isDepth && s.format == GL_STENCIL_ATTACHMENT
    ensures s.internalFormat == internalFormat && s.dataType == dataType
  {
    AttachmentSpec(internalFormat, GL_STENCIL_ATTACHMENT, dataType, false, false, false, true)
  }

  /** `GLFrameBufferBuilder`: every `add*` method returns the builder itself. */
  class Builder {
    const width: int
    const height: int
    var textureAttachmentSpecs: seq<AttachmentSpec>
    var hasDepthRenderBuffer: bool
    var depthFormat: int
    var hasStencilRenderBuffer: bool
    var stencilFormat: int

    constructor (width: int, height: int)
      ensures this.width == width && this.height == height
      ensures textureAttachmentSpecs == [] && !hasDepthRenderBuffer && !hasStencilRenderBuffer
    {
      this.width, this.height := width, height;
      textureAttachmentSpecs := [];
      hasDepthRenderBuffer, hasStencilRenderBuffer := false, false;
      depthFormat, stencilFormat := 0, 0;
    }

    method AddColorTextureAttachment(internalFormat: int, format: int, dataType: int) returns (b: Builder)
      modifies this`textureAttachmentSpecs
      ensures b == this
      ensures textureAttachmentSpecs == old(textureAttachmentSpecs) + [ColorSpec(internalFormat, format, dataType)]
    {
      textureAttachmentSpecs := textureAttachmentSpecs + [ColorSpec(internalFormat, format, dataType)];
      b := this;
    }

    method AddFloatAttachment(internalFormat: int, format: int, dataType: int, gpuOnly: bool) returns (b: Builder)
      modifies this`textureAttachmentSpecs
      ensures b == this
      ensures textureAttachmentSpecs == old(textureAttachmentSpecs) + [FloatSpec(internalFormat, format, dataType, gpuOnly)]
    {
      textureAttachmentSpecs := textureAttachmentSpecs + [FloatSpec(internalFormat, format, dataType, gpuOnly)];
      b := this;
    }

    /** `addBasicColorTextureAttachment(glFormat, glType)`: the format doubles as the internal format. */
    method AddBasicColorTextureAttachment(glFormat: int, glType: int) returns (b: Builder)
      modifies this`textureAttachmentSpecs
      ensures b == this
      ensures textureAttachmentSpecs == old(textureAttachmentSpecs) + [ColorSpec(glFormat, glFormat, glType)]
    {
      b := AddColorTextureAttachment(glFormat, glFormat, glType);
    }

    method AddDepthTextureAttachment(internalFormat: int, dataType: int) returns (b: Builder)
      modifies this`textureAttachmentSpecs
      ensures b == this
      ensures textureAttachmentSpecs == old(textureAttachmentSpecs) + [DepthTextureSpec(internalFormat, dataType)]
    {
      textureAttachmentSpecs := textureAttachmentSpecs + [DepthTextureSpec(internalFormat, dataType)];
      b := this;
    }

    method AddStencilTextureAttachment(internalFormat: int, dataType: int) returns (b: Builder)
      modifies this`textureAttachmentSpecs
      ensures b == this
      ensures textureAttachmentSpecs == old(textureAttachmentSpecs) + [StencilTextureSpec(internalFormat, dataType)]
    {
      textureAttachmentSpecs := textureAttachmentSpecs + [StencilTextureSpec(internalFormat, dataType)];
      b := this;
    }

    method AddDepthRenderBuffer(internalFormat: int) returns (b: Builder)
      modifies this`hasDepthRenderBuffer, this`depthFormat
      ensures b == this && hasDepthRenderBuffer && depthFormat == internalFormat
    {
      depthFormat := internalFormat;
      hasDepthRenderBuffer := true;
      b := this;
    }

    method AddStencilRenderBuffer(internalFormat: int) returns (b: Builder)
      modifies this`hasStencilRenderBuffer, this`stencilFormat
      ensures b == this && hasStencilRenderBuffer && stencilFormat == internalFormat
    {
      stencilFormat := internalFormat;
      hasStencilRenderBuffer := true;
      b := this;
    }

    method AddBasicDepthRenderBuffer() returns (b: Builder)
      modifies this`hasDepthRenderBuffer, this`depthFormat
      ensures b == this && hasDepthRenderBuffer && depthFormat == GL_DEPTH_COMPONENT16
    {
      b := AddDepthRenderBuffer(GL_DEPTH_COMPONENT16);
    }

    method AddBasicStencilRenderBuffer() returns (b: Builder)
      modifies this`hasStencilRenderBuffer, this`stencilFormat
      ensures b == this && hasStencilRenderBuffer && stencilFormat == GL_STENCIL_INDEX8
    {
      b := AddStencilRenderBuffer(GL_STENCIL_INDEX8);
    }
  }
}
