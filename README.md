# Loon engine core, modelled in Dafny

This project models five pieces of the Loon 2D game engine (Java, `Loon-Neo`)
and proves properties of them:

- **`GLFrameBuffer`** (`gl_framebuffer.dfy`, `framebuffer_specs.dfy`, `gl_device.dfy`):
  - the off-screen render target;
  - its fluent builder of colour/depth/stencil attachments;
  - `build`, with its completeness check, the fallback to a packed depth-stencil renderbuffer, the release on failure and the registration in the engine-wide list;
  - `close`, `bind`/`unbind`, `begin`/`end`, `clear`, read-back;
  - the static `invalidate` that rebuilds every registered buffer after a context loss.

  OpenGL ES 2.0 is a device object, `GLDevice.Device`, that hands out names from one counter and records bindings, attachments, storage, the viewport and clears. The completeness status `glCheckFramebufferStatus` reports is an oracle over the bound framebuffer's attachments, supplied when the device is made.
- **`Sprite`** (`sprite_tree.dfy`, `sprites.dfy`):
  - a scene of sprites in an arena indexed by `nat`, with parent links and child lists kept apart;
  - adding and removing children, which keeps the child list sorted by layer;
  - `setAnimation` and its frame loop;
  - `close`;
  - `getScreenX`/`getScreenY`, which add up the ancestors' positions;
  - `update` and `createUI`, both recursive over the child lists.

  The two traversals are specified as the logs of calls they make, on the animations and on the `GLEx` graphics context. `Sprites.Graphics` stands in for `GLEx`: a context made with a colour, alpha 1 and no saved transforms, that logs every call. Each logged image draw names the sprite, the image of its current frame and the position.
- **`FadeEffect`** (`fade_effect.dfy`): the fade-in/fade-out counter, its end condition, and the rectangle it paints.
- **`Alignment`** (`alignment.dfy`): the nine anchor constants, `align`, `alignX` and `alignY`.
- **`LLabel`** (`llabel.dfy`): how the label is sized, and the calls `draw` makes for the background and for left-, centre- and right-aligned text.

About numbers:
- Java `float`/`double` arithmetic is modelled as exact `real` arithmetic.
- Java's `(int)` cast of a floating value and Java's `int / 2` both truncate toward zero. They are written out in `java_numeric.dfy`, because Dafny's division is Euclidean.

Several behaviours are modelled as the code has them, not as a reader might expect:
- `clear(r, g, b, a)` (format `DEPTHSTENCIL_NONE`) sets the clear colour and returns before `glClear`, so it clears nothing.
- When `build` fails after falling back to the packed renderbuffer, it releases that renderbuffer with `glDeleteBuffer`, which deletes a *buffer object* of that name. The renderbuffer itself stays alive.
- `hasDepthStencilPackedBuffer` is never reset, so on a rebuild that succeeds without the fallback the failure path still takes the packed branch.
- When the read-back framebuffer is incomplete, `getImageData` returns `null` and leaves that temporary framebuffer alive and bound.
- Every `build` appends one more colour texture to `textureAttachments` but attaches the first one in the list. A rebuild therefore attaches the texture of the first build again, and `getTextureData` reads that same texture.
- The public `setAnimation(images, maxFrame, timer)` fills a fresh `Animation` that is then dropped. Only `maxFrame` changes on the sprite.
- `removeChild` takes the child out of the list but leaves its parent link unchanged.

## Model

| member | source | states |
|---|---|---|
| JavaNumeric.TruncToZero | Java/Loon-Neo/src/loon/geom/Alignment.java:156-162 | Java's `(int)` cast of a floating value: the integer next to it toward zero, for both signs |
| JavaNumeric.JavaHalf | Java/Loon-Neo/src/loon/component/LLabel.java:179-181 | Java's `int / 2`: truncates toward zero, for negative and non-negative operands |
| JavaNumeric.JavaHalfIsTruncatedHalf | Java/Loon-Neo/src/loon/component/LLabel.java:179-181 | `int / 2` equals the `(int)` cast of the exact half |
| Alignments.FromLeft | Java/Loon-Neo/src/loon/geom/Alignment.java:25-135 | the horizontal weight is 0, 1/2 or 1; it is 0 exactly for the three left anchors and 1 exactly for the three right anchors |
| Alignments.FromBottom | Java/Loon-Neo/src/loon/geom/Alignment.java:25-135 | the vertical weight is 0, 1/2 or 1; it is 0 exactly for the three bottom anchors and 1 exactly for the three top anchors |
| Alignments.Align | Java/Loon-Neo/src/loon/geom/Alignment.java:25-135 | for a size of at least one pixel, each anchor lies inside the last pixel column and row of the size, from the origin |
| Alignments.AlignBox | Java/Loon-Neo/src/loon/geom/Alignment.java:25-135 | a box no larger than the size is placed inside it |
| Alignments.AlignX | Java/Loon-Neo/src/loon/geom/Alignment.java:156-158 | the offset lies between 0 and `availableWidth - width`, whichever sign that difference has |
| Alignments.AlignY | Java/Loon-Neo/src/loon/geom/Alignment.java:160-162 | the offset lies between 0 and `availableHeight - height`, whichever sign that difference has |
| Alignments.AlignFollowsWeights | Java/Loon-Neo/src/loon/geom/Alignment.java:25-152 | each constant's `align(origin, size)` is origin + (fromLeft·(w−1), fromBottom·(h−1)) |
| Alignments.AlignBoxFollowsWeights | Java/Loon-Neo/src/loon/geom/Alignment.java:25-152 | each constant's `align(origin, size, box)` is origin + (fromLeft·(w−bw), fromBottom·(h−bh)) |
| Alignments.AlignIsUnitBox | Java/Loon-Neo/src/loon/geom/Alignment.java:25-135 | aligning a point is aligning a 1×1 box |
| Alignments.AlignBoxOfFullSizeIsOrigin | Java/Loon-Neo/src/loon/geom/Alignment.java:25-135 | a box as large as the area is placed at the origin, whatever the anchor |
| Alignments.BottomLeftIsIdentity | Java/Loon-Neo/src/loon/geom/Alignment.java:102-111 | `BOTTOM_LEFT` returns the origin unchanged for points and boxes |
| Alignments.AlignXByColumn | Java/Loon-Neo/src/loon/geom/Alignment.java:156-158 | `alignX` is 0 for left anchors, `available − width` for right anchors, and the truncated half of it for centred anchors |
| Alignments.AlignYByRow | Java/Loon-Neo/src/loon/geom/Alignment.java:160-162 | `alignY` is 0 for bottom anchors, `available − height` for top anchors, and the truncated half of it for middle anchors |
| Fade.SetDelayState | Java/Loon-Neo/src/loon/action/sprite/effect/FadeEffect.java:72-79 | `setDelay` sets the time to the delay and the counter to the delay for a fade-in or to 0 for a fade-out; nothing else changes |
| Fade.Step | Java/Loon-Neo/src/loon/action/sprite/effect/FadeEffect.java:121-135 | an update keeps the delay and the fade type, never clears `finished`, and sets the alpha to 0 when it finishes the effect |
| Fade.Steps | Java/Loon-Neo/src/loon/action/sprite/effect/FadeEffect.java:121-135 | any number of updates keep the delay and the fade type |
| Fade.StepMovesCounter | Java/Loon-Neo/src/loon/action/sprite/effect/FadeEffect.java:121-135 | one update lowers the counter of a fade-in by 1, raises that of a fade-out by 1, and keeps the time and the type |
| Fade.StepKeepsFinished | Java/Loon-Neo/src/loon/action/sprite/effect/FadeEffect.java:121-135 | once finished, a fade stays finished through any number of updates |
| Fade.StepsCounter | Java/Loon-Neo/src/loon/action/sprite/effect/FadeEffect.java:121-135 | after k updates the counter has moved by exactly k, down for a fade-in and up for a fade-out |
| Fade.StepsFinished | Java/Loon-Neo/src/loon/action/sprite/effect/FadeEffect.java:121-135 | after k updates the effect is finished iff it was finished before or the counter hit its end value (0, or the time) at one of those k steps |
| Fade.FinishesAfterExactlyDelay | Java/Loon-Neo/src/loon/action/sprite/effect/FadeEffect.java:72-135 | with a positive delay n, both kinds of fade are finished after k updates iff k ≥ n |
| Fade.ZeroDelayFadeInNeverFinishes | Java/Loon-Neo/src/loon/action/sprite/effect/FadeEffect.java:72-127 | a fade-in given delay 0 goes negative at once and never finishes |
| Fade.FadeEffect.constructor | Java/Loon-Neo/src/loon/action/sprite/effect/FadeEffect.java:60-66 | the new effect is unfinished, at the origin, with the given size, and its counter is set as `setDelay` sets it |
| Fade.FadeEffect.SetDelay | Java/Loon-Neo/src/loon/action/sprite/effect/FadeEffect.java:72-79 | the state becomes `SetDelayState` of the old state; the geometry is unchanged |
| Fade.FadeEffect.OnUpdate | Java/Loon-Neo/src/loon/action/sprite/effect/FadeEffect.java:121-135 | the state becomes one `Step` of the old state; the geometry is unchanged |
| Fade.FadeEffect.SetStop | Java/Loon-Neo/src/loon/action/sprite/effect/FadeEffect.java:94-96 | the finished flag becomes the argument |
| Fade.FadeEffect.SetType | Java/Loon-Neo/src/loon/action/sprite/effect/FadeEffect.java:102-104 | the fade type becomes the argument; the counter is not reset |
| Fade.FadeEffect.Close | Java/Loon-Neo/src/loon/action/sprite/effect/FadeEffect.java:158-161 | the effect is finished afterwards |
| Fade.FadeEffect.Repaint | Java/Loon-Neo/src/loon/action/sprite/effect/FadeEffect.java:107-118 | nothing is painted iff the effect is finished; otherwise one rectangle at offset + position + screen offset, of the effect's size |
| Labels.InitialSizeCases | Java/Loon-Neo/src/loon/component/LLabel.java:147-153 | with a background and a zero side, the label takes the background's size; without one and with zero width it takes text width + 3 by font size / 2; otherwise the given size is kept |
| Labels.ExplicitSizeKept | Java/Loon-Neo/src/loon/component/LLabel.java:147-153 | a label given a non-zero width and height keeps them |
| Labels.InitialSize | Java/Loon-Neo/src/loon/component/LLabel.java:147-153 | the size is the given one, or the background's own, or (without a background and width 0) the text width plus 3 |
| Labels.TextX | Java/Loon-Neo/src/loon/component/LLabel.java:176-196 | left text starts at x + offset, right text ends at x + width + offset, and centred text (non-negative width) has its middle within half a pixel of the label's middle |
| Labels.TextY | Java/Loon-Neo/src/loon/component/LLabel.java:181-192 | the text's vertical middle is within half a pixel of the label's (non-negative line height) |
| Labels.TextAnchors | Java/Loon-Neo/src/loon/component/LLabel.java:176-196 | left text starts at x + offset; right text ends at x + width + offset; with even metrics, centred text is centred horizontally and all text is centred vertically |
| Labels.CenteredBetweenLeftAndRight | Java/Loon-Neo/src/loon/component/LLabel.java:177-193 | when the text fits, centred text starts between the left and the right position (up to half a pixel of truncation) |
| Labels.Graphics.SetColor | Java/Loon-Neo/src/loon/component/LLabel.java:175 | the colour becomes the argument |
| Labels.Graphics.SetAlpha | Java/Loon-Neo/src/loon/component/LLabel.java:166 | the alpha becomes the argument |
| Labels.Graphics.Emit | Java/Loon-Neo/src/loon/component/LLabel.java:169 | one draw call is appended to the log |
| Labels.LLabel.constructor | Java/Loon-Neo/src/loon/component/LLabel.java:136-154 | the fields are the arguments and the size is `InitialSize` of the arguments |
| Labels.LLabel.FromFont | Java/Loon-Neo/src/loon/component/LLabel.java:130-134 | no background, and the size the font gives the text, passed through the same sizing rule |
| Labels.LLabel.Draw | Java/Loon-Neo/src/loon/component/LLabel.java:162-199 | the context's colour and alpha are as before, and the calls made are exactly `DrawCalls` |
| Labels.LLabel.DrawCalls | Java/Loon-Neo/src/loon/component/LLabel.java:162-199 | at most two calls; the first is the background exactly when there is one; every text call uses the label's colour |
| Labels.LLabel.DrawCallsShape | Java/Loon-Neo/src/loon/component/LLabel.java:165-198 | draw makes one texture call iff there is a background and one string call iff the text is non-empty; the string is the label's text and the texture fills the label |
| FrameBufferSpecs.ColorSpec | Java/Loon-Neo/src/loon/opengl/GLFrameBuffer.java:418-421 | a colour texture spec that is neither float nor GPU-only and has the given formats |
| FrameBufferSpecs.FloatSpec | Java/Loon-Neo/src/loon/opengl/GLFrameBuffer.java:423-429 | a float colour texture spec with the given GPU-only flag |
| FrameBufferSpecs.DepthTextureSpec | Java/Loon-Neo/src/loon/opengl/GLFrameBuffer.java:435-441 | a depth (not colour, not stencil) texture spec whose pixel format is `GL_DEPTH_COMPONENT` |
| FrameBufferSpecs.StencilTextureSpec | Java/Loon-Neo/src/loon/opengl/GLFrameBuffer.java:443-449 | a stencil (not colour, not depth) texture spec whose pixel format is `GL_STENCIL_ATTACHMENT` |
| FrameBufferSpecs.Builder.constructor | Java/Loon-Neo/src/loon/opengl/GLFrameBuffer.java:413-416 | the given size, no texture specs and no render buffers |
| FrameBufferSpecs.Builder.AddColorTextureAttachment | Java/Loon-Neo/src/loon/opengl/GLFrameBuffer.java:418-421 | appends one colour spec and returns the builder |
| FrameBufferSpecs.Builder.AddFloatAttachment | Java/Loon-Neo/src/loon/opengl/GLFrameBuffer.java:423-429 | appends one float spec and returns the builder |
| FrameBufferSpecs.Builder.AddBasicColorTextureAttachment | Java/Loon-Neo/src/loon/opengl/GLFrameBuffer.java:431-433 | appends a colour spec whose internal format is the format, and returns the builder |
| FrameBufferSpecs.Builder.AddDepthTextureAttachment | Java/Loon-Neo/src/loon/opengl/GLFrameBuffer.java:435-441 | appends one depth texture spec and returns the builder |
| FrameBufferSpecs.Builder.AddStencilTextureAttachment | Java/Loon-Neo/src/loon/opengl/GLFrameBuffer.java:443-449 | appends one stencil texture spec and returns the builder |
| FrameBufferSpecs.Builder.AddDepthRenderBuffer | Java/Loon-Neo/src/loon/opengl/GLFrameBuffer.java:451-455 | a depth render buffer is requested with the given format |
| FrameBufferSpecs.Builder.AddStencilRenderBuffer | Java/Loon-Neo/src/loon/opengl/GLFrameBuffer.java:457-461 | a stencil render buffer is requested with the given format |
| FrameBufferSpecs.Builder.AddBasicDepthRenderBuffer | Java/Loon-Neo/src/loon/opengl/GLFrameBuffer.java:463-465 | a depth render buffer in `GL_DEPTH_COMPONENT16` |
| FrameBufferSpecs.Builder.AddBasicStencilRenderBuffer | Java/Loon-Neo/src/loon/opengl/GLFrameBuffer.java:467-469 | a stencil render buffer in `GL_STENCIL_INDEX8` |
| GLFrameBuffers.ErrorOf | Java/Loon-Neo/src/loon/opengl/GLFrameBuffer.java:261-269 | each of the four known incomplete statuses maps to its own error, and any other status to the unknown error carrying the status |
| GLFrameBuffers.ClearMask | Java/Loon-Neo/src/loon/opengl/GLFrameBuffer.java:111-131 | `clear` clears nothing exactly for `DEPTHSTENCIL_NONE`, and the colour plane whenever it clears |
| GLFrameBuffers.ClearMaskPlanes | Java/Loon-Neo/src/loon/opengl/GLFrameBuffer.java:111-131 | `DEPTHSTENCIL_NONE` clears nothing; every other format clears colour, plus depth for `DEPTH_16`, stencil for `STENCIL_8`, and both for `DEPTHSTENCIL_24_8` |
| GLFrameBuffers.AddIfAbsent | Java/Loon-Neo/src/loon/opengl/GLFrameBuffer.java:355-357 | the set behaviour assumed for `LSystem.addFrameBuffer`, to which `addManagedFrameBuffer` forwards: the registry then holds the buffer and everything it held before, nothing else; a registered buffer is not added twice, so a duplicate-free registry stays duplicate-free |
| GLFrameBuffers.Remove | Java/Loon-Neo/src/loon/opengl/GLFrameBuffer.java:294 | the behaviour assumed for `LSystem.removeFrameBuffer`, which `close` calls: the registry no longer holds the buffer and keeps every other member; it stays duplicate-free |
| GLFrameBuffers.Globals.constructor | Java/Loon-Neo/src/loon/opengl/GLFrameBuffer.java:163-173 | the default handle is not yet initialised and the registry is empty, hence duplicate-free (`Valid`) |
| GLFrameBuffers.Globals.InitDefaultHandle | Java/Loon-Neo/src/loon/opengl/GLFrameBuffer.java:163-173 | on first use the default handle becomes the bound framebuffer on iOS and 0 elsewhere; later calls change nothing |
| GLFrameBuffers.Globals.AddFrameBuffer | Java/Loon-Neo/src/loon/opengl/GLFrameBuffer.java:355-357 | the call `addManagedFrameBuffer` forwards to `LSystem`: the registry becomes `AddIfAbsent` of the old one and stays duplicate-free (`Valid`) |
| GLFrameBuffers.Globals.RemoveFrameBuffer | Java/Loon-Neo/src/loon/opengl/GLFrameBuffer.java:294 | the call `close` makes on `LSystem`: the registry becomes `Remove` of the old one and stays duplicate-free (`Valid`) |
| GLFrameBuffers.GLFrameBuffer.Empty | Java/Loon-Neo/src/loon/opengl/GLFrameBuffer.java:91-97 | a framebuffer object without textures or handles, bound to its builder, device and globals |
| GLFrameBuffers.GLFrameBuffer.DisposeColorTextures | Java/Loon-Neo/src/loon/opengl/GLFrameBuffer.java:279-281 | every colour texture of the buffer is released, and no other texture |
| GLFrameBuffers.GLFrameBuffer.BindColorTextures | Java/Loon-Neo/src/loon/opengl/GLFrameBuffer.java:212-215 | the last colour texture ends up bound; with none the binding is unchanged |
| GLFrameBuffers.GLFrameBuffer.Build | Java/Loon-Neo/src/loon/opengl/GLFrameBuffer.java:160-273 | see the stage list after this table |
| GLFrameBuffers.GLFrameBuffer.Rebuild | Java/Loon-Neo/src/loon/opengl/GLFrameBuffer.java:367-369 | `build` on a registered buffer leaves the registry as it was, and success adds one colour texture |
| GLFrameBuffers.GLFrameBuffer.Prepare | Java/Loon-Neo/src/loon/opengl/GLFrameBuffer.java:175-215 | a new framebuffer is bound; with a texture spec the renderbuffers and the colour texture are made and attached; without one it stops there |
| GLFrameBuffers.GLFrameBuffer.AllocateSeparate | Java/Loon-Neo/src/loon/opengl/GLFrameBuffer.java:175-193 | a new framebuffer, plus a depth and/or stencil renderbuffer as the builder asks, each with the builder's size and format |
| GLFrameBuffers.GLFrameBuffer.NewFramebuffer | Java/Loon-Neo/src/loon/opengl/GLFrameBuffer.java:175-176 | the next name becomes a bound framebuffer with nothing attached |
| GLFrameBuffers.GLFrameBuffer.MaybeRenderbuffer | Java/Loon-Neo/src/loon/opengl/GLFrameBuffer.java:181-193 | when wanted, the next name becomes a renderbuffer with the builder's size and the format; otherwise nothing changes |
| GLFrameBuffers.GLFrameBuffer.NewRenderbuffer | Java/Loon-Neo/src/loon/opengl/GLFrameBuffer.java:182-185 | the next name becomes a bound renderbuffer with storage of the builder's size and the format |
| GLFrameBuffers.GLFrameBuffer.MakeColorTexture | Java/Loon-Neo/src/loon/opengl/GLFrameBuffer.java:195-198 | one texture is made from the first spec and appended to the colour textures |
| GLFrameBuffers.GLFrameBuffer.AttachAll | Java/Loon-Neo/src/loon/opengl/GLFrameBuffer.java:199-210 | colour texture 0 and the requested renderbuffers are attached to the framebuffer |
| GLFrameBuffers.GLFrameBuffer.BindForDrawing | Java/Loon-Neo/src/loon/opengl/GLFrameBuffer.java:212-215 | the renderbuffer binding is cleared and the colour textures are bound |
| GLFrameBuffers.GLFrameBuffer.MaybeAttach | Java/Loon-Neo/src/loon/opengl/GLFrameBuffer.java:202-210 | when wanted, the renderbuffer is attached at the given point of the bound framebuffer |
| GLFrameBuffers.GLFrameBuffer.CheckAndRegister | Java/Loon-Neo/src/loon/opengl/GLFrameBuffer.java:217-272 | from the prepared state, the result and the final state are those of `Built` |
| GLFrameBuffers.GLFrameBuffer.Check | Java/Loon-Neo/src/loon/opengl/GLFrameBuffer.java:217-241 | the status is queried; when it is unsupported and both renderbuffers were requested, the separate ones are deleted, a packed one is made and attached, and the status is queried again |
| GLFrameBuffers.GLFrameBuffer.Register | Java/Loon-Neo/src/loon/opengl/GLFrameBuffer.java:243-272 | the default framebuffer is bound; a complete buffer is registered; an incomplete one is released and reported by status |
| GLFrameBuffers.GLFrameBuffer.FallBackToPacked | Java/Loon-Neo/src/loon/opengl/GLFrameBuffer.java:219-241 | the separate renderbuffers are gone, a new `DEPTH24_STENCIL8` renderbuffer is attached at both points, the flag is set, and the new status is returned |
| GLFrameBuffers.GLFrameBuffer.DeleteSeparate | Java/Loon-Neo/src/loon/opengl/GLFrameBuffer.java:221-228 | both separate renderbuffers are deleted and their handles reset to 0 |
| GLFrameBuffers.GLFrameBuffer.AttachPacked | Java/Loon-Neo/src/loon/opengl/GLFrameBuffer.java:236-239 | the packed renderbuffer is attached at the depth and at the stencil point |
| GLFrameBuffers.GLFrameBuffer.ReleaseAfterFailure | Java/Loon-Neo/src/loon/opengl/GLFrameBuffer.java:245-259 | the colour textures are released, the packed name is deleted as a buffer object or the separate renderbuffers are deleted, and the framebuffer is deleted |
| GLFrameBuffers.GLFrameBuffer.Close | Java/Loon-Neo/src/loon/opengl/GLFrameBuffer.java:276-295 | the textures, the renderbuffers in use and the framebuffer are deleted, and the buffer leaves the registry |
| GLFrameBuffers.GLFrameBuffer.Bind | Java/Loon-Neo/src/loon/opengl/GLFrameBuffer.java:297-299 | the buffer's framebuffer is bound |
| GLFrameBuffers.GLFrameBuffer.Unbind | Java/Loon-Neo/src/loon/opengl/GLFrameBuffer.java:301-303 | the default framebuffer is bound |
| GLFrameBuffers.GLFrameBuffer.Begin | Java/Loon-Neo/src/loon/opengl/GLFrameBuffer.java:313-320 | the buffer is bound and the viewport covers it |
| GLFrameBuffers.GLFrameBuffer.EndWithViewport | Java/Loon-Neo/src/loon/opengl/GLFrameBuffer.java:326-329 | the default framebuffer is bound and the viewport is the given rectangle |
| GLFrameBuffers.GLFrameBuffer.End | Java/Loon-Neo/src/loon/opengl/GLFrameBuffer.java:322-324 | the default framebuffer is bound and the viewport is the buffer's size |
| GLFrameBuffers.GLFrameBuffer.Clear | Java/Loon-Neo/src/loon/opengl/GLFrameBuffer.java:111-131 | the clear colour is set; one clear with `ClearMask` of the format is issued, none for `DEPTHSTENCIL_NONE` |
| GLFrameBuffers.GLFrameBuffer.ClearColorOnly | Java/Loon-Neo/src/loon/opengl/GLFrameBuffer.java:107-109 | the clear colour is set and no clear is issued |
| GLFrameBuffers.GLFrameBuffer.GetImageData | Java/Loon-Neo/src/loon/opengl/GLFrameBuffer.java:141-158 | fails when no framebuffer name is left or the index is out of range; null, with the temporary framebuffer left alive and bound, when it is incomplete; otherwise an image of the buffer's size read from that texture, with the temporary framebuffer deleted and the default one bound |
| GLFrameBuffers.GLFrameBuffer.GetTextureData | Java/Loon-Neo/src/loon/opengl/GLFrameBuffer.java:133-139 | the image of colour texture 0, its texture taken, with the failures of `getImageData` (a null image is an error) |
| GLFrameBuffers.Create | Java/Loon-Neo/src/loon/opengl/GLFrameBuffer.java:94-97 | a new framebuffer object built from the builder; success appends it to the registry with one colour texture; failure leaves the registry alone; the error is `NoTextureSpec` iff there is no texture spec |
| GLFrameBuffers.Invalidate | Java/Loon-Neo/src/loon/opengl/GLFrameBuffer.java:359-370 | over a duplicate-free registry (`Valid`): without a GL device nothing happens; otherwise the registered buffers are rebuilt in order until the first failure, whose position is reported; the buffers before it have one more texture and those after it are untouched |
| SpriteTree.GrandchildScreenPosition | Java/Loon-Neo/src/loon/action/sprite/Sprite.java:730-752 | a sprite two levels down is offset by the sum of both ancestors' positions |
| SpriteTree.AncestorSum | Java/Loon-Neo/src/loon/action/sprite/Sprite.java:730-752 | a sprite without a parent is at offset 0; when every sprite's coordinate is non-negative, so is the offset |
| SpriteTree.UpdateTrace | Java/Loon-Neo/src/loon/action/sprite/Sprite.java:519-531 | a sprite's update log is non-empty exactly when it is visible, then starts with its own animation update, and every call carries the given elapsed time |
| SpriteTree.UpdateChildren | Java/Loon-Neo/src/loon/action/sprite/Sprite.java:523-529 | every call of the loop over the children carries the given elapsed time |
| SpriteTree.SelfAdoptUnranked | Java/Loon-Neo/src/loon/action/sprite/Sprite.java:888-895 | after a sprite is added as its own child no height witness exists, so the scene's recursive traversals have no specification (Java's never end) |
| SpriteTree.Plain | Java/Loon-Neo/src/loon/action/sprite/Sprite.java:293-300 | a sprite at the given position with the given parent and no children |
| SpriteTree.UpdateOnlyVisible | Java/Loon-Neo/src/loon/action/sprite/Sprite.java:519-531 | `update` animates only visible sprites |
| SpriteTree.UpdateChildrenOnlyVisible | Java/Loon-Neo/src/loon/action/sprite/Sprite.java:523-529 | the loop over the children animates only visible sprites |
| SpriteTree.UpdateIgnoresAlpha | Java/Loon-Neo/src/loon/action/sprite/Sprite.java:519-531 | changing a sprite's alpha changes nothing that `update` does (update, unlike drawing, does not test alpha) |
| SpriteTree.UpdateChildrenIgnoreAlpha | Java/Loon-Neo/src/loon/action/sprite/Sprite.java:523-529 | the same for the loop over the children |
| SpriteTree.Draw | Java/Loon-Neo/src/loon/action/sprite/Sprite.java:637-728 | drawing changes the frame index of a sprite only by resetting it to 0 |
| SpriteTree.DrawChildren | Java/Loon-Neo/src/loon/action/sprite/Sprite.java:705-721 | the same for the loop over the children |
| SpriteTree.Culled | Java/Loon-Neo/src/loon/action/sprite/Sprite.java:638-643 | an invisible or fully transparent sprite is culled; a visible, opaque one is not |
| SpriteTree.CheckedIndex | Java/Loon-Neo/src/loon/action/sprite/Sprite.java:645-647 | the index is kept or reset to 0, is then at most `maxFrame` (for a non-negative `maxFrame`), and is kept whenever it does not exceed `maxFrame` |
| SpriteTree.ImageDraw | Java/Loon-Neo/src/loon/action/sprite/Sprite.java:684-704 | one draw call exactly when the index names a frame, of that frame's image for that sprite: a region when transformed, else at (nx, ny) |
| SpriteTree.FramingShape | Java/Loon-Neo/src/loon/action/sprite/Sprite.java:658-727 | a frame adds two calls (four when rotated or scaled) around the image and the children, opens with `saveTx` (or the alpha), closes with `restoreTx` (or the colour), and holds the children's calls unchanged |
| SpriteTree.FramingAlpha | Java/Loon-Neo/src/loon/action/sprite/Sprite.java:683 | after a frame the context's alpha is what the children's calls leave, starting from the sprite's alpha: `createUI` never restores it |
| SpriteTree.AlphaAfterAppend | Java/Loon-Neo/src/loon/action/sprite/Sprite.java:683 | the alpha after two logs is that of the second, started from the alpha the first leaves |
| SpriteTree.TxBalanceAppend | Java/Loon-Neo/src/loon/action/sprite/Sprite.java:663-726 | the save/restore balance of a log is additive over concatenation |
| SpriteTree.DrawBalanced | Java/Loon-Neo/src/loon/action/sprite/Sprite.java:658-727 | the whole subtree's log has as many `restoreTx` as `saveTx`, so the transform depth ends as it was |
| SpriteTree.DrawsBalanced | Java/Loon-Neo/src/loon/action/sprite/Sprite.java:684-704 | a log of image draws alone neither saves nor restores a transform |
| SpriteTree.FramedBalance | Java/Loon-Neo/src/loon/action/sprite/Sprite.java:658-727 | the frame around a sprite's drawing (alpha, save/restore when rotated or scaled, colour restore) adds nothing to the balance of the children's log |
| SpriteTree.DrawChildrenBalanced | Java/Loon-Neo/src/loon/action/sprite/Sprite.java:705-721 | the children's logs are balanced too |
| SpriteTree.TxLowAppend | Java/Loon-Neo/src/loon/action/sprite/Sprite.java:663-726 | the lowest depth of a concatenation is the lower of the first part's and the second part's shifted by the first's balance |
| SpriteTree.TxLowPrefix | Java/Loon-Neo/src/loon/action/sprite/Sprite.java:663-726 | no prefix of a log goes below the log's lowest depth |
| SpriteTree.FramedNesting | Java/Loon-Neo/src/loon/action/sprite/Sprite.java:658-727 | a frame whose children's log never drops below its start never drops below its own start: `saveTx` comes before the children, `restoreTx` after |
| SpriteTree.DrawNested | Java/Loon-Neo/src/loon/action/sprite/Sprite.java:658-727 | no prefix of `createUI`'s log has more `restoreTx` than `saveTx` |
| SpriteTree.DrawChildrenNested | Java/Loon-Neo/src/loon/action/sprite/Sprite.java:705-721 | the same for the loop over the children |
| SpriteTree.DrawMatched | Java/Loon-Neo/src/loon/action/sprite/Sprite.java:658-727 | every `saveTx` is matched by a later `restoreTx`: every prefix of the log has at least as many `saveTx` as `restoreTx`, and the whole log as many |
| SpriteTree.DrawnSpritesShow | Java/Loon-Neo/src/loon/action/sprite/Sprite.java:638-704 | every image drawn belongs to a visible sprite with alpha ≥ 0.01 and a non-empty animation, and is the image of one of its frames, for the starting sprite that of the frame the reset-checked index names; an image drawn with `draw` is at the sprite's coordinates plus the given offset for the starting sprite and plus its ancestors' sum for every other |
| SpriteTree.DrawnChildrenShow | Java/Loon-Neo/src/loon/action/sprite/Sprite.java:705-721 | the same for the loop over the children, every image one of its sprite's frames and at the sprite's coordinates plus its ancestors' sum |
| SpriteTree.ClosedSpriteSilent | Java/Loon-Neo/src/loon/action/sprite/Sprite.java:905-913 | after `close` on a sprite, neither `update` nor `createUI` animates or draws it |
| SpriteTree.InsertByLayer | Java/Loon-Neo/src/loon/action/sprite/Sprite.java:893-894 | the child list gains exactly the new child |
| SpriteTree.InsertKeepsSorted | Java/Loon-Neo/src/loon/action/sprite/Sprite.java:893-894 | inserting by layer into a list sorted by layer keeps it sorted |
| SpriteTree.SortedCons | Java/Loon-Neo/src/loon/action/sprite/Sprite.java:894 | a sprite whose layer is at most every other layer can head a sorted list |
| SpriteTree.SortByLayer | Java/Loon-Neo/src/loon/action/sprite/Sprite.java:894 | the sorted list is a permutation of the input, ordered by layer |
| SpriteTree.RemoveFirst | Java/Loon-Neo/src/loon/action/sprite/Sprite.java:901 | removing a child that is in the list drops exactly one occurrence; removing one that is not leaves the list alone |
| SpriteTree.SameLayersSorted | Java/Loon-Neo/src/loon/action/sprite/Sprite.java:892-894 | a list sorted by layer stays sorted when no layer changes |
| SpriteTree.Adopt | Java/Loon-Neo/src/loon/action/sprite/Sprite.java:888-895 | the child's parent becomes the sprite; the parent's list gains exactly the child and is sorted by layer; every other field of the child and of the parent is as before, also when a sprite adopts itself; no other sprite and no layer changes |
| SpriteTree.Disown | Java/Loon-Neo/src/loon/action/sprite/Sprite.java:897-902 | only the parent's child list changes, by removing the child once; its parent link stays |
| SpriteTree.CenterPlacement | Java/Loon-Neo/src/loon/action/sprite/Sprite.java:386-425 | `centerX`/`centerY` clamp at the far edge to `view − size − 1`, keep the coordinate when the centred position would be negative, and otherwise centre the sprite on it |
| SpriteTree.ScaledSize | Java/Loon-Neo/src/loon/action/sprite/Sprite.java:547-563 | -1 without an image; otherwise the scaled size cast down to a whole number |
| SpriteTree.Center | Java/Loon-Neo/src/loon/action/sprite/Sprite.java:386-425 | the result is the coordinate itself, the far-edge clamp, or a non-negative position that keeps the sprite inside the view |
| SpriteTree.FramesFor | Java/Loon-Neo/src/loon/action/sprite/Sprite.java:435-448 | frames are made iff `max` does not exceed the image count; then `max` = −1 takes every image, another negative `max` takes none, and otherwise the first `max` images, each with the timer |
| Sprites.Graphics.SaveTx | Java/Loon-Neo/src/loon/action/sprite/Sprite.java:664 | one transform is pushed and the call logged |
| Sprites.Graphics.RestoreTx | Java/Loon-Neo/src/loon/action/sprite/Sprite.java:725 | one transform is popped and the call logged |
| Sprites.Graphics.SetAlpha | Java/Loon-Neo/src/loon/action/sprite/Sprite.java:683 | the alpha becomes the argument and the call is logged |
| Sprites.Graphics.SetColor | Java/Loon-Neo/src/loon/action/sprite/Sprite.java:723 | the colour becomes the argument and the call is logged |
| Sprites.Graphics.Draw | Java/Loon-Neo/src/loon/action/sprite/Sprite.java:687-701 | one image draw is logged |
| Sprites.AddFrames | Java/Loon-Neo/src/loon/action/sprite/Sprite.java:435-448 | the frame loop yields exactly `FramesFor`, and fails where Java would index past the image array |
| Sprites.ChildStep | Java/Loon-Neo/src/loon/action/sprite/Sprite.java:705-721 | the log of the children from position k is child k's log followed by the rest |
| Sprites.DrawCulled | Java/Loon-Neo/src/loon/action/sprite/Sprite.java:638-643 | an invisible or transparent sprite draws nothing and keeps its frame index |
| Sprites.DrawNoImage | Java/Loon-Neo/src/loon/action/sprite/Sprite.java:645-653 | a sprite whose non-empty animation has no image for the current frame draws nothing; only the frame reset remains |
| Sprites.DrawUnfolds | Java/Loon-Neo/src/loon/action/sprite/Sprite.java:645-727 | otherwise a sprite's log is its frame (alpha, optional save, image, children, colour, optional restore) around its children's log |
| Sprites.Scene.Empty | Java/Loon-Neo/src/loon/action/sprite/Sprite.java:293-300 | a scene with no sprites |
| Sprites.Scene.AddSprite | Java/Loon-Neo/src/loon/action/sprite/Sprite.java:293-300 | succeeds iff the frame loop succeeds; the new sprite is visible, at the given position, with no parent or children, the frames `FramesFor` gives and frame index 0; on failure the scene is unchanged |
| Sprites.Scene.SetAnimation | Java/Loon-Neo/src/loon/action/sprite/Sprite.java:484-486 | only the sprite's `maxFrame` changes; its frames stay; the loop fails iff `max` exceeds the image count |
| Sprites.Scene.AddChild | Java/Loon-Neo/src/loon/action/sprite/Sprite.java:888-895 | the scene becomes `Adopt` of the old one |
| Sprites.Scene.RemoveChild | Java/Loon-Neo/src/loon/action/sprite/Sprite.java:897-902 | the scene becomes `Disown` of the old one |
| Sprites.Scene.Close | Java/Loon-Neo/src/loon/action/sprite/Sprite.java:905-913 | only the sprite's visibility changes, to false |
| Sprites.Scene.ScreenCoord | Java/Loon-Neo/src/loon/action/sprite/Sprite.java:730-752 | the loop up the parent chain returns the sum of the ancestors' coordinates |
| Sprites.Scene.Update | Java/Loon-Neo/src/loon/action/sprite/Sprite.java:519-531 | the calls made are exactly `UpdateTrace` of the subtree |
| Sprites.Scene.CreateUI | Java/Loon-Neo/src/loon/action/sprite/Sprite.java:637-728 | the calls made and the new frame indices are exactly those `Draw` specifies; the context's colour and transform depth are as before; its alpha is not restored but left at the last `setAlpha` of those calls (`AlphaAfter`), or as before when there is none |
| Sprites.Scene.ResetFrame | Java/Loon-Neo/src/loon/action/sprite/Sprite.java:645-647 | a frame index past `maxFrame` is reset to 0; nothing else changes |
| Sprites.Scene.DrawChecked | Java/Loon-Neo/src/loon/action/sprite/Sprite.java:648-727 | after the reset, the drawing is as `Draw` specifies, and the alpha is left as `AlphaAfter` of its calls |
| Sprites.Scene.DrawFramed | Java/Loon-Neo/src/loon/action/sprite/Sprite.java:655-727 | a sprite past the image check is drawn as `Draw` specifies, and the alpha is left as `AlphaAfter` of its calls |
| Sprites.Scene.DrawShown | Java/Loon-Neo/src/loon/action/sprite/Sprite.java:655-727 | a sprite with an image (or an empty animation) is drawn as its frame around its children's log; the alpha is left as `AlphaAfter` of that frame |
| Sprites.Scene.OpenFrame | Java/Loon-Neo/src/loon/action/sprite/Sprite.java:658-683 | a rotated or scaled sprite saves a transform; then the alpha is set, and the context holds the sprite's alpha |
| Sprites.Scene.CloseFrame | Java/Loon-Neo/src/loon/action/sprite/Sprite.java:722-727 | the colour is restored, then a rotated or scaled sprite restores its transform |
| Sprites.Scene.DrawImageOf | Java/Loon-Neo/src/loon/action/sprite/Sprite.java:684-704 | the current frame's image is drawn: with `draw` at the float position when the transform is `TRANS_NONE`, with `drawRegion` at the position cast to int otherwise, and not at all when the index names no frame |
| Sprites.Scene.DrawChildList | Java/Loon-Neo/src/loon/action/sprite/Sprite.java:705-721 | the loop over the children makes exactly the calls `DrawChildren` specifies, and leaves the alpha at the last one those calls set |
| Sprites.Scene.DrawChild | Java/Loon-Neo/src/loon/action/sprite/Sprite.java:706-719 | one child is drawn at the sum of its ancestors' positions; the alpha after the rest of the loop is what it would have been from the start of this pass |

`GLFrameBuffers.GLFrameBuffer.Build` states what happens from the state before
the call (`Before`), stage by stage:
- `Fresh`: the framebuffer gets the next name.
- `SeparateMade`: the depth and stencil renderbuffers are made as requested, with the builder's size and format.
- `ColorTextureMade`: colour texture 0 is made from the first spec.
- `Configured`:
  - what is attached first;
  - whether it fell back to the packed renderbuffer (`FellBack`), only when the first status is `GL_FRAMEBUFFER_UNSUPPORTED` and both separate renderbuffers were requested;
  - the final status.
- `Built`: on `GL_FRAMEBUFFER_COMPLETE` the buffer is registered and keeps everything it made. Otherwise the error comes from `ErrorOf` and everything is released, except the renderbuffers that the `glDeleteBuffer` call misses.

Without a texture spec the result is `Err(NoTextureSpec)`: nothing is registered, and the new framebuffer stays bound.

## Left out

- GLFrameBuffers.GLFrameBuffer.Build: requires the device to have names left. `build` never checks `glGenFramebuffer`/`glGenRenderbuffer` for 0, and how OpenGL treats name 0 there is not modelled. `Rebuild`, `Prepare`, `Create` and `Invalidate` require the same.
- GLFrameBuffers.GLFrameBuffer.Build: with an empty texture-spec list, Java's `textureAttachmentSpecs.first()` yields null and the next call throws a null-pointer exception. The model returns `Err(NoTextureSpec)` at that point.
- GLFrameBuffers.GLFrameBuffer.Rebuild: states only that the registry is unchanged and that success adds one colour texture. The full outcome is what `Build` states. Repeating it for a buffer already in the registry is not done.
- GLFrameBuffers.AddIfAbsent / Remove / Globals.AddFrameBuffer / RemoveFrameBuffer: the registry behind `LSystem.addFrameBuffer`, `LSystem.removeFrameBuffer` and `getFrameBufferAll` is assumed to behave as a set: adding a registered buffer does nothing, and removing drops it. `LSystem` is not part of this model. The model keeps this as the invariant `Globals.Valid` (no duplicates). If `addFrameBuffer` were a plain append, every `build` inside `invalidate` (GLFrameBuffer.java:367-369) would add its buffer again at the end (GLFrameBuffer.java:272). The loop bound `bufferArray.size` would then grow with each pass, and `invalidate` would never end.
- GLFrameBuffers.Invalidate: states the registry, the position of the first failure and the texture count of each buffer, but not each rebuild's full device state. The `getFrameBufferAll() == null` case is not modelled, because the registry always exists here.
- The completeness status is an oracle of the device. `GLUtils.isFrameBufferCompleted` is modelled as the status being `GL_FRAMEBUFFER_COMPLETE`.
- Pixel contents are not modelled: `GLUtils.getFrameBuffeImage`, what is drawn into a framebuffer, and the `flip`/`alpha` read-back options, which are only recorded in the image.
- iOS's `glGetIntegerv(GL_FRAMEBUFFER_BINDING)` is modelled as the framebuffer bound at that moment.
- `getFramebufferHandle` and the other one-line getters are not modelled, and neither are `clearAllFrameBuffers` or the `FrameBufferBuilder`/`FrameBuffer` subclass code beyond `createTexture`, `disposeColorTexture` and `attachFrameBufferColorTexture`. Those three hooks are device operations here.
- OpenGL errors (`glGetError`) and the exception message texts are not modelled. Failures are `Result` values naming the cause.
- Sprite: `setAnimation(Animation)`, the file-name overloads of `setAnimation` and `TextureUtils.getSplitTextures` are not modelled. Neither is `Animation`'s own timing (`Animation.update`). An animation is its frame list and a current index: the current image exists iff the index is in range, and `reset` sets the index to 0.
- Sprite: `Animation.close` and `image.close` (texture release in `close`), and the cached `image` field.
- Sprite: `childSorter` (`LayerSorter`) is modelled as a stable ascending sort by layer. Its source is not part of this model.
- SpriteTree.AncestorSum / UpdateTrace / Draw / Sprites.Scene.ScreenCoord / Update / CreateUI: require a scene without cycles, witnessed by the ranks `depth` and `height`. Java's `addChild` does not refuse a cycle: `a.addChild(a)`, or `a.addChild(b)` after `b.addChild(a)`, is accepted. In that state Java's `update` and `createUI` recurse until the stack overflows, and `getScreenX`/`getScreenY` loop forever up the parent chain. `Scene.AddChild` accepts such a call as Java does, but from then on the scene has no ranks (`SelfAdoptUnranked`), so the model does not describe those calls.
- Sprite: null entries of `_childList` are not modelled, since the model's child lists hold only existing sprites. A `_childList` that was never created is the empty list.
- Sprite: the affine arithmetic of `createUI` (scaling and rotation centres, pivots, `filterColor`) is not modelled. The model records whether a transform is saved and which draw call is made with which position.
- Sprite: `LTrans` is modelled as the flag `transformed` (transform differs from `TRANS_NONE`).
- Sprite: `getContainerWidth`/`getContainerHeight` and the `LObject` defaults are not modelled. New sprites have alpha 1 and layer 0.
- Sprite: `onUpdate` is a hook for subclasses. The model records each call in the update log next to the animation update.
- Sprite: getScreenX/getScreenY, centerX/centerY and getWidth/getHeight are modelled by `Scene.ScreenCoord`, `CenterPlacement` and `ScaledSize`. `LSystem.viewSize` is a parameter.
- FadeEffect: its colour and the tint `repaint` sets, `super.close()`, and the `(type, colour)` constructor with its default delay 120 and the viewport size (a global) are not modelled. `repaint` is modelled as the rectangle it fills.
- FadeEffect: `currentFrame` is a `float` counted in whole steps. It is modelled as an integer, which is exact as long as the counter stays within the float's range of consecutive integers.
- LLabel: fonts are modelled as their metrics: string width, height and size of the one label text. `LSTRDictionary.bind`, the font-size constructor, and `createUI`'s other parameters are not modelled.
- JavaNumeric.TruncToZero / Alignments.AlignX / AlignY / SpriteTree.Center / ScaledSize / Labels.InitialSize: Java's 32-bit `int` is modelled as an unbounded integer. So the model does not capture how `(int)` saturates at `Integer.MIN_VALUE`/`Integer.MAX_VALUE` for a double outside that range (Alignment.java:157, 161; Sprite.java:387-389, 553, 562). Nor does it capture how `int` sums wrap around, as in `font.stringWidth(text) + 3` (LLabel.java:151). Within the `int` range, the model and Java agree.
- Alignment: `Dimension` and `Vector2f` are modelled as pairs of reals, so Java's float rounding is not modelled.
- Concurrency, the game loop and `LSystem`'s other state are outside this model.
