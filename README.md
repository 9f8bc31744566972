# manim camera bookkeeping, modelled in Dafny

This project models the core of manim's camera (`manimlib/camera/camera.py`):

- **`CameraFrame` Euler angles.** The frame stores its Euler angles `(theta, phi, gamma)` in a mutable array and keeps a rotation matrix that always belongs to the stored triple. The matrix is refreshed by every angle mutator.
- **`CameraFrame` geometry.** The frame's five points give its center, width, height and focal distance.
- **`Camera` texture cache.** It maps each image path to a texture id and an uploaded texture. A counter hands out ids in sequence and never reuses one.
- **`Camera` program cache.** It compiles a shader program once per program id. It starts with the null id `""` mapped to `None`.
- **`Camera` render groups.** A render group holds a vertex buffer, an optional index buffer, a vertex array, the program, the shader wrapper and the `single_use` flag.
- **`Camera` static render index.** It maps a drawable's identity to a list of persistent render groups. The list keeps Python's dictionary insertion order.
- **`Camera` capture protocol.** The perspective uniforms are refreshed once. Then each drawable's groups are rendered in order. Rendering a group means binding textures and uniforms, switching the depth test, drawing, and releasing the group at once if it is single-use.
- **`Camera` arithmetic.** This covers the anti-alias width and the frame size that `resize_frame_shape` aims for.

The graphics context (moderngl) is modelled as a handle allocator with an event log. Every buffer, vertex array, program and texture it creates gets a fresh handle. Every release, texture binding, uniform assignment, depth-test switch and draw is appended to the log. "Released", "drawn in this order" and "holds this uniform value" are functions of that log.

The invariants (`CameraSpec.Consistent`) are: the null program id maps to `None`; every cached texture id is below the texture counter; the static index has distinct keys; and every static group is persistent, with all its handles handed out before the next free handle. The last one is what makes a capture unable to release a static group.

Modules:

- **`Wrappers`, `Dict`.** `Option`, and Python's insertion-ordered dictionary as an association list with distinct keys.
- **`Gl`.** The graphics context: the `Context` class, its event log, and what a log has released, drawn and bound.
- **`Shader`.** Shader wrappers, drawables, and the `astype('i4').tobytes()` encoding of vertex indices.
- **`Frame`.** The `CameraFrame` class over an `array<real>` of Euler angles, plus the frame geometry as functions.
- **`Perspective`.** The anti-alias width, the resize target and the perspective uniforms.
- **`CameraSpec`.** The camera's bookkeeping as a value, with one function per operation. An operation that can raise returns the error and the state the exception leaves behind.
- **`CameraLemmas`.** The properties that relate several operations.
- **`CameraImpl`.** The `Camera` class. Its caches and index are fields that its methods update in place, and each method is proved to match its `CameraSpec` function.

Behaviour taken from the code:

- **Lazy `map`.** `get_render_group_list` returns a lazy `map` for a drawable that is not static. So during `capture`, each fresh group is built, drawn and released before the next one is built.
- **Null program.** `get_render_group` for the null program id creates its vertex and index buffers first. It then unpacks the cached `None` into a program and a vertex format, which raises `TypeError` before any vertex array is asked for. The model returns `NoProgram` and leaves those buffers unreleased.
- **Unknown texture name.** Texture binding in `set_shader_uniforms` has no `try`. A texture name the program does not declare therefore raises (`UnknownTextureUniform`), after the texture has been cached. Ordinary uniforms the program lacks are skipped. When this happens to a fresh group during `capture`, the group has already been built and `release_render_group` is never reached, so its buffers and vertex array stay unreleased (`CameraLemmas.UnknownTextureLeaks`).
- **phi range.** phi is kept in `[0, PI]` only by `increment_phi`, which clips. `set_euler_angles`, `reorient` and `set_phi` store any value, so the model does not claim that phi is always in that range.

## Model

| member | source | states |
|---|---|---|
| Frame.Clip | manimlib/camera/camera.py:120 | `clip` returns a value in `[lo, hi]`: the input unchanged when it already lies there, `lo` for a value below the range and `hi` for one above it |
| Frame.IncrementedPhiInRange | manimlib/camera/camera.py:117-123 | after one or more `increment_phi` calls, phi lies in `[0, PI]` whatever the deltas |
| Frame.PhiSaturatesAtPi | manimlib/camera/camera.py:117-123 | from `PI`, any run of non-negative increments leaves phi at `PI` |
| Frame.PhiSaturatesAtZero | manimlib/camera/camera.py:117-123 | from 0, any run of non-positive increments leaves phi at 0 |
| Frame.InitialPoints | manimlib/camera/camera.py:37-41 | the initial five points have the configured center, width and height |
| Frame.FocalDistance | manimlib/camera/camera.py:148-150 | `get_focal_distance` divided by a non-zero height gives back the configured ratio |
| Frame.ShapeUnderShift | manimlib/camera/camera.py:131-146 | moving the frame moves `get_center` by the offset and keeps `get_shape` |
| Frame.ShapeUnderStretchX | manimlib/camera/camera.py:140-146 | stretching along x scales `get_width` by the factor and keeps `get_height` |
| Frame.ShapeUnderStretchY | manimlib/camera/camera.py:140-146 | stretching along y scales `get_height` by the factor and keeps `get_width` |
| Frame.FocalDistanceUnderStretch | manimlib/camera/camera.py:148-150 | `get_focal_distance` scales with the frame height under a vertical stretch and is unchanged by a horizontal one |
| Frame.CameraFrame.constructor | manimlib/camera/camera.py:32-41 | the angles are the configured triple, the matrix belongs to them, and the points have the configured shape and center |
| Frame.CameraFrame.RefreshRotationMatrix | manimlib/camera/camera.py:58-66 | the stored matrix becomes the rotation of the stored triple; the angles and points are untouched |
| Frame.CameraFrame.SetEulerAngles | manimlib/camera/camera.py:84-93 | each supplied angle becomes `value * units`, each omitted angle keeps its value, and the matrix belongs to the new triple |
| Frame.CameraFrame.Reorient | manimlib/camera/camera.py:95-100 | the same partial update with `units = DEGREES` |
| Frame.CameraFrame.SetTheta | manimlib/camera/camera.py:102-103 | only theta changes, to the given value |
| Frame.CameraFrame.SetPhi | manimlib/camera/camera.py:105-106 | only phi changes, to the given value, which is not clipped |
| Frame.CameraFrame.SetGamma | manimlib/camera/camera.py:108-109 | only gamma changes, to the given value |
| Frame.CameraFrame.IncrementTheta | manimlib/camera/camera.py:111-115 | theta grows by exactly the delta; phi and gamma are unchanged |
| Frame.CameraFrame.IncrementPhi | manimlib/camera/camera.py:117-123 | phi becomes `clip(phi + dphi, 0, PI)` and so lies in `[0, PI]`; theta and gamma are unchanged |
| Frame.CameraFrame.IncrementGamma | manimlib/camera/camera.py:125-129 | gamma grows by exactly the delta; theta and phi are unchanged |
| Frame.CameraFrame.ToDefaultState | manimlib/camera/camera.py:43-49 | all three angles become 0, the matrix belongs to them, and the points are the reset ones |
| Shader.WrapI32 | manimlib/camera/camera.py:399 | `astype('i4')` gives a signed 32-bit value congruent to the index modulo 2^32 |
| Shader.EncodeI4 | manimlib/camera/camera.py:399 | the index bytes are four per index |
| Shader.I4RoundTrip | manimlib/camera/camera.py:399 | the four bytes of an index read back as its 32-bit value |
| Shader.DecodeEncodeI4 | manimlib/camera/camera.py:399 | decoding the index bytes gives back every index, wrapped to 32 bits |
| Shader.EncodeI4Empty | manimlib/camera/camera.py:399-403 | the index bytes are empty exactly when there are no indices, which is when no index buffer is made |
| Dict.Lookup | manimlib/camera/camera.py:379-382 | the lookup misses exactly when the key is absent, and a hit returns a stored entry |
| Dict.Put | manimlib/camera/camera.py:433 | assigning an existing key keeps the key order, assigning a new key appends it, and keys stay distinct |
| Dict.LookupPut | manimlib/camera/camera.py:433 | after `d[k] = v`, `d[k]` is `v` and every other key reads as before |
| Gl.Context.NewObject | manimlib/camera/camera.py:395-411 | each `ctx.buffer`, `ctx.vertex_array`, `ctx.program` or `ctx.texture` gets the next unused handle and is logged |
| Gl.Context.ReleaseObject | manimlib/camera/camera.py:425 | `release()` is logged, and nothing else changes |
| Gl.Context.UseTextureAt | manimlib/camera/camera.py:511 | `texture.use(location=tid)` is logged with the texture and the location, and nothing else changes |
| Gl.Context.AssignUniform | manimlib/camera/camera.py:465-470 | `shader[name].value = value` is logged with the program, the name and the value, and nothing else changes |
| Gl.Context.EnableDepthTest | manimlib/camera/camera.py:371-375 | the depth-test flag takes the given value and the switch is logged |
| Gl.Context.Render | manimlib/camera/camera.py:367 | the draw is logged with the vertex array, the primitive and the depth-test flag in force |
| Gl.UniformAtAppend | manimlib/camera/camera.py:470 | a uniform holds the last value assigned to it: later assignments win over earlier ones |
| Gl.UniformAtUnaffected | manimlib/camera/camera.py:461-472 | events that assign nothing to a program's uniform leave the value it holds unchanged |
| Perspective.AntiAliasWidth | manimlib/camera/camera.py:481 | the width in frame units times `ph / fh` gives back the configured width in pixels |
| Perspective.ResizeTarget | manimlib/camera/camera.py:345-349 | the target frame has the pixel aspect ratio (`w * ph == h * pw`) and keeps the fixed dimension |
| Perspective.ResizeSquarePixels | manimlib/camera/camera.py:345-349 | with equal pixel counts and the width fixed, the target frame is square |
| Perspective.MatVec | manimlib/camera/camera.py:485 | `np.dot(rotation, light_pos)` keeps every vector under the identity and keeps the origin under every matrix |
| Perspective.FlattenTransposed | manimlib/camera/camera.py:491 | `tuple(np.array(m).T.flatten())` reads the matrix column by column: entry `(i, j)` sits at position `3j + i` of the nine values |
| Perspective.PerspectiveUniforms | manimlib/camera/camera.py:474-494 | six uniforms in source order (`frame_shape`, `anti_alias_width`, `camera_center`, `camera_rotation` holding the rotation column by column, `light_source_position`, `focal_distance`); the frame shape, center and focal distance are read off the frame, the anti-alias width times `ph / fh` gives back the configured width, the light position is the rotation applied to the light source, which under the identity rotation is the light source itself |
| CameraSpec.Initial | manimlib/camera/camera.py:203-207 | the program cache holds only `"" ↦ None`, there are no textures, the counter is 0 and the static index is empty |
| CameraSpec.TextureRequest | manimlib/camera/camera.py:500-513 | the path ends up cached under the returned id; for a new path, exactly one texture is created at the next handle and bound at the new id (`texture.use(location=tid)`), and the entry holds that texture; nothing is released, drawn or uncached; the invariants are kept |
| CameraSpec.TextureRelease | manimlib/camera/camera.py:515-520 | for a present path, the entry is removed and one release of its texture is appended to the log, and nothing else changes (handle counter, depth test, texture counter, caches, static index); an absent path changes nothing |
| CameraSpec.ProgramLookup | manimlib/camera/camera.py:450-459 | a cached id returns its entry with no change; a missing id is compiled to a new handle and cached; no entry is lost |
| CameraSpec.IndexBuffer | manimlib/camera/camera.py:396-403 | an index buffer is created exactly when there are indices with non-empty bytes |
| CameraSpec.DataBuffers | manimlib/camera/camera.py:395-403 | a vertex buffer is created, then an index buffer exactly when there are index bytes, each with the next handle; only the context changes |
| CameraSpec.BuildGroup | manimlib/camera/camera.py:384-419 | succeeds exactly when the program id is uncached or cached with a program; the group's vbo, ibo (if any) and vao are handed out by this call in that order, with an ibo exactly when there are index bytes; it has the cached program and the given wrapper and flag; fails with `NoProgram` otherwise; releases and draws nothing |
| CameraSpec.ReleaseHandles | manimlib/camera/camera.py:423-425 | exactly the non-`None` handles are released, and only releases are logged |
| CameraSpec.ReleaseGroup | manimlib/camera/camera.py:421-425 | exactly the group's vbo, ibo (if any) and vao are released, at least one release is logged, and nothing else changes |
| CameraSpec.BindUniform | manimlib/camera/camera.py:467-472 | a declared name then holds the item's value; an undeclared name is skipped, as the `KeyError` is caught; every other name keeps its value |
| CameraSpec.BindUniforms | manimlib/camera/camera.py:466-472 | only assignments to names the program declares are logged; undeclared names are skipped |
| CameraSpec.BindTextures | manimlib/camera/camera.py:463-465 | succeeds exactly when every texture name is declared, and then every path is cached; otherwise fails with an undeclared name; paths already cached keep their id and texture |
| CameraSpec.BindTexturesOthers | manimlib/camera/camera.py:463-465 | a name that no texture entry uses keeps the value it held |
| CameraSpec.BindTexturesValues | manimlib/camera/camera.py:463-465 | on success, each texture name that no later entry reuses holds the cache id of its path |
| CameraSpec.SetShaderUniforms | manimlib/camera/camera.py:461-472 | succeeds exactly when every texture name is declared, and then every texture path is cached; paths already cached keep their id; releases and draws nothing; keeps the invariants |
| CameraSpec.DrawGroup | manimlib/camera/camera.py:366-367 | the depth test is set from the wrapper, and the draw is logged with that flag |
| CameraSpec.DrawAndRelease | manimlib/camera/camera.py:366-369 | the group's vao is drawn once; its handles are released after the draw exactly when it is single-use |
| CameraSpec.RenderOne | manimlib/camera/camera.py:361-369 | succeeds exactly when every texture name is declared; on success the draws grow by the group's vao; the group's handles are released exactly when it rendered and is single-use |
| CameraSpec.RenderGroups | manimlib/camera/camera.py:358-359 | rendering a list keeps the static index, the perspective uniforms and the invariants |
| CameraSpec.RenderGroupsDraws | manimlib/camera/camera.py:358-359 | rendering a list successfully draws its vertex arrays in list order |
| CameraSpec.RenderFresh | manimlib/camera/camera.py:382 | building and rendering one fresh group at a time keeps the static index, the perspective uniforms and the invariants |
| CameraSpec.RenderFreshDraws | manimlib/camera/camera.py:358-382 | on success, each wrapper gets one new single-use group, in wrapper order; the groups' handles are all handed out during the render and no two groups share one; the draws grow by exactly their vertex arrays, in order; every handle of every group is released by the end |
| CameraSpec.RenderFreshReleasesExactly | manimlib/camera/camera.py:358-382 | rendering a non-static drawable releases exactly the handles of the fresh groups it built and drew; a group whose texture binding raises stays unreleased |
| CameraSpec.RenderFreshHandlesNew | manimlib/camera/camera.py:382-400 | every handle of a fresh group is handed out during the render, so none belongs to a group built earlier |
| CameraSpec.RenderMobjectReleases | manimlib/camera/camera.py:357-382 | rendering one drawable releases exactly its fresh groups' handles, all new; a static drawable's render releases nothing |
| CameraSpec.RenderMobjectsReleases | manimlib/camera/camera.py:357-382 | rendering a list of drawables releases exactly the handles of the groups rendered for the non-static ones, all handed out during the render |
| CameraSpec.StaticNotReleased | manimlib/camera/camera.py:366-369 | releasing only handles handed out after the static groups were built leaves every static group's handles unreleased |
| CameraSpec.CaptureReleases | manimlib/camera/camera.py:354-382 | for any mix of drawables, a capture releases exactly the fresh groups' handles and none of a static group's |
| CameraSpec.RenderMobject | manimlib/camera/camera.py:358-382 | keeps the static index, the perspective uniforms and the invariants; on success the draws grow by exactly the vertex arrays of the drawable's groups, in order; for a drawable that is not static those are new single-use groups, one per wrapper, each released by the end |
| CameraSpec.RenderMobjects | manimlib/camera/camera.py:357-359 | keeps the static index and the invariants; on success the draws are each drawable's groups in turn, in drawable order and within a drawable in list order |
| CameraSpec.Capture | manimlib/camera/camera.py:354-359 | capture leaves the freshly computed perspective uniforms and the same static index; on success the draws are each drawable's groups in turn, in drawable order and within a drawable in list order; for a consistent state, the handles released are exactly those of the groups rendered for non-static drawables, and no handle of any static group is released |
| CameraSpec.BuildGroups | manimlib/camera/camera.py:433-436 | on success, one group per wrapper in order with the given flag; every group's vbo, ibo (if any) and vao are handed out by this call, each group's before the next group's, so no two groups share a handle |
| CameraSpec.SetStatic | manimlib/camera/camera.py:427-436 | apart from the static index, only creates objects and caches programs: the texture cache and counter, the perspective uniforms and the depth test are unchanged, nothing is drawn or released (replaced entries leak), and the invariants are kept |
| CameraSpec.ReleaseGroups | manimlib/camera/camera.py:441-442 | releases exactly the handles of every group in the list |
| CameraSpec.ReleaseEntries | manimlib/camera/camera.py:440-442 | releases exactly the handles of every group of every entry |
| CameraSpec.ReleaseStatic | manimlib/camera/camera.py:438-443 | every handle of the index is released and the index is left empty; only releases are logged, and nothing else changes (handle counter, depth test, caches, uniforms) |
| CameraLemmas.TextureRequestRepeat | manimlib/camera/camera.py:500-513 | a repeated request returns the same id and changes nothing |
| CameraLemmas.TextureRequestFresh | manimlib/camera/camera.py:502-504 | a new path gets the counter's value, above every cached id, and the counter grows by one |
| CameraLemmas.TextureIdsStayDistinct | manimlib/camera/camera.py:500-520 | requests and releases keep cached texture ids pairwise distinct |
| CameraLemmas.ReacquireAfterRelease | manimlib/camera/camera.py:500-520 | after a release, a new request for the path gets a strictly larger id and uploads a new texture |
| CameraLemmas.ProgramCompiledOnce | manimlib/camera/camera.py:450-459 | wrappers with the same program id get the identical entry, and the second lookup changes nothing |
| CameraLemmas.NullProgramFails | manimlib/camera/camera.py:446-459 | the null id is never compiled; a group for it fails after allocating buffers that stay unreleased |
| CameraLemmas.UnknownTextureLeaks | manimlib/camera/camera.py:358-382 | a fresh group whose wrapper names a texture its program does not declare is built, its render raises before it is released, the capture stops, and nothing is released |
| CameraLemmas.LastValueAppend | manimlib/camera/camera.py:466 | in the chained items, a later value for a name wins over an earlier one |
| CameraLemmas.BindUniformsValue | manimlib/camera/camera.py:466-472 | after the loop, a declared name holds the last value the items give it; any other name keeps its old value |
| CameraLemmas.PerspectiveOverrides | manimlib/camera/camera.py:461-472 | a declared name that the perspective uniforms set holds the perspective value, even if the wrapper sets it too |
| CameraLemmas.WrapperUniformApplied | manimlib/camera/camera.py:461-472 | a declared name that only the wrapper sets holds the wrapper's value |
| CameraLemmas.TextureUniformBound | manimlib/camera/camera.py:461-472 | a texture name that no later entry reuses, and that neither the wrapper's nor the perspective uniforms set, holds its path's cache id after `set_shader_uniforms` |
| CameraLemmas.RenderOneSequence | manimlib/camera/camera.py:361-375 | after the uniforms come the depth-test switch and the draw, made with the wrapper's depth-test flag; after the draw only releases follow, and they happen exactly when the group is single-use |
| CameraSpec.RenderGroupsKeep | manimlib/camera/camera.py:368-369 | rendering groups that are not single-use releases nothing |
| CameraLemmas.RenderFreshReleases | manimlib/camera/camera.py:377-382 | every fresh group drawn for a non-static drawable is released by the end |
| CameraLemmas.RenderStaticKeeps | manimlib/camera/camera.py:357-369 | rendering static drawables releases nothing |
| CameraLemmas.CaptureStatic | manimlib/camera/camera.py:354-380 | a capture of static drawables renders each one's stored groups, in drawable order, and releases none of them |
| CameraLemmas.CaptureFresh | manimlib/camera/camera.py:354-382 | a capture of non-static drawables releases everything it draws |
| CameraLemmas.RenderMobjectsGroups | manimlib/camera/camera.py:357-382 | rendering drawables successfully renders, for each one, its stored entry if it is static, and otherwise new single-use groups, one per wrapper, each released by the end |
| CameraLemmas.CaptureDraws | manimlib/camera/camera.py:354-382 | for any mix of static and other drawables, the draws are each drawable's groups in turn: the stored entry of a static drawable, otherwise one new single-use group per wrapper, released by the end of the capture |
| CameraLemmas.SetStaticOthers | manimlib/camera/camera.py:432-436 | the entry of an id that none of the drawables has is unchanged |
| CameraLemmas.SetStaticEntries | manimlib/camera/camera.py:432-436 | each drawable's entry (the last one assigned for its id) holds one persistent group per wrapper, in order, all built during the call |
| CameraLemmas.SetStaticReplaces | manimlib/camera/camera.py:427-436 | re-registering a static drawable replaces its groups with ones sharing no handle with the old ones, and the old ones are not released (they leak) |
| CameraLemmas.SetStaticPersistent | manimlib/camera/camera.py:427-436 | the static index only ever holds groups that are not single-use |
| CameraLemmas.ReleaseStaticReleasesAll | manimlib/camera/camera.py:438-443 | every handle of every group of every entry is released, and the index is left empty |
| CameraImpl.Camera.constructor | manimlib/camera/camera.py:186-207 | the state is the initial one with the frame's perspective uniforms, and the invariants hold |
| CameraImpl.Camera.GetTextureId | manimlib/camera/camera.py:500-513 | returns and leaves exactly what `TextureRequest` describes |
| CameraImpl.Camera.ReleaseTexture | manimlib/camera/camera.py:515-520 | leaves exactly what `TextureRelease` describes |
| CameraImpl.Camera.GetShaderProgram | manimlib/camera/camera.py:450-459 | returns and leaves exactly what `ProgramLookup` describes |
| CameraImpl.Camera.GetRenderGroup | manimlib/camera/camera.py:384-419 | returns (or fails) and leaves exactly what `BuildGroup` describes |
| CameraImpl.Camera.ReleaseRenderGroup | manimlib/camera/camera.py:421-425 | the loop over vbo, ibo, vao leaves exactly what `ReleaseGroup` describes |
| CameraImpl.Camera.SetShaderUniforms | manimlib/camera/camera.py:461-472 | both loops together leave exactly what `SetShaderUniforms` describes, including its error |
| CameraImpl.Camera.UpdateDepthTest | manimlib/camera/camera.py:371-375 | the depth test takes the wrapper's flag |
| CameraImpl.Camera.Render | manimlib/camera/camera.py:361-369 | leaves exactly what `RenderOne` describes |
| CameraImpl.Camera.RenderMobject | manimlib/camera/camera.py:358-382 | the inner loop of `capture` over `get_render_group_list` leaves exactly what `RenderMobject` describes |
| CameraImpl.Camera.RefreshPerspectiveUniforms | manimlib/camera/camera.py:474-494 | the perspective uniforms are recomputed from the frame, and nothing else changes |
| CameraImpl.Camera.Capture | manimlib/camera/camera.py:354-359 | leaves exactly what `Capture` describes, with the uniforms computed from the frame, and keeps the invariants |
| CameraImpl.Camera.ResizeFrameShape | manimlib/camera/camera.py:341-349 | returns the target shape `ResizeTarget` gives for the viewport and the current frame |
| CameraImpl.Camera.GetStaticRenderGroups | manimlib/camera/camera.py:433-436 | the comprehension leaves exactly what `BuildGroups` describes |
| CameraImpl.Camera.SetMobjectsAsStatic | manimlib/camera/camera.py:427-436 | leaves exactly what `SetStatic` describes |
| CameraImpl.Camera.ReleaseRenderGroups | manimlib/camera/camera.py:441-442 | leaves exactly what `ReleaseGroups` describes |
| CameraImpl.Camera.ReleaseStaticMobjects | manimlib/camera/camera.py:438-443 | leaves exactly what `ReleaseStatic` describes |

## Left out

- **Rotation maths.** The quaternion and trigonometry that build the rotation matrix (`refresh_rotation_matrix`) are not modelled. The matrix is an uninterpreted function of the three angles, fixed when the frame is built.
- **`CameraFrame.rotate`.** It is not modelled: its arccos and `angle_of_vector` decomposition are floating-point trigonometry in helpers outside this model.
- **`interpolate`.** It belongs to the inherited `Mobject` and is not modelled.
- **Inherited geometry in `to_default_state`.** `center`, `set_height` and `set_width` belong to the inherited `Mobject`, which is not part of this model. So `Frame.CameraFrame.ToDefaultState` takes the reset points as a parameter.
- **Frame moves.** `Frame.Shift`, `Frame.StretchX` and `Frame.StretchY` are stand-ins for the inherited `Mobject` operations `shift` and `stretch`. The real operations are not part of this model; the stand-ins only let `Frame.ShapeUnderShift`, `Frame.ShapeUnderStretchX` and `Frame.ShapeUnderStretchY` say how the point getters follow a move.
- **Inherited geometry in `init_points`.** `Frame.InitialPoints` states the shape `init_points` asks for, and computes it directly rather than through the inherited methods.
- **Applying the resize.** The final frame shape after `set_height`/`set_width` in `resize_frame_shape` is not modelled, for the same reason. `CameraImpl.Camera.ResizeFrameShape` returns the target dimensions instead of applying them.
- **Frame height.** A frame of height 0 is excluded by the frame's invariant, because the anti-alias width divides by `ph / fh` (numpy would give infinity). A negative height is allowed. A zero pixel size is excluded for the same reason.
- **GPU plumbing.** Context creation, framebuffers, the blend function, `clear`, the blit and readback (`get_raw_fbo_data`, `get_image`, `get_pixel_array`, `get_texture`) and `reset_pixel_shape` are foreign GPU calls and are not modelled. The context is passed to the camera already made.
- **Image loading and shader compilation.** `Image.open` and the texture upload are modelled as a successful `ctx.texture` call. So is shader compilation, as a successful `ctx.program` call that declares the uniforms listed in the wrapper's program code. A failing image load (which would leave `n_textures` already incremented) and a failing compilation are not modelled.
- **Light position and rotation values.** The light position is `MatVec` of the rotation matrix and the light source, and the rotation uniform is `FlattenTransposed` of the same matrix; both are stated in `PerspectiveUniforms`. Since the matrix itself is not computed (see above), concrete values are only stated for the identity rotation.
- **Mobject identity.** `id(mobject)` is modelled as an explicit natural-number key on each drawable.
- **`ThreeDCamera`.** It only changes configuration and is not modelled.
- **Indices.** Index bytes are taken to be little-endian.
- **Floating point.** All arithmetic is on exact reals. Rounding and numpy overflow are not modelled.
