# AlumbraRenderer core, modelled in Dafny

AlumbraRenderer is a small OpenGL 4.5 renderer. Beneath its GL, GLFW, Assimp
and stb_image plumbing sit several pieces of exact logic. This project models
those pieces and proves what they promise:

- **Vertex layout.** The attribute layout `VertexArray` derives: running
  float offsets, a two-float texture-coordinate slot at index 2 and a fixed
  eight-float stride. Also the `Vertex` layout that `Mesh::setupMesh` hands
  to GL.
- **Mesh drawing.** `Mesh::draw` assigns texture units and names sampler
  uniforms `material.texture_diffuseN` / `material.texture_specularN`. It
  then issues either an indexed or an array draw.
- **Model import.** `Model` takes the directory from a path and appends
  meshes in pre-order of the scene nodes. It flattens face indices, defaults
  the texture coordinates, and keeps a texture cache keyed by path.
- **Shader uniforms.** The uniform-location cache of `Shader`, the routing of
  its setters, and `checkCompileErrors`.
- **Framebuffers.** `Framebuffer`'s attachment, binding, completeness,
  clear, resize and texture-binding operations.
- **Textures.** `Texture::loadTexture`'s choice of formats from the channel
  count, and the outcome of each load.
- **Cubemaps.** `Cubemap::loadMap`'s face policy and `Cubemap::draw`'s
  depth-function discipline, plus the constant tables of `Cubemap.h`: the
  capture views and projection, and the skybox vertices.
- **Shapes.** The constant cube and quad tables of `Shapes.h`, and the
  `Cube`/`Quad` constructors.
- **Camera.** `FreeCamera`'s zoom and pitch clamping and its keyboard
  movement.

The GL context appears in one of two forms:

- as a trace of calls (`GL.Call`) for the draw and load paths;
- as an abstract state record (`Framebuffers.Context`) for the framebuffer
  wrapper. The record holds the draw and read bindings, the framebuffer and
  renderbuffer objects, the texture units, the clear state and the console.

External code is passed in as a parameter:

- Assimp's importer is an `Option<AiScene>` argument.
- stb_image's decoder is a function from path to `Option<Image>`.
- `glGetUniformLocation`, the compile and link status queries, the info log
  and `glCheckFramebufferStatus` are uninterpreted function parameters.
- `updateCameraVectors` is a function parameter from (yaw, pitch, world up)
  to the camera basis.

GL object names come from explicit counters. Floats are exact `real`s. The
conversion of a `GLint` location to `unsigned int` is written out modulo
2^32.

Files: `base.dfy` (options, concatenation, decimal strings), `gl.dfy` (the
call trace), `geometry.dfy` (vectors), and one module per source file:
`buffers.dfy`, `meshes.dfy`, `models.dfy`, `shaders.dfy`, `framebuffers.dfy`,
`textures.dfy`, `cubemaps.dfy`, `shapes.dfy` and `camera.dfy`.

The source files come from different revisions, and each is modelled as
written:

- `Cubemap.cpp` draws `m_vbo.vertexCount()` vertices through a buffer API
  that `Buffers.h` does not declare. The vertex count is therefore a
  parameter of `Cubemaps.Draw`.
- `Shapes.cpp` fills `m_positions`, `m_normals`, `m_texCoords` and
  `m_textures`, which `Mesh.h` does not declare. `Shapes.ShapeMesh` holds
  exactly those four.

`VertexArray` and `setupMesh` both lay vertices out interleaved, with an
eight-float stride (Buffers.cpp:17-32, Mesh.cpp:52-86).

## Model

| member | source | states |
|---|---|---|
| Buffers.NewVertexArray | AlumbraRenderer/src/Buffers.cpp:17-32 | the buffer sits at binding point 0 with a 32-byte stride; there is one attribute per component, attribute i has index i, its width, byte offset 4 × (the widths of attributes 0..i-1) and binding point 0 |
| Buffers.AttributeWidthRule | AlumbraRenderer/src/Buffers.cpp:26 | an attribute is 2 floats wide exactly when its index is texIndex (2); every other attribute is 3 floats wide |
| Buffers.FloatOffsetClosedForm | AlumbraRenderer/src/Buffers.cpp:24-31 | the running offset of attribute i is 3i floats, minus 1 once i has passed the texture slot |
| Buffers.FloatOffsetIncreasing | AlumbraRenderer/src/Buffers.cpp:30 | attribute offsets strictly increase with the index |
| Buffers.LayoutFitsStride | AlumbraRenderer/src/Buffers.cpp:21-31 | with 1 to 3 attributes, the last one ends within the 8-float stride; with exactly 3, it ends on the stride |
| Buffers.FourthAttributeOverrunsStride | AlumbraRenderer/src/Buffers.cpp:21-31 | a fourth attribute would end past the fixed 8-float stride, so the stride does not follow componentCount |
| Meshes.NewMesh | AlumbraRenderer/src/mesh/Mesh.cpp:9-16 | the constructor stores vertices, indices and textures unchanged, and its setup describes exactly those |
| Meshes.SetupMeshLayout | AlumbraRenderer/src/mesh/Mesh.cpp:52-86 | sizeof(Vertex) is the 8-float stride; attributes 0, 1 and 2 have widths 3, 3, 2 at the offsets VertexArray derives; the element buffer is filled iff there are indices, with 4 bytes per index |
| Meshes.Draw | AlumbraRenderer/src/mesh/Mesh.cpp:19-49 | the two-counter loop yields the reference trace: texture i is numbered by its rank among the entries of its kind |
| Meshes.TextureBindingsLayout | AlumbraRenderer/src/mesh/Mesh.cpp:24-37 | texture i is bound to unit i, then its sampler is set to i, two calls per texture in list order |
| Meshes.DrawBindsAsTextureBind | AlumbraRenderer/src/mesh/Mesh.cpp:24-26 | the unit binding `Mesh::draw` issues for entry i is the call `Texture::bind(i)` makes on any texture object with that entry's id (Texture.cpp:55-58) |
| Meshes.DrawCallsLayout | AlumbraRenderer/src/mesh/Mesh.cpp:19-49 | after the 2n texture calls the trace binds the VAO, draws once, unbinds the VAO and clears units 0 and 1, 2n+5 calls in all |
| Meshes.DrawModeChoice | AlumbraRenderer/src/mesh/Mesh.cpp:40-45 | exactly one draw is issued: an indexed draw of all indices iff there are indices, otherwise an array draw of all vertices |
| Meshes.HigherUnitsStayBound | AlumbraRenderer/src/mesh/Mesh.cpp:46-48 | units 2 and above are never cleared after the draw, whatever the texture count |
| Meshes.SamplerNumbering | AlumbraRenderer/src/mesh/Mesh.cpp:21-36 | the k-th diffuse entry is `material.texture_diffuse<k>` and the k-th specular entry is `material.texture_specular<k>`, each kind with its own counter; any other kind is `material.<kind>` without a number |
| Meshes.SamplerNamesDistinct | AlumbraRenderer/src/mesh/Mesh.cpp:21-36 | two diffuse entries, or two specular entries, never share a sampler name |
| Models.FromMesh | AlumbraRenderer/src/mesh/Model.cpp:6-8 | a model built from one mesh holds exactly that mesh |
| Models.ModelDrawInOrder | AlumbraRenderer/src/mesh/Model.cpp:15-18 | drawing a concatenation of mesh lists draws the first list, then the second, so meshes are drawn in list order |
| Models.DrawFromMesh | AlumbraRenderer/src/mesh/Model.cpp:6-18 | drawing a model built from one mesh draws exactly that mesh |
| Models.LastIndexOf | AlumbraRenderer/src/mesh/Model.cpp:34 | the result is the position of the last occurrence of the character, or none if it does not occur |
| Models.DirectorySplit | AlumbraRenderer/src/mesh/Model.cpp:34 | a path without '/' is its own directory; otherwise the path is the directory, a '/' and a slash-free file name |
| Models.FindByPath | AlumbraRenderer/src/mesh/Model.cpp:119-125 | the first cached entry whose path equals the key (no earlier entry matches), or none when no entry matches |
| Models.LoadSlot | AlumbraRenderer/src/mesh/Model.cpp:114-138 | a hit returns the first cached entry with that key, as the `break` does, and changes nothing; a miss loads `directory/name` into a fresh texture of the requested kind and appends it to the cache and to the load log |
| Models.LoadMaterialTextures | AlumbraRenderer/src/mesh/Model.cpp:110-141 | one entry per slot; the cache only grows, by one entry per load |
| Models.LoadMaterialTexturesServe | AlumbraRenderer/src/mesh/Model.cpp:110-141 | entry k serves slot k: it is either cached under that slot's key or loaded from `directory/name` as the slot's kind |
| Models.LoadsKeepPathsUnderDirectory | AlumbraRenderer/src/mesh/Model.cpp:127-137 | every path the cache stores starts with `directory/` |
| Models.RawNameNeverHits | AlumbraRenderer/src/mesh/Model.cpp:119-137 | as written, a name that does not itself start with `directory/` never hits, so the file is loaded again |
| Models.RawNameLoadsDuplicate | AlumbraRenderer/src/mesh/Model.cpp:114-139 | as written, two slots naming `a.png` in directory `models` load `models/a.png` twice, into two textures |
| Models.IntendedRuleKeepsPathsDistinct | AlumbraRenderer/src/mesh/Model.cpp:114-139 | keyed by the stored path, the cache never holds a path twice, and every slot gets the texture of `directory/name` |
| Models.IntendedRuleLoadsOnce | AlumbraRenderer/src/mesh/Model.cpp:114-139 | keyed by the stored path, a file requested in two slots is loaded at most once, and both slots get the same texture |
| Models.ConvertVertices | AlumbraRenderer/src/mesh/Model.cpp:61-84 | one vertex per Assimp vertex, in order; vertex i's position is Assimp vertex i and its normal is Assimp normal i; its texture coordinates are (0,0) when the mesh has no channel 0, and otherwise the x and y of channel 0's entry i |
| Models.ProcessMesh | AlumbraRenderer/src/mesh/Model.cpp:54-106 | the mesh has the converted vertices and the flattened faces; the cache only grows |
| Models.ProcessMeshTextures | AlumbraRenderer/src/mesh/Model.cpp:93-102 | the mesh's textures are one entry per diffuse slot of its material, then one per specular slot, each serving its slot |
| Models.FaceFlattening | AlumbraRenderer/src/mesh/Model.cpp:86-92 | the indices are every face's index list concatenated in face order: index j of face k sits at the summed length of the earlier faces plus j |
| Models.ProcessMeshList | AlumbraRenderer/src/mesh/Model.cpp:44-47 | one mesh is appended per listed index, in order, each with the geometry of the scene mesh it names |
| Models.ProcessNode | AlumbraRenderer/src/mesh/Model.cpp:42-52 | meshes are appended in pre-order: the node's own meshes, then each child subtree from left to right |
| Models.ProcessChildren | AlumbraRenderer/src/mesh/Model.cpp:49-51 | the children from index i on are processed left to right, each subtree in pre-order |
| Models.LoadModel | AlumbraRenderer/src/mesh/Model.cpp:22-38 | a missing, incomplete or rootless scene appends nothing and leaves the directory unset; otherwise the directory comes from the path and the root's meshes are appended in pre-order |
| Shaders.GetUniformLocation | AlumbraRenderer/src/Shader.cpp:68-77 | a hit returns the cached location with no GL query and no change; a miss queries GL once for that name and inserts the unsigned answer, leaving every other entry as it was |
| Shaders.LookupIdempotent | AlumbraRenderer/src/Shader.cpp:68-77 | looking up a name again returns the same location, without a query and without a change |
| Shaders.LookupRunStable | AlumbraRenderer/src/Shader.cpp:68-77 | over any run of lookups, entries are never overwritten or removed, every answer agrees with the final cache, cached names are never queried, and each name is queried at most once |
| Shaders.RepeatedLookupsAgree | AlumbraRenderer/src/Shader.cpp:68-77 | two lookups of one name in a run return the same location |
| Shaders.SetUniform | AlumbraRenderer/src/Shader.cpp:81-142 | every setter resolves its location through the cache with the given name; exactly the sampler setter writes through the program id, and the others write to the program in use |
| Shaders.SetterPayloads | AlumbraRenderer/src/Shader.cpp:81-142 | each setter writes exactly its argument: setBool the integer 1 or 0, setInt and setSampler the integer, setFloat the float, setVec2/3/4 the components in order, and setMat2/3/4 the entries, untransposed |
| Shaders.CheckCompileErrors | AlumbraRenderer/src/Shader.cpp:146-170 | link status is checked iff the type is "PROGRAM", compile status otherwise; exactly one log line is printed iff that status is a failure: the matching heading, the type, a newline, the info log, the rule line and the final `std::endl` |
| Textures.FormatSelection | AlumbraRenderer/src/Texture.cpp:26-40 | exactly channel counts 1, 3 and 4 are supported, mapping to (RED, R8), (RGB, RGB4) and (RGBA, RGBA4); the chosen upload format carries that many channels |
| Textures.LoadTexture | AlumbraRenderer/src/Texture.cpp:19-53 | the path is recorded whatever happens; a decoded image gets 1-level storage, a level-0 upload and mipmaps with the selected formats, in exactly three calls; an unsupported count adds one leading "Unsupported image format" log and leaves the formats unset; a failed decode logs the path and issues nothing else |
| Textures.LoadWritesStorageIffDecoded | AlumbraRenderer/src/Texture.cpp:24-52 | a texture write happens iff the decode succeeded, and a log line appears iff the load did not end with supported formats |
| Textures.Bind | AlumbraRenderer/src/Texture.cpp:55-58 | the texture's id is bound to unit `index` when the index is non-negative; the `int` index reaches GL as a `GLuint`, so a negative index names unit index + 2^32 |
| Framebuffers.NewFramebuffer | AlumbraRenderer/src/Framebuffer.cpp:6-9 | a fresh framebuffer name with no attachments; nothing else in the context changes but the name counter |
| Framebuffers.AttachmentPoints | AlumbraRenderer/src/Framebuffer.cpp:17-20 | the list has n entries, and entry i is COLOR_ATTACHMENT0 + i |
| Framebuffers.AttachColorBuffers | AlumbraRenderer/src/Framebuffer.cpp:13-26 | the list is remembered; buffer i is attached at COLOR_ATTACHMENT0 + i and other attachment points are kept; draw buffers become all those points, and both bindings end at 0, only when there are more than one; nothing else in the context changes (renderbuffers, texture units, clear state, console, name counter) |
| Framebuffers.AttachRenderbuffer | AlumbraRenderer/src/Framebuffer.cpp:28-34 | a fresh renderbuffer with the given storage becomes this object's depth attachment; nothing else in the context changes but the name counter |
| Framebuffers.BindAs | AlumbraRenderer/src/Framebuffer.cpp:36-39 | the targets named by the type refer to this framebuffer, and nothing else changes |
| Framebuffers.Unbind | AlumbraRenderer/src/Framebuffer.cpp:41-44 | both bindings are 0, and nothing else changes |
| Framebuffers.IsComplete | AlumbraRenderer/src/Framebuffer.cpp:46-57 | the result is true iff the status is COMPLETE; the bindings always end at 0; the error line is printed iff the framebuffer is incomplete |
| Framebuffers.Clear | AlumbraRenderer/src/Framebuffer.cpp:59-63 | the clear colour becomes opaque black, and the clear hits the framebuffer currently bound for drawing |
| Framebuffers.ResizeRenderbuffer | AlumbraRenderer/src/Framebuffer.cpp:65-68 | only the renderbuffer's storage changes |
| Framebuffers.BindTexture | AlumbraRenderer/src/Framebuffer.cpp:70-73 | colour buffer `index`, which must exist, goes to unit 0, and every other unit is kept |
| Framebuffers.AttachThenResize | AlumbraRenderer/src/Framebuffer.h:18-19 | after attachColorBuffers(bs), colorBuffers() is bs and colorBuffer(i) is bs[i], each attached at its point, and a resize changes only the renderbuffer |
| Framebuffers.BindUnbind | AlumbraRenderer/src/Framebuffer.cpp:36-44 | a bind followed by an unbind is the same as an unbind alone |
| Framebuffers.IsCompleteStable | AlumbraRenderer/src/Framebuffer.cpp:46-57 | a second completeness check gives the same answer as the first |
| Cubemaps.LoadMap | AlumbraRenderer/src/Cubemap.cpp:22-51 | a failed first face is reported, with the literal 0 in place of its path, and stops the load; otherwise the first face fixes 1-level RGB8 storage at its size and goes to layer 0, and every later face k is uploaded to layer k or reported |
| Cubemaps.LoadMapPolicy | AlumbraRenderer/src/Cubemap.cpp:38-50 | storage is allocated once; face k reaches layer k iff it decodes, and is reported iff it does not |
| Cubemaps.Draw | AlumbraRenderer/src/Cubemap.cpp:53-66 | the depth function is set to LEQUAL first and to LESS last, with no change in between; the cube is bound to unit 0 and the sampler `skybox` is set to 0 |
| Cubemaps.DrawDepthDiscipline | AlumbraRenderer/src/Cubemap.cpp:55-60 | the draw runs under LEQUAL and leaves LESS, which differs from the starting function when that was LEQUAL |
| Cubemaps.CaptureOrder | AlumbraRenderer/src/Cubemap.h:39-44 | view k looks from the origin toward +X, -X, +Y, -Y, +Z, -Z, in layer order |
| Cubemaps.CaptureUpVectors | AlumbraRenderer/src/Cubemap.h:39-44 | the up vectors are -Y for the side faces, +Z for +Y and -Z for -Y; each is a unit vector orthogonal to its direction |
| Cubemaps.CaptureSide | AlumbraRenderer/src/Cubemap.h:39-44 | each view's side vector direction × up is an axis vector orthogonal to both, and side × direction gives back the up vector |
| Cubemaps.OrthonormalFrameView | AlumbraRenderer/src/Cubemap.h:38-45 | for a unit direction and an orthogonal unit up vector, the look-at transform sends the direction to -Z and the up vector to +Y |
| Cubemaps.CaptureViewFrames | AlumbraRenderer/src/Cubemap.h:38-45 | every capture view looks down its face's axis with its up vector pointing screen-up |
| Cubemaps.CaptureFrustum | AlumbraRenderer/src/Cubemap.h:37 | with a 90° field of view and aspect 1, a point in front of the camera projects into [-1,1] horizontally iff abs(x) <= -z, and vertically iff abs(y) <= -z; near 0.1 lies before far 10 |
| Cubemaps.SkyboxCorners | AlumbraRenderer/src/Cubemap.h:48-91 | there are 36 skybox vertices, and every coordinate is ±1 |
| Cubemaps.SkyboxBlocks | AlumbraRenderer/src/Cubemap.h:50-90 | each block of six vertices lies on one face of the cube |
| Cubemaps.SkyboxBlockFacesDistinct | AlumbraRenderer/src/Cubemap.h:50-90 | different blocks lie on different faces, so the six blocks cover the whole cube |
| Shapes.CubeTableSizes | AlumbraRenderer/src/mesh/Shapes.h:19-149 | the three cube tables have 36 rows each, so their flat lists of 108, 108 and 72 floats describe the same 36 vertices |
| Shapes.Flatten3At | AlumbraRenderer/src/mesh/Shapes.h:19-106 | float 3i+c of a flat three-component table is component c of vertex i, which is how the float lists are read as vertices |
| Shapes.Flatten2At | AlumbraRenderer/src/mesh/Shapes.h:107-149 | float 2i+c of a flat texture-coordinate table is component c of vertex i |
| Shapes.CubeTableValues | AlumbraRenderer/src/mesh/Shapes.h:19-149 | every cube position coordinate is ±0.5, and every texture coordinate is 0 or 1 |
| Shapes.CubeFaceBlock | AlumbraRenderer/src/mesh/Shapes.h:64-106 | within each labelled block the normal is that face's constant unit axis vector |
| Shapes.CubeFacePlane | AlumbraRenderer/src/mesh/Shapes.h:19-106 | every position of a block satisfies position · normal = 0.5, so it lies on that face's plane |
| Shapes.CubeFaceNormalsDistinct | AlumbraRenderer/src/mesh/Shapes.h:64-106 | the six blocks have six different normals |
| Shapes.QuadTables | AlumbraRenderer/src/mesh/Shapes.h:151-179 | the quad is 6 vertices with y = -0.5 and normal (0,1,0), and its texture coordinates are 0 or 2 |
| Shapes.Build | AlumbraRenderer/src/mesh/Shapes.cpp:4-40 | Cube copies the cube tables and Quad the quad tables; the first texture is `texture_diffuse`, and a `texture_specular` entry is appended iff the specular path is non-empty |
| Shapes.SpecularReusesDiffuseTexture | AlumbraRenderer/src/mesh/Shapes.cpp:10-16 | both entries carry the one texture's id, and when both maps decode that texture's storage is specified twice |
| Camera.NewCamera | AlumbraRenderer/src/FreeCamera.cpp:5-35 | position, world up, yaw and pitch are as given; speed is 2.5, sensitivity 0.1 and zoom 45; the basis is computed from the angles |
| Camera.DefaultCamera | AlumbraRenderer/src/FreeCamera.h:27-31 | the default camera sits at the origin, with +Y up, yaw -90, pitch 0 and zoom 45 |
| Camera.ProcessMouseScroll | AlumbraRenderer/src/FreeCamera.cpp:87-95 | only the zoom changes |
| Camera.ScrollClampsZoom | AlumbraRenderer/src/FreeCamera.cpp:87-95 | after a scroll the zoom lies in [1,45]; from a zoom in [1,45] it is clamp(zoom - yoffset, 1, 45); from outside, the offset is ignored and the old zoom is clamped |
| Camera.ScrollByZeroKeepsZoom | AlumbraRenderer/src/FreeCamera.cpp:87-95 | a zero scroll leaves a camera whose zoom is in range unchanged |
| Camera.ProcessMouseMovement | AlumbraRenderer/src/FreeCamera.cpp:64-83 | only yaw, pitch and the basis change, and the basis is recomputed from the new angles |
| Camera.MouseMovementAngles | AlumbraRenderer/src/FreeCamera.cpp:66-79 | yaw grows by xoffset × sensitivity and is never clamped; with constrainPitch, pitch is the new value clamped to [-89,89]; without it, the new value exactly |
| Camera.ProcessKeyboard | AlumbraRenderer/src/FreeCamera.cpp:45-60 | only the position changes |
| Camera.KeyboardDisplacement | AlumbraRenderer/src/FreeCamera.cpp:45-60 | the position moves by speed × dt along +front/-front, -right/+right or +worldUp/-worldUp, according to the key |
| Camera.OppositeMovesCancel | AlumbraRenderer/src/FreeCamera.cpp:48-59 | a move followed by the opposite move with the same dt restores the camera exactly, under real arithmetic |

## Left out

- The GL, GLFW, Assimp and stb_image libraries themselves: every GL call is a trace entry or a state-record update, and the importer and decoder are parameters.
- `Buffer::Buffer` and `VertexArray::bind` (Buffers.cpp:4-15, 38-41): the buffer is a record of its name, size and component count; uploading its data is I/O.
- Buffers.NewVertexArray: the component count is a `nat`; the source converts a negative `int` count to a huge `unsigned`, which is not modelled.
- Shader source reading, compilation and linking (Shader.cpp:6-59) and `Shader::use`: file I/O and foreign GL calls.
- Framebuffers.ResizeRenderbuffer: it requires a renderbuffer. In the source, `resizeRB` before `attachRenderbuffer` passes the never-initialised `m_renderbufferID` to `glNamedRenderbufferStorage` (Framebuffer.cpp:65-68), with an unpredictable effect.
- Framebuffers.BindTexture: it requires `index` to name a colour buffer. The source indexes `m_colorBuffers[index]` unchecked (Framebuffer.cpp:72), which is undefined behaviour past the end.
- Shaders.CheckCompileErrors: the info log comes from a parameter; the 1024-byte truncation of the log buffer is not modelled.
- Meshes.Draw: the shader is passed to `Mesh::draw` by value, so uniform locations cached during a draw are lost; the trace records the sampler writes but not the copy's cache.
- Models.ProcessMesh: `mMaterialIndex` is unsigned, so its `>= 0` test always holds; the model requires the index to name a material instead of modelling an out-of-range read.
- Meshes.DrawBindsAsTextureBind: it is stated for the first 2^32 entries only. Past them the source's `unsigned int` loop counter in `Mesh::draw` wraps, and the draw trace does not model that wrap.
- Models.LoadModel: the Assimp error string printed on an import failure is not modelled.
- Models.LoadModel: it requires every scene mesh to carry one normal per vertex. The import flags (Model.cpp:25) do not ask Assimp to generate normals, and `processMesh` reads `mNormals[i]` unconditionally (Model.cpp:69-71), so a mesh without normals dereferences a null array in the source. That input is outside the model.
- Models.ProcessMesh: for the same reason it requires one normal per vertex; a mesh without normals is a null dereference in the source.
- Models.ConvertVertices: it requires one normal per vertex, for the same reason.
- The `Texture` constructor's sampler parameters, and its `gamma` argument, which is never used (Texture.cpp:5-13, 19).
- The `Cubemap` constructor (Cubemap.cpp:4-18): it uses a `Buffer(size, 36, 1)`/`addData`/`useBuffer` API that `Buffers.h` does not declare. The vertex count it would hold is a parameter of `Cubemaps.Draw`.
- `loadHDRMap`, `captureEnvironment`, `irradianceConvolution`, `specularPrefilter` and `brdfIntegrate` (Cubemap.h:13-17): they are declared but have no definitions.
- Cubemaps.CaptureViewFrames: the bodies of glm's `lookAt` and `perspective` are not available. `LookAtView` is the standard right-handed look-at from the origin. The 90° projection is modelled by focal length 1 (cot 45°), and only the x/y clip test is stated (`CaptureFrustum`), not the depth mapping.
- Cubemaps.CaptureFrustum: it is stated for one point in view space. That every direction falls in exactly one capture face's frustum is not stated, because it needs nonlinear real arithmetic over symbolic points.
- The `setupMesh` call at the end of `Cube`/`Quad` (Shapes.cpp:19, 39): the revision of `Mesh` that has `m_positions` is not available, so its layout is unknown.
- `FreeCamera::updateCameraVectors` and `getViewMatrix` (FreeCamera.cpp:37-41, 97-109): trigonometry and normalisation in floating point; the basis is a parameter of the camera operations.
- Camera.ProcessMouseScroll: it uses real arithmetic, so float rounding of `zoom - yoffset` is not modelled.
- `m_fov` in `FreeCamera` and `m_width`/`m_height` in `Framebuffer` are never assigned in the source, and are not part of the model.
- The window and input layer, per-frame rendering, scene set-up and the main loop (Window, Renderer, Scene, Alumbra): these are orchestration of GL calls with global state and wall-clock timing.

## Findings

| source | as written | input that shows it | evidently intended | confidence | as-written member | corrected member |
|---|---|---|---|---|---|---|
| AlumbraRenderer/src/mesh/Model.cpp:120 | the texture cache compares each stored path, which is `directory + '/' + name` (line 130), against the raw material name, so a name never matches and the file is loaded again for every slot that uses it | directory `models`, one material with two diffuse slots both naming `a.png`: `models/a.png` is loaded twice and cached twice, under two texture ids | compare against `directory + '/' + name`, the path that a load stores, so that each file is loaded once and reused | not executed | Models.RawNameLoadsDuplicate | Models.IntendedRuleLoadsOnce |

Both rules are one definition, parametric in `Models.KeyRule`. `RawName` is
the comparison as written and `DirectoryPath` the intended one. Under
`RawName`, `Models.RawNameNeverHits` shows that the cache never hits once
every stored path begins with `directory/`. Under `DirectoryPath`,
`Models.IntendedRuleKeepsPathsDistinct` shows that the cache never holds a
path twice.
