# Scene manager of a winter-cottage OpenGL scene, modelled in Dafny

The `SceneManager` class of this OpenGL coursework project loads textures,
keeps a small table of materials, writes shader uniforms and draws the
scene from primitive meshes. This project models its bookkeeping core:

- **The texture registry.** A fixed table of `{ID, tag}` entries and a
  count of the entries in use. Registration appends; the lookups are
  first-match scans that return `-1` on a miss (`Scene.SceneManager`,
  `Registry`).
- **The material registry.** The scene's two materials, "snow" and "house",
  the lookup `FindMaterial`, and the two ways a material reaches the
  shader: `SetShaderMaterial` and the `ApplyMat` helper of the render pass
  (`Scene.SceneManager`, `Materials`).
- **The uniform-writing protocol.** The external shader manager is a map
  from uniform name to the last value written under it (`Uniforms`).
  - `SetShaderColor` and `SetShaderTexture` switch texturing off and on.
  - `SetTransformations` uploads the model matrix.
  - `SetupSceneLights` zeroes the four light slots and then configures
    slots 0 and 1 (`Lighting`).
  - Uniform names are a datatype. `Uniforms.Text` renders each name as the
    string the program sends, and `Uniforms.TextInjective` shows that
    keying by the datatype loses nothing.
- **The assembly helpers.** `DrawTree` and `DrawFenceLine` draw through
  the external mesh library. That library is modelled as a log of draw
  calls, each recording the primitive and the uniforms in force at the
  moment of the draw (`Assembly`).
- **The model matrix.** It is kept symbolic, as the product
  `T * Rx * Ry * Rz * S`. Its meaning is given for rotations by the
  multiples of 90 degrees from -270 to 270, enough to prove that the scale acts first and the
  translation last, and that the rotation order matters (`Geometry`).

External inputs are parameters of the model:

- image decoding becomes a decoded flag and a channel count;
- the GL texture object is a handle;
- the contents of an uninitialised local variable become an `indeterminate`
  material.

The rails of a fence are `spacing * posts` long, as the code computes
(line 620). For the scene's fence that is 9.5 (ten spacings of 0.95): half
a spacing longer at each end than the 8.55 the posts span, which
`Assembly.RailOverhang` and `Assembly.SceneFenceLayout` state.

The class header that declares the texture table and its size is not part
of this model. The table has 16 slots, the number of texture units the
comment at line 130 names.

## Model

| member | source | states |
|---|---|---|
| Scene.SceneManager.constructor | Source/SceneManager.cpp:34-38 | the manager keeps the given shader pointer, gets a fresh mesh library and its own newly allocated texture table of 16 slots, and starts with no textures and no materials |
| Scene.SceneManager.CreateGLTexture | Source/SceneManager.cpp:60-124 | succeeds exactly for a decoded image of 3 or 4 channels; success writes `{handle, tag}` at the old count, increments the count by one and leaves every other slot unchanged (the registry grows by that one entry); failure changes nothing |
| Scene.SceneManager.FindTextureSlot | Source/SceneManager.cpp:188-206 | returns the least registered index whose tag matches, or -1 when none does; the result lies in [-1, count) |
| Scene.SceneManager.FindTextureID | Source/SceneManager.cpp:162-180 | returns the handle of that same first match, or -1; -1 comes back exactly when the tag is not registered |
| Scene.SceneManager.DestroyGLTextures | Source/SceneManager.cpp:148-154 | every registered slot's ID is replaced by the newly generated name for that slot; tags, the count and the unused slots stay as they were, so lookups find the same slots with the new names |
| Registry.FirstIndex | Source/SceneManager.cpp:168-178 | the first-match scan both registries use: -1 or an index holding the tag, with no earlier index holding it |
| Registry.FirstIndexMisses | Source/SceneManager.cpp:194-205 | the scan misses exactly when the tag is absent |
| Registry.FindAfterAppend | Source/SceneManager.cpp:113-117 | after appending a tag, a lookup of it finds the new entry unless an earlier entry shadows it; lookups of other tags are unchanged |
| Registry.RegisterThenFind | Source/SceneManager.cpp:113-117 | a registered texture is found at its own slot unless an earlier texture has the same tag |
| Registry.FindDistinct | Source/SceneManager.cpp:168-178 | with distinct tags every entry is found at its own index |
| Scene.SceneManager.DefineObjectMaterials | Source/SceneManager.cpp:374-398 | whatever the list held, afterwards it is exactly [snow, house], so a second call gives the same list |
| Registry.SceneMaterialLookup | Source/SceneManager.cpp:379-395 | in the scene's list "snow" is at 0, "house" at 1 and every other tag misses |
| Scene.SceneManager.FindMaterial | Source/SceneManager.cpp:214-241 | returns true exactly when the list is non-empty, whether or not the tag matched; on a hit the five properties of the first match are copied into the caller's material, and otherwise the material is untouched |
| Scene.SceneManager.FindMaterialChecked | Source/SceneManager.cpp:214-241 | the same lookup returning whether the tag was found |
| Scene.SceneManager.UploadMaterial | Source/SceneManager.cpp:358-362 | the five `material.*` writes leave the shader holding exactly `WriteMaterial` of the material |
| Materials.WriteMaterialEffect | Source/SceneManager.cpp:358-362 | after the upload the shader holds the material's five properties and no other uniform has changed |
| Scene.SceneManager.SetShaderMaterial | Source/SceneManager.cpp:347-365 | as written: with a non-empty list it always uploads the lookup's out-parameter, which on a miss is the uninitialised local |
| Scene.SceneManager.SetShaderMaterialChecked | Source/SceneManager.cpp:347-365 | uploads the first material with the tag, and nothing on a miss |
| Materials.CopyUploadsSource | Source/SceneManager.cpp:228-232 | the tag of the out-parameter is never uploaded, so uploading a copy equals uploading the original |
| Materials.AsWrittenUploadsWhenNonEmpty | Source/SceneManager.cpp:350-363 | as written, the five uniforms are uploaded exactly when the list is non-empty, and the upload agrees with the intended one whenever the tag is found |
| Materials.AsWrittenMissUploadsIndeterminate | Source/SceneManager.cpp:240 | as written, a miss in a non-empty list leaves the shader holding the indeterminate material, where the intended upload changes nothing |
| Materials.RoofTagExample | Source/SceneManager.cpp:240 | with the scene's two materials and the tag "roof", the upload as written changes the shader and the intended one does not |
| Scene.SceneManager.ApplyMat | Source/SceneManager.cpp:510-524 | uploads the first material whose tag matches, in its own write order, and nothing when none matches |
| Materials.MaterialUploadEffect | Source/SceneManager.cpp:510-524 | on a hit the shader holds the first matching material; on a miss nothing changes; names outside the five material uniforms never change |
| Scene.SceneManager.SetTransformations | Source/SceneManager.cpp:249-279 | when the shader pointer is non-null, `model` becomes `T * Rx * Ry * Rz * S` and nothing else changes |
| Geometry.ModelMatrixOrder | Source/SceneManager.cpp:273 | applying the model matrix equals scaling, then rotating about Z, then Y, then X, then translating |
| Geometry.NoTurn | Source/SceneManager.cpp:267-269 | rotations by zero degrees are the identity |
| Geometry.QuarterTurn | Source/SceneManager.cpp:267-268 | a quarter turn about X maps (x,y,z) to (x,-z,y), and one about Y maps it to (z,y,-x) |
| Geometry.UnrotatedPlacement | Source/SceneManager.cpp:273 | without rotation a point is scaled per axis and then moved by the position |
| Geometry.QuarterTurnAboutY | Source/SceneManager.cpp:273 | with a quarter turn about Y the point is scaled, turned and then moved |
| Geometry.FaceNormalExample | Source/SceneManager.cpp:273 | scale (2,1,1) and a quarter turn about Y send +X to (0,0,-2): the scale is applied before the rotation |
| Geometry.RotationOrderMatters | Source/SceneManager.cpp:273 | quarter turns about X and Y give a different point when the order is swapped |
| Scene.SceneManager.SetShaderColor | Source/SceneManager.cpp:287-306 | when the pointer is non-null, `bUseTexture` becomes false (0) and `objectColor` the given colour, and nothing else changes |
| Scene.SceneManager.SetShaderTexture | Source/SceneManager.cpp:314-325 | when the pointer is non-null, `bUseTexture` becomes true (1) and `objectTexture` the slot of the tag; the sampler is -1 exactly when the tag is not registered |
| Scene.SceneManager.SetTextureUVScale | Source/SceneManager.cpp:333-339 | when the pointer is non-null, `UVscale` becomes (u, v) and nothing else changes |
| Scene.SceneManager.UseTexture2D | Source/SceneManager.cpp:528-540 | `bUseTexture` becomes 1 for a non-zero handle and 0 for handle 0; nothing else changes |
| Scene.SceneManager.SetupSceneLights | Source/SceneManager.cpp:400-437 | the shader ends holding `SceneLights` of its old uniforms: lighting on, four slots zeroed, then slots 0 and 1 configured |
| Lighting.ZeroLightsSlots | Source/SceneManager.cpp:405-413 | the zeroing loop leaves its first n slots inert and the rest untouched |
| Lighting.ZeroLightsFrame | Source/SceneManager.cpp:405-413 | the zeroing loop writes only light uniforms of its own slots |
| Lighting.ReadWritten | Source/SceneManager.cpp:416-424 | writing a slot's six uniforms stores exactly that light |
| Lighting.ReadOther | Source/SceneManager.cpp:427-435 | writing one slot leaves every other slot unchanged |
| Lighting.WriteLightFrame | Source/SceneManager.cpp:416-435 | writing a slot changes only its six names |
| Lighting.SceneLightSlots | Source/SceneManager.cpp:400-437 | after setup slot 0 holds the moonlight and slot 1 the fill light, overriding the zeroing loop, and slots 2 and 3 are inert |
| Lighting.SceneLightsFrame | Source/SceneManager.cpp:403 | after setup `bUseLighting` is true and every uniform outside the four slots is unchanged |
| Lighting.KeyAndFillLit | Source/SceneManager.cpp:406-434 | the two configured lights give light and the inert light gives none |
| Lighting.TwoLitSlots | Source/SceneManager.cpp:400-437 | exactly slots 0 and 1 give light after setup |
| Uniforms.ParseText | Source/SceneManager.cpp:22-26 | every uniform name the program writes reads back from its string |
| Uniforms.TextInjective | Source/SceneManager.cpp:406 | two different names never share a string, so the name datatype is a faithful key |
| Assembly.PlacedDraw | Source/SceneManager.cpp:633-635 | a draw under a placement (model matrix, texturing off, flat colour) is a flat draw of that matrix and colour, and the placement changes only those three uniforms |
| Assembly.PlacedOverrides | Source/SceneManager.cpp:625-626 | a second placement completely overwrites the first |
| Scene.SceneManager.DrawPlaced | Source/SceneManager.cpp:633-635 | one unrotated flat draw: the uniforms become the placement on top of the old ones, and the log grows by one draw recording exactly those uniforms |
| Scene.SceneManager.DrawTree | Source/SceneManager.cpp:592-613 | exactly three flat draws are appended, cylinder, cone, cylinder, with the trunk, crown and cap matrices and colours; each draw records the uniforms in force at the call with only its own placement applied, and the cap's placement is left in force |
| Assembly.TreeStacks | Source/SceneManager.cpp:595-611 | taking the cylinder and cone meshes as unit-sized and centred on the origin, the trunk top and the crown bottom meet trunkH above the base, and the cap sits 0.02 below the crown top |
| Scene.SceneManager.DrawFenceRails | Source/SceneManager.cpp:618-627 | the two rails are appended, lower then upper, each under its own placement on top of the uniforms at the call, and the upper rail's placement is left in force |
| Scene.SceneManager.DrawFenceLine | Source/SceneManager.cpp:615-637 | the log grows by exactly `FenceDraws`: 2 + max(posts, 0) flat box draws, lower rail, upper rail, then post i for each i in order, each recording the uniforms in force at the call with only its own placement applied; the last post's placement, or the upper rail's when there are no posts, is left in force |
| Assembly.FenceDrawsFlat | Source/SceneManager.cpp:615-637 | a fence line is 2 + max(posts, 0) flat box draws with the rail and post matrices and colours, each differing from the uniforms at the call only in the three per-draw names |
| Assembly.PostDrawsStep | Source/SceneManager.cpp:630-636 | one more iteration of the post loop appends exactly that post's draw |
| Assembly.PostsEvenlySpaced | Source/SceneManager.cpp:632 | consecutive posts are one spacing apart along the direction |
| Assembly.RailsCentred | Source/SceneManager.cpp:618 | both rails are centred halfway between the first and the last post |
| Assembly.RailOverhang | Source/SceneManager.cpp:618-620 | along +X, a unit box drawn as a rail reaches half a spacing past the first and the last post |
| Assembly.SceneFenceLayout | Source/SceneManager.cpp:827-830 | the scene's posts stand at 0, 0.95, ..., 8.55 from the start, and its rails are 9.5 long |

## Left out

- Image decoding (stb_image) and every OpenGL call are left out. This covers texture creation, parameters, mipmaps, binding and unit activation in `BindGLTextures` and `UseTexture2D`. Their outcomes are parameters: a decoded flag, a channel count and a handle.
- `LoadTexture2D` (lines 439-462) only calls into the image library and OpenGL and touches no registry state.
- `Scene.SceneManager.DestroyGLTextures`: the GL texture objects are not modelled. The model captures that every registered ID is overwritten with a newly generated name (lines 150-153), not that the old textures stay allocated.
- `Scene.SceneManager.constructor`: starts with a count of zero. The constructor at lines 34-38 never sets `m_loadedTextures`, and the header that might initialise it is not part of this model.
- Where the program dereferences the shader pointer without a check, the model requires it to be non-null: the material upload (line 358), the light setup (line 403), `ApplyMat` (line 516), `UseTexture2D` (lines 532 and 538) and the direct texture-flag writes of `DrawTree` (line 596) and `DrawFenceLine` (line 621). The behaviour with a null pointer there is not modelled.
- `PrepareScene` is left out. It calls `DefineObjectMaterials` and `SetupSceneLights`, both modelled; the rest is mesh loading, `LoadTexture2D` and one sampler write.
- The literal house, roof and backdrop draw sequence of `RenderScene` is authoring data and is left out, as is its `P` anchor helper. The `DrawBox` helper (lines 585-590) is only called from that sequence. Its unrotated form is the step `Scene.SceneManager.DrawPlaced`, which the tree and fence helpers repeat. The `SetUV` helper (lines 543-546) is the same write as `SetTextureUVScale`. The commented-out mountain helper is dead code.
- The matrices of `glm::scale`, `glm::rotate` and `glm::translate` are kept symbolic. Their meaning is given only for the multiples of 90 degrees from -270 to 270; other angles are left uninterpreted (`Transform` returns `None`).
- Floats are idealised as reals. Colours and positions carry no rounding. The conversion of a `GLuint` handle to the `int` that `FindTextureID` returns is not modelled: handles are naturals.
- The internals of `ShaderManager` and `ShapeMeshes` are not part of this model. They are a uniform map and a draw log.
- `Scene.SceneManager.CreateGLTexture` requires a free slot on the success path. The program never checks the bound and would write past the table of 16.
- On the unsupported-channel path, `CreateGLTexture` returns without freeing the decoded image or deleting the generated texture object (lines 99-103). Memory and GL objects are not modelled.
- The destructor and `Source/MainCode.cpp` (window set-up, frame loop, input callbacks) are not part of this model.

## Findings

| source | as written | input that shows it | evidently intended | confidence | as-written member | corrected member |
|---|---|---|---|---|---|---|
| Source/SceneManager.cpp:240 | `FindMaterial` returns true for any non-empty list, even when no tag matched. `SetShaderMaterial` (lines 350-363) then uploads its uninitialised local material | materials [snow, house] and tag "roof" | return whether the tag was found, so a miss uploads nothing | not executed | Materials.AsWrittenMissUploadsIndeterminate | Scene.SceneManager.SetShaderMaterialChecked |
