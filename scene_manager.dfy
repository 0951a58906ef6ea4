/**
 * The scene manager: the texture registry, the material registry, the
 * uniform-writing helpers and the two assembly helpers of the scene.
 *
 * Image decoding and the OpenGL texture calls are inputs to the model: a
 * decode-succeeded flag, a channel count and the handle the driver hands out.
 */
module Scene {
  import opened Geometry
  import opened Uniforms
  import opened Registry
  import opened Materials
  import opened Lighting
  import opened Assembly

  class SceneManager {
    /** The shader manager the scene writes its uniforms to; it may be null. */
    var shader: ShaderManager?
    var meshes: ShapeMeshes
    /** The fixed-size texture table and the number of entries in use. */
    var textureIDs: array<TextureInfo>
    var loadedTextures: nat
    var objectMaterials: seq<Material>

    ghost predicate Valid()
      reads this
    {
      textureIDs.Length == TextureCapacity && loadedTextures <= TextureCapacity
    }

    /** The registered textures, in registration order. */
    ghost function Entries(): seq<TextureInfo>
      reads this, textureIDs
      requires Valid()
    {
      textureIDs[..loadedTextures]
    }

    constructor (shaderManager: ShaderManager?)
      ensures Valid() && Entries() == []
      ensures fresh(textureIDs)
      ensures shader == shaderManager && objectMaterials == []
      ensures fresh(meshes) && meshes.drawn == []
    {
      shader := shaderManager;
      meshes := new ShapeMeshes();
      textureIDs := new TextureInfo[TextureCapacity](_ => TextureInfo(0, ""));
      loadedTextures := 0;
      objectMaterials := [];
    }

    // -------------------------------------------------------------------
    // Texture registry

    /**
     * Registers a decoded texture. Only a decoded image with 3 or 4 colour
     * channels is registered; the entry goes into the first unused slot.
     */
    method CreateGLTexture(tag: string, decoded: bool, channels: int, handle: nat) returns (ok: bool)
      requires Valid()
      requires decoded && (channels == 3 || channels == 4) ==> loadedTextures < TextureCapacity
      modifies this`loadedTextures, textureIDs
      ensures Valid()
      ensures ok <==> decoded && (channels == 3 || channels == 4)
      ensures ok ==> (loadedTextures == old(loadedTextures) + 1
                      && textureIDs[..] == old(textureIDs[..])[old(loadedTextures) := TextureInfo(handle, tag)])
      ensures ok ==> Entries() == old(Entries()) + [TextureInfo(handle, tag)]
      ensures !ok ==> loadedTextures == old(loadedTextures) && textureIDs[..] == old(textureIDs[..])
    {
      if !decoded {
        return false;
      }
      if channels != 3 && channels != 4 {
        return false;
      }
      textureIDs[loadedTextures] := textureIDs[loadedTextures].(id := handle);
      textureIDs[loadedTextures] := textureIDs[loadedTextures].(tag := tag);
      loadedTextures := loadedTextures + 1;
      ok := true;
    }

    /** The slot of the first registered texture with this tag, or -1. */
    method FindTextureSlot(tag: string) returns (slot: int)
      requires Valid()
      ensures slot == FirstIndex(TextureTags(Entries()), tag)
      ensures -1 <= slot < loadedTextures
      ensures slot >= 0 ==> textureIDs[slot].tag == tag && forall j :: 0 <= j < slot ==> textureIDs[j].tag != tag
      ensures slot < 0 <==> forall j :: 0 <= j < loadedTextures ==> textureIDs[j].tag != tag
    {
      slot := -1;
      var index := 0;
      var found := false;
      while index < loadedTextures && !found
        invariant 0 <= index <= loadedTextures
        invariant forall j :: 0 <= j < index ==> textureIDs[j].tag != tag
        invariant found ==> index < loadedTextures && textureIDs[index].tag == tag && slot == index
        invariant !found ==> slot == -1
        decreases loadedTextures - index + (if found then 0 else 1)
      {
        if textureIDs[index].tag == tag {
          slot := index;
          found := true;
        } else {
          index := index + 1;
        }
      }
      ScanResult(tag, index, found);
    }

    /** The handle of the first registered texture with this tag, or -1. */
    method FindTextureID(tag: string) returns (id: int)
      requires Valid()
      ensures var k := FirstIndex(TextureTags(Entries()), tag);
              id == if k >= 0 then Entries()[k].id else -1
      ensures id == -1 <==> tag !in TextureTags(Entries())
    {
      id := -1;
      var index := 0;
      var found := false;
      while index < loadedTextures && !found
        invariant 0 <= index <= loadedTextures
        invariant forall j :: 0 <= j < index ==> textureIDs[j].tag != tag
        invariant found ==> index < loadedTextures && textureIDs[index].tag == tag && id == textureIDs[index].id
        invariant !found ==> id == -1
        decreases loadedTextures - index + (if found then 0 else 1)
      {
        if textureIDs[index].tag == tag {
          id := textureIDs[index].id;
          found := true;
        } else {
          index := index + 1;
        }
      }
      ScanResult(tag, index, found);
      FirstIndexMisses(TextureTags(Entries()), tag);
    }

    /** Where a front-to-back scan of the registry stops, in terms of FirstIndex. */
    lemma ScanResult(tag: string, index: int, found: bool)
      requires Valid()
      requires 0 <= index <= loadedTextures
      requires forall j :: 0 <= j < index ==> textureIDs[j].tag != tag
      requires found ==> index < loadedTextures && textureIDs[index].tag == tag
      requires !found ==> index == loadedTextures
      ensures FirstIndex(TextureTags(Entries()), tag) == if found then index else -1
    {
      var tags := TextureTags(Entries());
      var k := FirstIndex(tags, tag);
      assert forall j :: 0 <= j < loadedTextures ==> tags[j] == textureIDs[j].tag;
      if found {
        assert tags[index] == tag;
      }
    }

    /**
     * Walks the registered slots and, for each, has the driver generate a new
     * texture name that is stored in the slot's ID; `names[i]` is the name
     * generated for slot i. Nothing is deleted, and tags and the count stay
     * as they were, so later lookups find the same slots with the new names.
     */
    method DestroyGLTextures(names: seq<nat>)
      requires Valid() && |names| == loadedTextures
      modifies textureIDs
      ensures Valid()
      ensures forall i :: 0 <= i < loadedTextures ==> textureIDs[i] == old(textureIDs[i]).(id := names[i])
      ensures forall i :: loadedTextures <= i < textureIDs.Length ==> textureIDs[i] == old(textureIDs[i])
      ensures TextureTags(Entries()) == old(TextureTags(Entries()))
      ensures forall k :: 0 <= k < loadedTextures ==> Entries()[k].id == names[k]
    {
      for i := 0 to loadedTextures
        invariant forall j :: 0 <= j < i ==> textureIDs[j] == old(textureIDs[j]).(id := names[j])
        invariant forall j :: i <= j < textureIDs.Length ==> textureIDs[j] == old(textureIDs[j])
      {
        textureIDs[i] := textureIDs[i].(id := names[i]);
      }
    }

    // -------------------------------------------------------------------
    // Material registry

    /** Replaces the material list with the scene's two materials. */
    method DefineObjectMaterials()
      modifies this`objectMaterials
      ensures objectMaterials == [SnowMaterial, HouseMaterial]
      ensures MaterialTags(objectMaterials) == ["snow", "house"]
    {
      objectMaterials := [];
      objectMaterials := objectMaterials + [SnowMaterial];
      objectMaterials := objectMaterials + [HouseMaterial];
    }

    /**
     * The material lookup as written. `material` is the caller's variable on
     * entry and `result` its contents on return: on a hit the five lighting
     * properties of the first match are copied in; otherwise it is left as
     * it was. The returned flag is true whenever the list is non-empty,
     * whether or not the tag was found.
     */
    method FindMaterial(tag: string, material: Material) returns (found: bool, result: Material)
      ensures found <==> |objectMaterials| > 0
      ensures var k := FirstIndex(MaterialTags(objectMaterials), tag);
              result == if k >= 0 then CopyProperties(material, objectMaterials[k]) else material
      ensures tag !in MaterialTags(objectMaterials) ==> result == material
    {
      result := material;
      if |objectMaterials| == 0 {
        return false, result;
      }
      var index := 0;
      var hit := false;
      while index < |objectMaterials| && !hit
        invariant 0 <= index <= |objectMaterials|
        invariant forall j :: 0 <= j < index ==> objectMaterials[j].tag != tag
        invariant hit ==> index < |objectMaterials| && objectMaterials[index].tag == tag
                          && result == CopyProperties(material, objectMaterials[index])
        invariant !hit ==> result == material
        decreases |objectMaterials| - index + (if hit then 0 else 1)
      {
        if objectMaterials[index].tag == tag {
          hit := true;
          result := CopyProperties(result, objectMaterials[index]);
        } else {
          index := index + 1;
        }
      }
      MaterialScanResult(tag, index, hit);
      FirstIndexMisses(MaterialTags(objectMaterials), tag);
      found := true;
    }

    /** The lookup with the flag it evidently means to return: whether the tag was found. */
    method FindMaterialChecked(tag: string, material: Material) returns (found: bool, result: Material)
      ensures found <==> tag in MaterialTags(objectMaterials)
      ensures var k := FirstIndex(MaterialTags(objectMaterials), tag);
              result == if k >= 0 then CopyProperties(material, objectMaterials[k]) else material
    {
      result := material;
      if |objectMaterials| == 0 {
        return false, result;
      }
      var index := 0;
      var hit := false;
      while index < |objectMaterials| && !hit
        invariant 0 <= index <= |objectMaterials|
        invariant forall j :: 0 <= j < index ==> objectMaterials[j].tag != tag
        invariant hit ==> index < |objectMaterials| && objectMaterials[index].tag == tag
                          && result == CopyProperties(material, objectMaterials[index])
        invariant !hit ==> result == material
        decreases |objectMaterials| - index + (if hit then 0 else 1)
      {
        if objectMaterials[index].tag == tag {
          hit := true;
          result := CopyProperties(result, objectMaterials[index]);
        } else {
          index := index + 1;
        }
      }
      MaterialScanResult(tag, index, hit);
      FirstIndexMisses(MaterialTags(objectMaterials), tag);
      found := hit;
    }

    /** Where a front-to-back scan of the material list stops, in terms of FirstIndex. */
    lemma MaterialScanResult(tag: string, index: int, hit: bool)
      requires 0 <= index <= |objectMaterials|
      requires forall j :: 0 <= j < index ==> objectMaterials[j].tag != tag
      requires hit ==> index < |objectMaterials| && objectMaterials[index].tag == tag
      requires !hit ==> index == |objectMaterials|
      ensures FirstIndex(MaterialTags(objectMaterials), tag) == if hit then index else -1
    {
      var tags := MaterialTags(objectMaterials);
      var k := FirstIndex(tags, tag);
      assert forall j :: 0 <= j < |objectMaterials| ==> tags[j] == objectMaterials[j].tag;
      if hit {
        assert tags[index] == tag;
      }
    }

    /** The five writes that upload a material, in the order the program makes them. */
    method UploadMaterial(m: Material)
      requires shader != null
      modifies shader
      ensures shader.uniforms == WriteMaterial(old(shader.uniforms), m)
    {
      shader.SetValue(MaterialParam(MatAmbientColor), UVec3(m.ambientColor));
      shader.SetValue(MaterialParam(MatAmbientStrength), UFloat(m.ambientStrength));
      shader.SetValue(MaterialParam(MatDiffuseColor), UVec3(m.diffuseColor));
      shader.SetValue(MaterialParam(MatSpecularColor), UVec3(m.specularColor));
      shader.SetValue(MaterialParam(MatShininess), UFloat(m.shininess));
    }

    /**
     * Uploads the material with this tag, as written. `indeterminate` stands
     * for the contents of the uninitialised local the lookup writes into;
     * the shader pointer is used without a null check once the list is
     * non-empty.
     */
    method SetShaderMaterial(tag: string, indeterminate: Material)
      requires |objectMaterials| > 0 ==> shader != null
      modifies shader
      ensures shader != null ==>
                shader.uniforms == MaterialUploadAsWritten(old(shader.uniforms), objectMaterials, tag, indeterminate)
    {
      if |objectMaterials| > 0 {
        var found, material := FindMaterial(tag, indeterminate);
        if found {
          UploadMaterial(material);
        }
      }
    }

    /** Uploads the material with this tag, and nothing when no material has it. */
    method SetShaderMaterialChecked(tag: string, indeterminate: Material)
      requires tag in MaterialTags(objectMaterials) ==> shader != null
      modifies shader
      ensures shader != null ==> shader.uniforms == MaterialUpload(old(shader.uniforms), objectMaterials, tag)
    {
      if |objectMaterials| > 0 {
        var found, material := FindMaterialChecked(tag, indeterminate);
        if found {
          UploadMaterial(material);
          CopyUploadsSource(old(shader.uniforms), indeterminate, objectMaterials[FirstIndex(MaterialTags(objectMaterials), tag)]);
        }
      }
    }

    /**
     * The material helper of the render pass: uploads the first material
     * whose tag matches and stops; uploads nothing when none matches.
     */
    method ApplyMat(tag: string)
      requires tag in MaterialTags(objectMaterials) ==> shader != null
      modifies shader
      ensures shader != null ==> shader.uniforms == MaterialUpload(old(shader.uniforms), objectMaterials, tag)
    {
      for i := 0 to |objectMaterials|
        invariant forall j :: 0 <= j < i ==> objectMaterials[j].tag != tag
        invariant shader != null ==> shader.uniforms == old(shader.uniforms)
      {
        if objectMaterials[i].tag == tag {
          var m := objectMaterials[i];
          assert MaterialTags(objectMaterials)[i] == tag;
          shader.SetValue(MaterialParam(MatAmbientStrength), UFloat(m.ambientStrength));
          shader.SetValue(MaterialParam(MatAmbientColor), UVec3(m.ambientColor));
          shader.SetValue(MaterialParam(MatDiffuseColor), UVec3(m.diffuseColor));
          shader.SetValue(MaterialParam(MatSpecularColor), UVec3(m.specularColor));
          shader.SetValue(MaterialParam(MatShininess), UFloat(m.shininess));
          MaterialScanResult(tag, i, true);
          return;
        }
      }
      MaterialScanResult(tag, |objectMaterials|, false);
    }

    // -------------------------------------------------------------------
    // Per-draw uniforms

    /** Uploads the model matrix T * Rx * Ry * Rz * S. */
    method SetTransformations(scale: Vec3, xDeg: real, yDeg: real, zDeg: real, position: Vec3)
      modifies shader
      ensures shader != null ==> shader.uniforms == old(shader.uniforms)[Model := UMat4(ModelMatrix(scale, xDeg, yDeg, zDeg, position))]
    {
      var modelView := ModelMatrix(scale, xDeg, yDeg, zDeg, position);
      if shader != null {
        shader.SetValue(Model, UMat4(modelView));
      }
    }

    /** Switches texturing off and sets the flat colour. */
    method SetShaderColor(r: real, g: real, b: real, a: real)
      modifies shader
      ensures shader != null ==> shader.uniforms == old(shader.uniforms)[UseTexture := UInt(0)][ObjectColor := UVec4(Color(r, g, b, a))]
    {
      var currentColor := Color(r, g, b, a);
      if shader != null {
        shader.SetValue(UseTexture, UInt(0));
        shader.SetValue(ObjectColor, UVec4(currentColor));
      }
    }

    /**
     * Switches texturing on and points the sampler at the slot of the tagged
     * texture; the slot is -1 when no texture has the tag.
     */
    method SetShaderTexture(tag: string)
      requires Valid()
      modifies shader
      ensures shader != null ==> shader.uniforms == old(shader.uniforms)[UseTexture := UInt(1)]
                                   [ObjectTexture := USampler(FirstIndex(TextureTags(Entries()), tag))]
      ensures shader != null ==> (shader.uniforms[ObjectTexture] == USampler(-1) <==> tag !in TextureTags(Entries()))
    {
      if shader != null {
        shader.SetValue(UseTexture, UInt(1));
        var textureID := FindTextureSlot(tag);
        shader.SetValue(ObjectTexture, USampler(textureID));
        FirstIndexMisses(TextureTags(Entries()), tag);
      }
    }

    /** Sets the texture-coordinate scale. */
    method SetTextureUVScale(u: real, v: real)
      modifies shader
      ensures shader != null ==> shader.uniforms == old(shader.uniforms)[UVScale := UVec2(u, v)]
    {
      if shader != null {
        shader.SetValue(UVScale, UVec2(u, v));
      }
    }

    /**
     * The texture toggle of the render pass: texturing is on exactly for a
     * non-zero texture handle. Binding the handle to unit 0 is a GL call and
     * is not modelled.
     */
    method UseTexture2D(texID: nat)
      requires shader != null
      modifies shader
      ensures shader.uniforms == old(shader.uniforms)[UseTexture := UInt(if texID != 0 then 1 else 0)]
    {
      if texID != 0 {
        shader.SetValue(UseTexture, UInt(1));
      } else {
        shader.SetValue(UseTexture, UInt(0));
      }
    }

    // -------------------------------------------------------------------
    // Lights

    /** Turns lighting on, makes all four slots inert, then configures slots 0 and 1. */
    method SetupSceneLights()
      requires shader != null
      modifies shader
      ensures shader.uniforms == SceneLights(old(shader.uniforms))
    {
      shader.SetValue(UseLighting, UBool(true));
      ghost var lit := shader.uniforms;
      for i := 0 to LightCount
        invariant shader.uniforms == ZeroLights(lit, i)
      {
        shader.SetValue(LightParam(i, Position), UVec3(Splat(0.0)));
        shader.SetValue(LightParam(i, AmbientColor), UVec3(Splat(0.0)));
        shader.SetValue(LightParam(i, DiffuseColor), UVec3(Splat(0.0)));
        shader.SetValue(LightParam(i, SpecularColor), UVec3(Splat(0.0)));
        shader.SetValue(LightParam(i, FocalStrength), UFloat(1.0));
        shader.SetValue(LightParam(i, SpecularIntensity), UFloat(0.0));
      }
      shader.SetValue(LightParam(0, Position), UVec3(Vec3(6.0, 7.0, 3.0)));
      shader.SetValue(LightParam(0, AmbientColor), UVec3(Vec3(0.02, 0.03, 0.05)));
      shader.SetValue(LightParam(0, DiffuseColor), UVec3(Vec3(0.65, 0.75, 1.00)));
      shader.SetValue(LightParam(0, SpecularColor), UVec3(Vec3(0.85, 0.90, 1.00)));
      shader.SetValue(LightParam(0, FocalStrength), UFloat(32.0));
      shader.SetValue(LightParam(0, SpecularIntensity), UFloat(0.60));

      shader.SetValue(LightParam(1, Position), UVec3(Vec3(-6.0, 4.0, -4.0)));
      shader.SetValue(LightParam(1, AmbientColor), UVec3(Splat(0.00)));
      shader.SetValue(LightParam(1, DiffuseColor), UVec3(Vec3(0.55, 0.45, 0.70)));
      shader.SetValue(LightParam(1, SpecularColor), UVec3(Vec3(0.20, 0.16, 0.28)));
      shader.SetValue(LightParam(1, FocalStrength), UFloat(16.0));
      shader.SetValue(LightParam(1, SpecularIntensity), UFloat(0.20));
    }

    // -------------------------------------------------------------------
    // Assembly helpers

    /**
     * One unrotated flat-coloured draw, the step the assembly helpers repeat:
     * place the primitive, set its colour, draw it. The new uniforms are the
     * placement on top of the old ones and the log gains one draw under them;
     * `PlacedDraw` shows that draw is flat and that nothing else changed.
     */
    method DrawPlaced(kind: Primitive, scale: Vec3, position: Vec3, color: Color)
      requires shader != null
      modifies shader, meshes
      ensures shader.uniforms == Placed(old(shader.uniforms), ModelMatrix(scale, 0.0, 0.0, 0.0, position), color)
      ensures meshes.drawn == old(meshes.drawn) + [DrawCall(kind, shader.uniforms)]
    {
      SetTransformations(scale, 0.0, 0.0, 0.0, position);
      SetShaderColor(color.r, color.g, color.b, color.a);
      meshes.Draw(kind, shader.uniforms);
    }

    /**
     * A tree on `basePos`: a trunk cylinder, a crown cone above it and a flat
     * snow cap cylinder on the crown, each drawn untextured in its own colour.
     * Each draw sees the uniforms of the call's start with only its own
     * placement applied, and the cap's placement is left in force.
     */
    method DrawTree(basePos: Vec3, trunkH: real, trunkR: real, crownH: real, crownR: real)
      requires shader != null
      modifies shader, meshes
      ensures var n := |old(meshes.drawn)|;
              && |meshes.drawn| == n + 3 && meshes.drawn[..n] == old(meshes.drawn)
              && FlatDraw(meshes.drawn[n], Cylinder, Trunk(basePos, trunkH, trunkR), TrunkColor)
              && FlatDraw(meshes.drawn[n + 1], Cone, Crown(basePos, trunkH, crownH, crownR), CrownColor)
              && FlatDraw(meshes.drawn[n + 2], Cylinder, SnowCap(basePos, trunkH, crownH, crownR), SnowCapColor)
      ensures var n := |old(meshes.drawn)|;
              && |meshes.drawn| == n + 3
              && meshes.drawn[n].state == Placed(old(shader.uniforms), Trunk(basePos, trunkH, trunkR), TrunkColor)
              && meshes.drawn[n + 1].state == Placed(old(shader.uniforms), Crown(basePos, trunkH, crownH, crownR), CrownColor)
              && meshes.drawn[n + 2].state == Placed(old(shader.uniforms), SnowCap(basePos, trunkH, crownH, crownR), SnowCapColor)
      ensures shader.uniforms == Placed(old(shader.uniforms), SnowCap(basePos, trunkH, crownH, crownR), SnowCapColor)
      ensures AgreeOutside(old(shader.uniforms), shader.uniforms, {Model, UseTexture, ObjectColor})
    {
      ghost var u0 := shader.uniforms;
      SetTransformations(Vec3(trunkR, trunkH, trunkR), 0.0, 0.0, 0.0, Add(basePos, Vec3(0.0, trunkH * 0.5, 0.0)));
      shader.SetValue(UseTexture, UInt(0));
      SetShaderColor(0.35, 0.30, 0.28, 1.0);
      meshes.Draw(Cylinder, shader.uniforms);
      assert shader.uniforms == Placed(u0, Trunk(basePos, trunkH, trunkR), TrunkColor);
      PlacedDraw(u0, Cylinder, Trunk(basePos, trunkH, trunkR), TrunkColor);

      var crownPos := Add(basePos, Vec3(0.0, trunkH + crownH * 0.5, 0.0));
      DrawPlaced(Cone, Vec3(crownR, crownH, crownR), crownPos, Color(0.55, 0.70, 0.68, 1.0));
      PlacedOverrides(u0, Trunk(basePos, trunkH, trunkR), TrunkColor, Crown(basePos, trunkH, crownH, crownR), CrownColor);
      PlacedDraw(u0, Cone, Crown(basePos, trunkH, crownH, crownR), CrownColor);

      DrawPlaced(Cylinder, Vec3(crownR * 0.55, 0.08, crownR * 0.55), Add(basePos, Vec3(0.0, trunkH + crownH - 0.02, 0.0)),
                 Color(0.90, 0.95, 1.0, 1.0));
      PlacedOverrides(u0, Crown(basePos, trunkH, crownH, crownR), CrownColor, SnowCap(basePos, trunkH, crownH, crownR), SnowCapColor);
      PlacedDraw(u0, Cylinder, SnowCap(basePos, trunkH, crownH, crownR), SnowCapColor);
    }

    /**
     * The two rails of a fence line, centred on the post run and one spacing
     * per post long: the lower one in a darker and the upper one in a lighter
     * flat colour.
     */
    method DrawFenceRails(start: Vec3, dir: Vec3, posts: int, spacing: real)
      requires shader != null
      modifies shader, meshes
      ensures meshes.drawn == old(meshes.drawn)
                + [DrawCall(Box, Placed(old(shader.uniforms), LowerRail(start, dir, posts, spacing), LowerRailColor)),
                   DrawCall(Box, Placed(old(shader.uniforms), UpperRail(start, dir, posts, spacing), UpperRailColor))]
      ensures shader.uniforms == Placed(old(shader.uniforms), UpperRail(start, dir, posts, spacing), UpperRailColor)
    {
      ghost var u0 := shader.uniforms;
      var mid := FenceMidpoint(start, dir, posts, spacing);
      SetTransformations(RailScale(posts, spacing), 0.0, 0.0, 0.0, Add(mid, Vec3(0.0, -0.30, 0.0)));
      shader.SetValue(UseTexture, UInt(0));
      SetShaderColor(0.55, 0.53, 0.56, 1.0);
      meshes.Draw(Box, shader.uniforms);
      assert shader.uniforms == Placed(u0, LowerRail(start, dir, posts, spacing), LowerRailColor);

      DrawPlaced(Box, RailScale(posts, spacing), Add(mid, Vec3(0.0, 0.05, 0.0)), Color(0.58, 0.56, 0.60, 1.0));
      PlacedOverrides(u0, LowerRail(start, dir, posts, spacing), LowerRailColor, UpperRail(start, dir, posts, spacing), UpperRailColor);
    }

    /**
     * A fence line: a lower and an upper rail centred on the post run, then
     * one post per index, each post one spacing further along `dir`. Each
     * draw sees the uniforms of the call's start with only its own placement
     * applied; the last placement (the last post, or the upper rail when
     * there are no posts) is left in force.
     */
    method DrawFenceLine(start: Vec3, dir: Vec3, posts: int, spacing: real)
      requires shader != null
      modifies shader, meshes
      ensures meshes.drawn == old(meshes.drawn) + FenceDraws(old(shader.uniforms), start, dir, posts, spacing)
      ensures var n := |old(meshes.drawn)|;
              && |meshes.drawn| == n + 2 + (if posts > 0 then posts else 0)
              && meshes.drawn[..n] == old(meshes.drawn)
              && FlatDraw(meshes.drawn[n], Box, LowerRail(start, dir, posts, spacing), LowerRailColor)
              && FlatDraw(meshes.drawn[n + 1], Box, UpperRail(start, dir, posts, spacing), UpperRailColor)
      ensures var n := |old(meshes.drawn)|;
              forall k :: n + 2 <= k < |meshes.drawn| ==>
                FlatDraw(meshes.drawn[k], Box, Post(start, dir, spacing, k - n - 2), PostColor)
      ensures shader.uniforms == if posts > 0 then Placed(old(shader.uniforms), Post(start, dir, spacing, posts - 1), PostColor)
                                 else Placed(old(shader.uniforms), UpperRail(start, dir, posts, spacing), UpperRailColor)
      ensures AgreeOutside(old(shader.uniforms), shader.uniforms, {Model, UseTexture, ObjectColor})
    {
      ghost var before := meshes.drawn;
      ghost var u0 := shader.uniforms;
      DrawFenceRails(start, dir, posts, spacing);
      ghost var rails := meshes.drawn;

      var i := 0;
      while i < posts
        invariant 0 <= i <= (if posts > 0 then posts else 0)
        invariant meshes.drawn == rails + PostDraws(u0, start, dir, spacing, i)
        invariant shader.uniforms == if i > 0 then Placed(u0, Post(start, dir, spacing, i - 1), PostColor)
                                     else Placed(u0, UpperRail(start, dir, posts, spacing), UpperRailColor)
      {
        var p := PostFoot(start, dir, spacing, i);
        ghost var prev := if i > 0 then Post(start, dir, spacing, i - 1) else UpperRail(start, dir, posts, spacing);
        ghost var prevColor := if i > 0 then PostColor else UpperRailColor;
        DrawPlaced(Box, Vec3(0.10, 0.60, 0.10), Add(p, Vec3(0.0, 0.15, 0.0)), Color(0.50, 0.48, 0.52, 1.0));
        PlacedOverrides(u0, prev, prevColor, Post(start, dir, spacing, i), PostColor);
        PostDrawsStep(u0, start, dir, spacing, i);
        i := i + 1;
      }
      FenceFinish(before, rails, u0, start, dir, posts, spacing);
      if posts > 0 {
        PlacedDraw(u0, Box, Post(start, dir, spacing, posts - 1), PostColor);
      } else {
        PlacedDraw(u0, Box, UpperRail(start, dir, posts, spacing), UpperRailColor);
      }
    }

    /** Puts the rail draws and the post draws of a fence line together. */
    lemma FenceFinish(before: seq<DrawCall>, rails: seq<DrawCall>, u0: UniformMap, start: Vec3, dir: Vec3, posts: int, spacing: real)
      requires rails == before + [DrawCall(Box, Placed(u0, LowerRail(start, dir, posts, spacing), LowerRailColor)),
                                  DrawCall(Box, Placed(u0, UpperRail(start, dir, posts, spacing), UpperRailColor))]
      ensures var drawn := rails + PostDraws(u0, start, dir, spacing, if posts > 0 then posts else 0);
              var n := |before|;
              && drawn == before + FenceDraws(u0, start, dir, posts, spacing)
              && |drawn| == n + 2 + (if posts > 0 then posts else 0)
              && drawn[..n] == before
              && FlatDraw(drawn[n], Box, LowerRail(start, dir, posts, spacing), LowerRailColor)
              && FlatDraw(drawn[n + 1], Box, UpperRail(start, dir, posts, spacing), UpperRailColor)
              && forall k :: n + 2 <= k < |drawn| ==> FlatDraw(drawn[k], Box, Post(start, dir, spacing, k - n - 2), PostColor)
    {
      var f := FenceDraws(u0, start, dir, posts, spacing);
      var drawn := rails + PostDraws(u0, start, dir, spacing, if posts > 0 then posts else 0);
      var n := |before|;
      assert drawn == before + f;
      FenceDrawsFlat(u0, start, dir, posts, spacing);
      forall k | n <= k < |drawn|
        ensures drawn[k] == f[k - n]
      {
      }
    }
  }
}
