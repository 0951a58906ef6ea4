/**
 * Uploading a material: the five "material.*" uniforms, and what the two
 * upload paths of the scene manager leave in the shader.
 */
module Materials {
  import opened Geometry
  import opened Uniforms
  import opened Registry

  /** The five uniform names of the shader's material struct. */
  function MaterialNames(): set<UniformName> {
    {MaterialParam(MatAmbientColor), MaterialParam(MatAmbientStrength), MaterialParam(MatDiffuseColor),
     MaterialParam(MatSpecularColor), MaterialParam(MatShininess)}
  }

  /** The uniform map after the five writes that upload m (the tag is not uploaded). */
  function WriteMaterial(u: UniformMap, m: Material): UniformMap {
    u[MaterialParam(MatAmbientColor) := UVec3(m.ambientColor)]
     [MaterialParam(MatAmbientStrength) := UFloat(m.ambientStrength)]
     [MaterialParam(MatDiffuseColor) := UVec3(m.diffuseColor)]
     [MaterialParam(MatSpecularColor) := UVec3(m.specularColor)]
     [MaterialParam(MatShininess) := UFloat(m.shininess)]
  }

  /** The shader holds the five lighting properties of m. */
  predicate HoldsMaterial(u: UniformMap, m: Material) {
    && MaterialParam(MatAmbientColor) in u && u[MaterialParam(MatAmbientColor)] == UVec3(m.ambientColor)
    && MaterialParam(MatAmbientStrength) in u && u[MaterialParam(MatAmbientStrength)] == UFloat(m.ambientStrength)
    && MaterialParam(MatDiffuseColor) in u && u[MaterialParam(MatDiffuseColor)] == UVec3(m.diffuseColor)
    && MaterialParam(MatSpecularColor) in u && u[MaterialParam(MatSpecularColor)] == UVec3(m.specularColor)
    && MaterialParam(MatShininess) in u && u[MaterialParam(MatShininess)] == UFloat(m.shininess)
  }

  /** Uploading a material makes the shader hold it and changes no other uniform. */
  lemma WriteMaterialEffect(u: UniformMap, m: Material)
    ensures HoldsMaterial(WriteMaterial(u, m), m)
    ensures AgreeOutside(u, WriteMaterial(u, m), MaterialNames())
  {
  }

  /**
   * The intended effect of selecting a material by tag: upload the first
   * material carrying the tag; leave the shader untouched when none does.
   */
  function MaterialUpload(u: UniformMap, materials: seq<Material>, tag: string): UniformMap {
    var k := FirstIndex(MaterialTags(materials), tag);
    if k >= 0 then WriteMaterial(u, materials[k]) else u
  }

  /**
   * What the material lookup followed by the upload does as written: with a
   * non-empty list it always uploads its out-parameter, which holds the first
   * match's properties on a hit and the local variable's indeterminate
   * contents on a miss.
   */
  function MaterialUploadAsWritten(u: UniformMap, materials: seq<Material>, tag: string, indeterminate: Material): UniformMap {
    var k := FirstIndex(MaterialTags(materials), tag);
    if |materials| == 0 then u
    else WriteMaterial(u, if k >= 0 then CopyProperties(indeterminate, materials[k]) else indeterminate)
  }

  /** On a hit the shader holds the first matching material; on a miss nothing changes. */
  lemma MaterialUploadEffect(u: UniformMap, materials: seq<Material>, tag: string)
    ensures var k := FirstIndex(MaterialTags(materials), tag);
            && (k >= 0 ==> HoldsMaterial(MaterialUpload(u, materials, tag), materials[k]))
            && (tag !in MaterialTags(materials) ==> MaterialUpload(u, materials, tag) == u)
    ensures AgreeOutside(u, MaterialUpload(u, materials, tag), MaterialNames())
  {
    FirstIndexMisses(MaterialTags(materials), tag);
    var k := FirstIndex(MaterialTags(materials), tag);
    if k >= 0 {
      WriteMaterialEffect(u, materials[k]);
    }
  }

  /** Only the five material properties are uploaded, so the out-parameter's tag never matters. */
  lemma CopyUploadsSource(u: UniformMap, target: Material, source: Material)
    ensures WriteMaterial(u, CopyProperties(target, source)) == WriteMaterial(u, source)
  {
  }

  /**
   * As written, the upload happens exactly when the list is non-empty, and it
   * agrees with the intended upload whenever the tag is found.
   */
  lemma AsWrittenUploadsWhenNonEmpty(u: UniformMap, materials: seq<Material>, tag: string, indeterminate: Material)
    ensures |materials| == 0 ==> MaterialUploadAsWritten(u, materials, tag, indeterminate) == u
    ensures |materials| > 0 ==> MaterialNames() <= MaterialUploadAsWritten(u, materials, tag, indeterminate).Keys
    ensures tag in MaterialTags(materials) ==>
              MaterialUploadAsWritten(u, materials, tag, indeterminate) == MaterialUpload(u, materials, tag)
  {
    FirstIndexMisses(MaterialTags(materials), tag);
    var k := FirstIndex(MaterialTags(materials), tag);
    if k >= 0 {
      CopyUploadsSource(u, indeterminate, materials[k]);
    }
  }

  /**
   * As written, a tag that is not in a non-empty list uploads the
   * indeterminate contents of the out-parameter, where the intended upload
   * leaves the shader as it was.
   */
  lemma AsWrittenMissUploadsIndeterminate(u: UniformMap, materials: seq<Material>, tag: string, indeterminate: Material)
    requires |materials| > 0 && tag !in MaterialTags(materials)
    ensures HoldsMaterial(MaterialUploadAsWritten(u, materials, tag, indeterminate), indeterminate)
    ensures MaterialUpload(u, materials, tag) == u
  {
    FirstIndexMisses(MaterialTags(materials), tag);
    WriteMaterialEffect(u, indeterminate);
  }

  /**
   * A concrete instance: with the scene's two materials and the tag "roof",
   * the upload as written changes an empty uniform map; the intended one
   * leaves it empty.
   */
  lemma RoofTagExample(indeterminate: Material)
    ensures MaterialUploadAsWritten(map[], [SnowMaterial, HouseMaterial], "roof", indeterminate) != map[]
    ensures MaterialUpload(map[], [SnowMaterial, HouseMaterial], "roof") == map[]
  {
    SceneMaterialLookup("roof");
    FirstIndexMisses(MaterialTags([SnowMaterial, HouseMaterial]), "roof");
    AsWrittenMissUploadsIndeterminate(map[], [SnowMaterial, HouseMaterial], "roof", indeterminate);
  }
}
