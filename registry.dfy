/**
 * The values held by the texture and material registries, and the
 * first-match tag lookup both registries use.
 */
module Registry {
  import opened Geometry

  /**
   * Texture units available to the registry. The source comment speaks of up
   * to 16 slots; the array that holds the entries is declared in a header
   * that is not part of this model.
   */
  const TextureCapacity := 16

  /** One registered texture: the GL texture object and the tag it was loaded under. */
  datatype TextureInfo = TextureInfo(id: nat, tag: string)

  /** One material, in the field order of its aggregate initialiser. */
  datatype Material = Material(
    ambientStrength: real,
    ambientColor: Vec3,
    diffuseColor: Vec3,
    specularColor: Vec3,
    shininess: real,
    tag: string)

  function TextureTags(entries: seq<TextureInfo>): seq<string> {
    seq(|entries|, i requires 0 <= i < |entries| => entries[i].tag)
  }

  function MaterialTags(materials: seq<Material>): seq<string> {
    seq(|materials|, i requires 0 <= i < |materials| => materials[i].tag)
  }

  /**
   * The least index whose tag equals `tag`, or -1 when no tag does: the
   * result of a front-to-back scan that stops at the first match.
   */
  function FirstIndex(tags: seq<string>, tag: string): (r: int)
    ensures -1 <= r < |tags|
    ensures r >= 0 ==> tags[r] == tag
    ensures forall j :: 0 <= j < |tags| && (r < 0 || j < r) ==> tags[j] != tag
    decreases |tags|
  {
    if tags == [] then -1
    else if tags[0] == tag then 0
    else
      var rest := FirstIndex(tags[1..], tag);
      if rest < 0 then -1 else rest + 1
  }

  /** The lookup misses exactly when the tag is absent. */
  lemma FirstIndexMisses(tags: seq<string>, tag: string)
    ensures FirstIndex(tags, tag) < 0 <==> tag !in tags
  {
  }

  /**
   * Appending a tag and looking it up: the new entry is found at the end
   * unless an earlier entry carries the same tag, which then shadows it.
   */
  lemma FindAfterAppend(tags: seq<string>, tag: string, other: string)
    ensures FirstIndex(tags + [tag], tag) == if tag in tags then FirstIndex(tags, tag) else |tags|
    ensures other != tag ==> FirstIndex(tags + [tag], other) == FirstIndex(tags, other)
  {
    FirstIndexMisses(tags, tag);
    FirstIndexMisses(tags, other);
    var r := FirstIndex(tags + [tag], tag);
    var k := FirstIndex(tags, tag);
    if tag in tags {
      assert (tags + [tag])[k] == tag;
    } else {
      assert (tags + [tag])[|tags|] == tag;
    }
    if other != tag {
      var q := FirstIndex(tags + [tag], other);
      var p := FirstIndex(tags, other);
      if p >= 0 {
        assert (tags + [tag])[p] == other;
      }
    }
  }

  /**
   * Registering an entry and looking its tag up: the new entry is found at
   * the end of the registry unless an earlier entry carries the same tag.
   */
  lemma RegisterThenFind(entries: seq<TextureInfo>, info: TextureInfo)
    ensures FirstIndex(TextureTags(entries + [info]), info.tag)
         == if info.tag in TextureTags(entries) then FirstIndex(TextureTags(entries), info.tag) else |entries|
  {
    assert TextureTags(entries + [info]) == TextureTags(entries) + [info.tag];
    FindAfterAppend(TextureTags(entries), info.tag, info.tag);
  }

  /** With pairwise distinct tags, every entry is found at its own index. */
  lemma FindDistinct(tags: seq<string>, k: nat)
    requires forall i, j :: 0 <= i < j < |tags| ==> tags[i] != tags[j]
    requires k < |tags|
    ensures FirstIndex(tags, tags[k]) == k
  {
  }

  // ---------------------------------------------------------------------
  // The two materials of the scene

  const SnowMaterial := Material(0.18, Vec3(0.70, 0.78, 0.92), Vec3(0.80, 0.88, 0.98), Splat(0.15), 8.0, "snow")

  const HouseMaterial := Material(0.15, Vec3(0.62, 0.62, 0.70), Vec3(0.70, 0.70, 0.78), Splat(0.18), 12.0, "house")

  /** Snow is found first, house second, and any other tag is missing. */
  lemma SceneMaterialLookup(tag: string)
    ensures FirstIndex(MaterialTags([SnowMaterial, HouseMaterial]), "snow") == 0
    ensures FirstIndex(MaterialTags([SnowMaterial, HouseMaterial]), "house") == 1
    ensures tag != "snow" && tag != "house" ==> FirstIndex(MaterialTags([SnowMaterial, HouseMaterial]), tag) == -1
  {
    var tags := MaterialTags([SnowMaterial, HouseMaterial]);
    assert tags == ["snow", "house"];
    assert "snow" != "house";
  }

  /**
   * The copy FindMaterial makes into its out-parameter: the five lighting
   * properties of `source`, the tag of `target` left as it was.
   */
  function CopyProperties(target: Material, source: Material): Material {
    target.(ambientStrength := source.ambientStrength,
            ambientColor := source.ambientColor,
            diffuseColor := source.diffuseColor,
            specularColor := source.specularColor,
            shininess := source.shininess)
  }
}
