/**
 * Draw calls and the two reusable assemblies of the scene: a fence line
 * (two rails and a row of posts) and a tree (trunk, crown and snow cap).
 *
 * The external mesh library is modelled as a log of draw calls. A primitive
 * is drawn with whatever uniforms are current, so each logged call records the
 * uniform map at the moment it was issued.
 */
module Assembly {
  import opened Wrappers
  import opened Geometry
  import opened Uniforms

  datatype Primitive = Box | Cylinder | Cone | Prism | Plane

  datatype DrawCall = DrawCall(kind: Primitive, state: UniformMap)

  /** The external mesh library: each draw appends to the log. */
  class ShapeMeshes {
    var drawn: seq<DrawCall>

    constructor ()
      ensures drawn == []
    {
      drawn := [];
    }

    method Draw(kind: Primitive, state: UniformMap)
      modifies this
      ensures drawn == old(drawn) + [DrawCall(kind, state)]
    {
      drawn := drawn + [DrawCall(kind, state)];
    }
  }

  /**
   * A draw of `kind` under model matrix `model` in flat colour `color`, with
   * texturing switched off.
   */
  predicate FlatDraw(d: DrawCall, kind: Primitive, model: Mat, color: Color) {
    && d.kind == kind
    && Model in d.state && d.state[Model] == UMat4(model)
    && UseTexture in d.state && d.state[UseTexture] == UInt(0)
    && ObjectColor in d.state && d.state[ObjectColor] == UVec4(color)
  }

  /**
   * The uniforms after placing a primitive and giving it a flat colour: the
   * model matrix, texturing off and the colour, everything else as in u.
   */
  function Placed(u: UniformMap, model: Mat, color: Color): UniformMap {
    u[Model := UMat4(model)][UseTexture := UInt(0)][ObjectColor := UVec4(color)]
  }

  /** A draw under placed uniforms is a flat draw, and placing changes only the three per-draw names. */
  lemma PlacedDraw(u: UniformMap, kind: Primitive, model: Mat, color: Color)
    ensures FlatDraw(DrawCall(kind, Placed(u, model, color)), kind, model, color)
    ensures AgreeOutside(u, Placed(u, model, color), {Model, UseTexture, ObjectColor})
  {
  }

  /** Placing again overwrites the previous placement completely. */
  lemma PlacedOverrides(u: UniformMap, m1: Mat, c1: Color, m2: Mat, c2: Color)
    ensures Placed(Placed(u, m1, c1), m2, c2) == Placed(u, m2, c2)
  {
  }

  // ---------------------------------------------------------------------
  // Fence line

  const LowerRailColor := Color(0.55, 0.53, 0.56, 1.0)
  const UpperRailColor := Color(0.58, 0.56, 0.60, 1.0)
  const PostColor := Color(0.50, 0.48, 0.52, 1.0)
  const PostScale := Vec3(0.10, 0.60, 0.10)

  /** The centre of the post run, where both rails are centred. */
  function FenceMidpoint(start: Vec3, dir: Vec3, posts: int, spacing: real): Vec3 {
    Add(start, Times(dir, spacing * (posts - 1) as real * 0.5))
  }

  /** Both rails are one spacing per post long. */
  function RailScale(posts: int, spacing: real): Vec3 {
    Vec3(spacing * posts as real, 0.05, 0.12)
  }

  function LowerRail(start: Vec3, dir: Vec3, posts: int, spacing: real): Mat {
    ModelMatrix(RailScale(posts, spacing), 0.0, 0.0, 0.0, Add(FenceMidpoint(start, dir, posts, spacing), Vec3(0.0, -0.30, 0.0)))
  }

  function UpperRail(start: Vec3, dir: Vec3, posts: int, spacing: real): Mat {
    ModelMatrix(RailScale(posts, spacing), 0.0, 0.0, 0.0, Add(FenceMidpoint(start, dir, posts, spacing), Vec3(0.0, 0.05, 0.0)))
  }

  /** Where post i stands on the line. */
  function PostFoot(start: Vec3, dir: Vec3, spacing: real, i: int): Vec3 {
    Add(start, Times(dir, spacing * i as real))
  }

  function Post(start: Vec3, dir: Vec3, spacing: real, i: int): Mat {
    ModelMatrix(PostScale, 0.0, 0.0, 0.0, Add(PostFoot(start, dir, spacing, i), Vec3(0.0, 0.15, 0.0)))
  }

  /** Consecutive posts are one spacing apart along the direction. */
  lemma PostsEvenlySpaced(start: Vec3, dir: Vec3, spacing: real, i: int)
    ensures PostFoot(start, dir, spacing, i + 1) == Add(PostFoot(start, dir, spacing, i), Times(dir, spacing))
  {
  }

  /** The rails are centred halfway between the first and the last post. */
  lemma RailsCentred(start: Vec3, dir: Vec3, posts: int, spacing: real)
    requires posts >= 1
    ensures FenceMidpoint(start, dir, posts, spacing)
         == Times(Add(PostFoot(start, dir, spacing, 0), PostFoot(start, dir, spacing, posts - 1)), 0.5)
  {
  }

  /**
   * Along a fence running in +X with positive spacing, a unit-length box drawn
   * as the lower rail reaches half a spacing past the first and the last post:
   * the rails are one spacing longer than the post run.
   */
  lemma RailOverhang(start: Vec3, posts: int, spacing: real)
    requires posts >= 1
    ensures var dir := Vec3(1.0, 0.0, 0.0);
            var left := Transform(LowerRail(start, dir, posts, spacing), Vec3(-0.5, 0.0, 0.0), 1.0);
            var right := Transform(LowerRail(start, dir, posts, spacing), Vec3(0.5, 0.0, 0.0), 1.0);
            && left.Some? && left.value.x == PostFoot(start, dir, spacing, 0).x - spacing * 0.5
            && right.Some? && right.value.x == PostFoot(start, dir, spacing, posts - 1).x + spacing * 0.5
  {
    var dir := Vec3(1.0, 0.0, 0.0);
    var mid := Add(FenceMidpoint(start, dir, posts, spacing), Vec3(0.0, -0.30, 0.0));
    UnrotatedPlacement(RailScale(posts, spacing), mid, Vec3(-0.5, 0.0, 0.0));
    UnrotatedPlacement(RailScale(posts, spacing), mid, Vec3(0.5, 0.0, 0.0));
  }

  /** The draws of the first `count` posts, each under its own placement on top of u. */
  function PostDraws(u: UniformMap, start: Vec3, dir: Vec3, spacing: real, count: nat): seq<DrawCall> {
    seq(count, k requires 0 <= k < count => DrawCall(Box, Placed(u, Post(start, dir, spacing, k), PostColor)))
  }

  /** The draws of a fence line started under uniforms u: lower rail, upper rail, then the posts in order. */
  function FenceDraws(u: UniformMap, start: Vec3, dir: Vec3, posts: int, spacing: real): seq<DrawCall> {
    [DrawCall(Box, Placed(u, LowerRail(start, dir, posts, spacing), LowerRailColor)),
     DrawCall(Box, Placed(u, UpperRail(start, dir, posts, spacing), UpperRailColor))]
    + PostDraws(u, start, dir, spacing, if posts > 0 then posts else 0)
  }

  /** One more post extends the post draws by that post's draw. */
  lemma PostDrawsStep(u: UniformMap, start: Vec3, dir: Vec3, spacing: real, count: nat)
    ensures PostDraws(u, start, dir, spacing, count + 1)
         == PostDraws(u, start, dir, spacing, count) + [DrawCall(Box, Placed(u, Post(start, dir, spacing, count), PostColor))]
  {
  }

  /**
   * A fence line is 2 + max(posts, 0) flat box draws: the two rails and then
   * post i at index 2 + i, each seeing u changed only in the three per-draw
   * names.
   */
  lemma FenceDrawsFlat(u: UniformMap, start: Vec3, dir: Vec3, posts: int, spacing: real)
    ensures var f := FenceDraws(u, start, dir, posts, spacing);
            && |f| == 2 + (if posts > 0 then posts else 0)
            && FlatDraw(f[0], Box, LowerRail(start, dir, posts, spacing), LowerRailColor)
            && FlatDraw(f[1], Box, UpperRail(start, dir, posts, spacing), UpperRailColor)
            && (forall k :: 2 <= k < |f| ==> FlatDraw(f[k], Box, Post(start, dir, spacing, k - 2), PostColor))
            && (forall k :: 0 <= k < |f| ==> AgreeOutside(u, f[k].state, {Model, UseTexture, ObjectColor}))
  {
    var f := FenceDraws(u, start, dir, posts, spacing);
    PlacedDraw(u, Box, LowerRail(start, dir, posts, spacing), LowerRailColor);
    PlacedDraw(u, Box, UpperRail(start, dir, posts, spacing), UpperRailColor);
    forall k | 2 <= k < |f|
      ensures FlatDraw(f[k], Box, Post(start, dir, spacing, k - 2), PostColor)
      ensures AgreeOutside(u, f[k].state, {Model, UseTexture, ObjectColor})
    {
      PlacedDraw(u, Box, Post(start, dir, spacing, k - 2), PostColor);
    }
  }

  // ---------------------------------------------------------------------
  // Tree

  const TrunkColor := Color(0.35, 0.30, 0.28, 1.0)
  const CrownColor := Color(0.55, 0.70, 0.68, 1.0)
  const SnowCapColor := Color(0.90, 0.95, 1.0, 1.0)

  function Trunk(base: Vec3, trunkH: real, trunkR: real): Mat {
    ModelMatrix(Vec3(trunkR, trunkH, trunkR), 0.0, 0.0, 0.0, Add(base, Vec3(0.0, trunkH * 0.5, 0.0)))
  }

  function Crown(base: Vec3, trunkH: real, crownH: real, crownR: real): Mat {
    ModelMatrix(Vec3(crownR, crownH, crownR), 0.0, 0.0, 0.0, Add(base, Vec3(0.0, trunkH + crownH * 0.5, 0.0)))
  }

  function SnowCap(base: Vec3, trunkH: real, crownH: real, crownR: real): Mat {
    ModelMatrix(Vec3(crownR * 0.55, 0.08, crownR * 0.55), 0.0, 0.0, 0.0, Add(base, Vec3(0.0, trunkH + crownH - 0.02, 0.0)))
  }

  /**
   * The pieces of a tree stack on a shared base: for unit primitives centred
   * on the origin, the top of the trunk and the bottom of the crown both land
   * trunkH above the base, and the cap sits 0.02 below the crown's top.
   */
  lemma TreeStacks(base: Vec3, trunkH: real, trunkR: real, crownH: real, crownR: real)
    ensures Transform(Trunk(base, trunkH, trunkR), Vec3(0.0, 0.5, 0.0), 1.0) == Some(Add(base, Vec3(0.0, trunkH, 0.0)))
    ensures Transform(Crown(base, trunkH, crownH, crownR), Vec3(0.0, -0.5, 0.0), 1.0) == Some(Add(base, Vec3(0.0, trunkH, 0.0)))
    ensures Transform(SnowCap(base, trunkH, crownH, crownR), Origin, 1.0)
         == Some(Add(base, Vec3(0.0, trunkH + crownH - 0.02, 0.0)))
    ensures Transform(Crown(base, trunkH, crownH, crownR), Vec3(0.0, 0.5, 0.0), 1.0) == Some(Add(base, Vec3(0.0, trunkH + crownH, 0.0)))
  {
    UnrotatedPlacement(Vec3(trunkR, trunkH, trunkR), Add(base, Vec3(0.0, trunkH * 0.5, 0.0)), Vec3(0.0, 0.5, 0.0));
    UnrotatedPlacement(Vec3(crownR, crownH, crownR), Add(base, Vec3(0.0, trunkH + crownH * 0.5, 0.0)), Vec3(0.0, -0.5, 0.0));
    UnrotatedPlacement(Vec3(crownR, crownH, crownR), Add(base, Vec3(0.0, trunkH + crownH * 0.5, 0.0)), Vec3(0.0, 0.5, 0.0));
    UnrotatedPlacement(Vec3(crownR * 0.55, 0.08, crownR * 0.55), Add(base, Vec3(0.0, trunkH + crownH - 0.02, 0.0)), Origin);
  }

  // ---------------------------------------------------------------------
  // The fence of the scene

  /** The house anchor every house part and the fence are placed relative to. */
  const HouseAnchor := Vec3(0.0, -0.55, 2.8)

  /** The scene's fence: ten posts 0.95 apart running in +X from the anchor offset (-4.5, -1.85, 2.25). */
  const SceneFenceStart := Add(HouseAnchor, Vec3(-4.5, -1.85, 2.25))
  const SceneFenceDir := Vec3(1.0, 0.0, 0.0)
  const SceneFencePosts := 10
  const SceneFenceSpacing := 0.95

  /**
   * The scene's fence posts stand at x offsets 0, 0.95, ..., 8.55 from the
   * start, and its rails are 9.5 long: ten spacings, one more than the
   * 8.55 the posts span.
   */
  lemma SceneFenceLayout(i: int)
    requires 0 <= i < SceneFencePosts
    ensures PostFoot(SceneFenceStart, SceneFenceDir, SceneFenceSpacing, i)
         == Add(SceneFenceStart, Vec3(0.95 * i as real, 0.0, 0.0))
    ensures PostFoot(SceneFenceStart, SceneFenceDir, SceneFenceSpacing, SceneFencePosts - 1).x == SceneFenceStart.x + 8.55
    ensures RailScale(SceneFencePosts, SceneFenceSpacing).x == 9.5
  {
  }
}
