/**
 * Vectors, colours and the model transform of one draw call.
 *
 * Floating-point vectors are idealised over `real`. The model matrix is kept
 * symbolic: `ModelMatrix` records the product translation * rotationX *
 * rotationY * rotationZ * scale as a tree, and `Transform` gives that tree a
 * meaning for rotations by the multiples of 90 degrees from -270 to 270
 * (where sine and cosine are exact); other angles are left uninterpreted.
 */
module Geometry {
  import opened Wrappers

  datatype Vec3 = Vec3(x: real, y: real, z: real)

  /** An RGBA colour as passed to the shader (glm::vec4). */
  datatype Color = Color(r: real, g: real, b: real, a: real)

  const Origin := Vec3(0.0, 0.0, 0.0)

  /** glm::vec3(k): all three components equal to k. */
  function Splat(k: real): Vec3 {
    Vec3(k, k, k)
  }

  function Add(u: Vec3, v: Vec3): Vec3 {
    Vec3(u.x + v.x, u.y + v.y, u.z + v.z)
  }

  function Times(v: Vec3, k: real): Vec3 {
    Vec3(v.x * k, v.y * k, v.z * k)
  }

  /** Component-wise product, the action of a scale matrix. */
  function Hadamard(u: Vec3, v: Vec3): Vec3 {
    Vec3(u.x * v.x, u.y * v.y, u.z * v.z)
  }

  /** A 4x4 transform as a product tree of the glm factory matrices. */
  datatype Mat =
    | Translate(offset: Vec3)
    | Scale(factors: Vec3)
    | RotateX(xDeg: real)
    | RotateY(yDeg: real)
    | RotateZ(zDeg: real)
    | Product(left: Mat, right: Mat)

  /** The model matrix built by SetTransformations: T * Rx * Ry * Rz * S. */
  function ModelMatrix(scale: Vec3, xDeg: real, yDeg: real, zDeg: real, position: Vec3): Mat {
    Product(Product(Product(Product(Translate(position), RotateX(xDeg)), RotateY(yDeg)), RotateZ(zDeg)), Scale(scale))
  }

  /**
   * The number of quarter turns (0..3, counter-clockwise) that an angle in
   * degrees amounts to, for the whole multiples of 90 from -270 to 270.
   */
  function QuarterTurns(deg: real): (r: Option<int>)
    ensures r.Some? ==> 0 <= r.value < 4 && (deg == 90.0 * r.value as real || deg == 90.0 * r.value as real - 360.0)
  {
    if deg == 0.0 then Some(0)
    else if deg == 90.0 || deg == -270.0 then Some(1)
    else if deg == 180.0 || deg == -180.0 then Some(2)
    else if deg == 270.0 || deg == -90.0 then Some(3)
    else None
  }

  /** cos and sin of k quarter turns. */
  function Cos(k: int): real {
    if k == 0 then 1.0 else if k == 2 then -1.0 else 0.0
  }

  function Sin(k: int): real {
    if k == 1 then 1.0 else if k == 3 then -1.0 else 0.0
  }

  /** Right-handed rotations about the coordinate axes by k quarter turns, as glm::rotate builds them. */
  function TurnX(k: int, v: Vec3): Vec3 {
    Vec3(v.x, Cos(k) * v.y - Sin(k) * v.z, Sin(k) * v.y + Cos(k) * v.z)
  }

  function TurnY(k: int, v: Vec3): Vec3 {
    Vec3(Cos(k) * v.x + Sin(k) * v.z, v.y, Cos(k) * v.z - Sin(k) * v.x)
  }

  function TurnZ(k: int, v: Vec3): Vec3 {
    Vec3(Cos(k) * v.x - Sin(k) * v.y, Sin(k) * v.x + Cos(k) * v.y, v.z)
  }

  /**
   * The image of the homogeneous vector (v, w) under m: w = 1 for a point,
   * w = 0 for a direction. None when m rotates by an angle that is not one
   * of the multiples of 90 degrees from -270 to 270.
   */
  function Transform(m: Mat, v: Vec3, w: real): Option<Vec3> {
    match m
    case Translate(t) => Some(Add(v, Times(t, w)))
    case Scale(s) => Some(Hadamard(s, v))
    case RotateX(d) => if QuarterTurns(d).Some? then Some(TurnX(QuarterTurns(d).value, v)) else None
    case RotateY(d) => if QuarterTurns(d).Some? then Some(TurnY(QuarterTurns(d).value, v)) else None
    case RotateZ(d) => if QuarterTurns(d).Some? then Some(TurnZ(QuarterTurns(d).value, v)) else None
    case Product(a, b) =>
      var inner := Transform(b, v, w);
      if inner.Some? then Transform(a, inner.value, w) else None
  }

  /** Applies the steps one after the other, the first step first. */
  function Pipeline(steps: seq<Mat>, v: Vec3, w: real): Option<Vec3>
    decreases |steps|
  {
    if steps == [] then Some(v)
    else
      var first := Transform(steps[0], v, w);
      if first.Some? then Pipeline(steps[1..], first.value, w) else None
  }

  /** A product in a pipeline is its right factor followed by its left factor. */
  lemma {:induction false} SplitProduct(pre: seq<Mat>, a: Mat, b: Mat, post: seq<Mat>, v: Vec3, w: real)
    ensures Pipeline(pre + [Product(a, b)] + post, v, w) == Pipeline(pre + [b, a] + post, v, w)
    decreases |pre|
  {
    if pre == [] {
      assert (pre + [Product(a, b)] + post)[1..] == post;
      assert (pre + [b, a] + post)[1..] == [a] + post;
      assert ([a] + post)[1..] == post;
    } else {
      assert (pre + [Product(a, b)] + post)[1..] == pre[1..] + [Product(a, b)] + post;
      assert (pre + [b, a] + post)[1..] == pre[1..] + [b, a] + post;
      var first := Transform(pre[0], v, w);
      if first.Some? {
        SplitProduct(pre[1..], a, b, post, first.value, w);
      }
    }
  }

  /**
   * The fixed composition order: the model matrix scales first, then rotates
   * about Z, then about Y, then about X, and translates last.
   */
  lemma {:induction false} ModelMatrixOrder(scale: Vec3, xDeg: real, yDeg: real, zDeg: real, position: Vec3, v: Vec3, w: real)
    ensures Transform(ModelMatrix(scale, xDeg, yDeg, zDeg, position), v, w)
         == Pipeline([Scale(scale), RotateZ(zDeg), RotateY(yDeg), RotateX(xDeg), Translate(position)], v, w)
  {
    var t, rx, ry, rz, s := Translate(position), RotateX(xDeg), RotateY(yDeg), RotateZ(zDeg), Scale(scale);
    var p1 := Product(t, rx);
    var p2 := Product(p1, ry);
    var p3 := Product(p2, rz);
    var m := ModelMatrix(scale, xDeg, yDeg, zDeg, position);
    assert m == Product(p3, s);
    assert [m][1..] == [];
    var u := Transform(m, v, w);
    if u.Some? {
      assert Pipeline([], u.value, w) == u;
    }
    assert Pipeline([m], v, w) == u;
    SplitProduct([], p3, s, [], v, w);
    assert [] + [m] + [] == [m] && [] + [s, p3] + [] == [s, p3];
    SplitProduct([s], p2, rz, [], v, w);
    assert [s] + [p3] + [] == [s, p3] && [s] + [rz, p2] + [] == [s, rz, p2];
    SplitProduct([s, rz], p1, ry, [], v, w);
    assert [s, rz] + [p2] + [] == [s, rz, p2] && [s, rz] + [ry, p1] + [] == [s, rz, ry, p1];
    SplitProduct([s, rz, ry], t, rx, [], v, w);
    assert [s, rz, ry] + [p1] + [] == [s, rz, ry, p1] && [s, rz, ry] + [rx, t] + [] == [s, rz, ry, rx, t];
  }

  /** Runs a five-step pipeline whose steps are all defined on the way. */
  lemma {:induction false} FiveSteps(steps: seq<Mat>, v0: Vec3, v1: Vec3, v2: Vec3, v3: Vec3, v4: Vec3, v5: Vec3, w: real)
    requires |steps| == 5
    requires Transform(steps[0], v0, w) == Some(v1) && Transform(steps[1], v1, w) == Some(v2)
    requires Transform(steps[2], v2, w) == Some(v3) && Transform(steps[3], v3, w) == Some(v4)
    requires Transform(steps[4], v4, w) == Some(v5)
    ensures Pipeline(steps, v0, w) == Some(v5)
  {
    var s1 := steps[1..];
    var s2 := s1[1..];
    var s3 := s2[1..];
    var s4 := s3[1..];
    assert s4 == [steps[4]] && s4[1..] == [];
    assert Pipeline(s4, v4, w) == Pipeline([], v5, w) == Some(v5);
    assert Pipeline(s3, v3, w) == Pipeline(s4, v4, w);
    assert Pipeline(s2, v2, w) == Pipeline(s3, v3, w);
    assert Pipeline(s1, v1, w) == Pipeline(s2, v2, w);
    assert Pipeline(steps, v0, w) == Pipeline(s1, v1, w);
  }

  /** A rotation by zero degrees leaves every vector where it is. */
  lemma NoTurn(v: Vec3, w: real)
    ensures Transform(RotateX(0.0), v, w) == Some(v)
    ensures Transform(RotateY(0.0), v, w) == Some(v)
    ensures Transform(RotateZ(0.0), v, w) == Some(v)
  {
  }

  /** A quarter turn about X takes +Y to +Z; one about Y takes +Z to +X. */
  lemma QuarterTurn(v: Vec3, w: real)
    ensures Transform(RotateX(90.0), v, w) == Some(Vec3(v.x, -v.z, v.y))
    ensures Transform(RotateY(90.0), v, w) == Some(Vec3(v.z, v.y, -v.x))
  {
    assert QuarterTurns(90.0) == Some(1);
    assert Cos(1) == 0.0 && Sin(1) == 1.0;
    assert TurnY(1, v) == Vec3(v.z, v.y, -v.x);
  }

  /**
   * With no rotation, the model matrix places the unit primitive's local point
   * v at position + scale * v: the primitive is centred on the translation and
   * stretched by the scale.
   */
  lemma UnrotatedPlacement(scale: Vec3, position: Vec3, v: Vec3)
    ensures Transform(ModelMatrix(scale, 0.0, 0.0, 0.0, position), v, 1.0) == Some(Add(Hadamard(scale, v), position))
  {
    ModelMatrixOrder(scale, 0.0, 0.0, 0.0, position, v, 1.0);
    var h := Hadamard(scale, v);
    FiveSteps([Scale(scale), RotateZ(0.0), RotateY(0.0), RotateX(0.0), Translate(position)], v, h, h, h, h, Add(h, position), 1.0);
  }

  /**
   * A model matrix that turns a quarter turn about Y: the scaled vector is
   * turned +Z to +X, +X to -Z, then translated.
   */
  lemma QuarterTurnAboutY(scale: Vec3, position: Vec3, v: Vec3, w: real)
    ensures (var h := Hadamard(scale, v);
             Transform(ModelMatrix(scale, 0.0, 90.0, 0.0, position), v, w) == Some(Add(Vec3(h.z, h.y, -h.x), Times(position, w))))
  {
    var h := Hadamard(scale, v);
    var t := Vec3(h.z, h.y, -h.x);
    NoTurn(h, w);
    NoTurn(t, w);
    QuarterTurn(h, w);
    FiveSteps([Scale(scale), RotateZ(0.0), RotateY(90.0), RotateX(0.0), Translate(position)], v, h, h, t, t, Add(t, Times(position, w)), w);
    ModelMatrixOrder(scale, 0.0, 90.0, 0.0, position, v, w);
  }

  /**
   * The worked example of the composition order: scale (2,1,1) then a
   * quarter turn about Y takes the +X face normal of a unit cube to -Z.
   */
  lemma FaceNormalExample()
    ensures Transform(ModelMatrix(Vec3(2.0, 1.0, 1.0), 0.0, 90.0, 0.0, Origin), Vec3(1.0, 0.0, 0.0), 0.0)
         == Some(Vec3(0.0, 0.0, -2.0))
  {
    QuarterTurnAboutY(Vec3(2.0, 1.0, 1.0), Origin, Vec3(1.0, 0.0, 0.0), 0.0);
  }

  /**
   * The order of the rotations is observable: with quarter turns about both X
   * and Y, the model matrix (Y applied before X) moves a vector (a, b, c) to
   * (c, a, b), whereas applying X before Y moves it to (b, -c, -a).
   */
  lemma RotationOrderMatters(v: Vec3, w: real)
    ensures Transform(ModelMatrix(Splat(1.0), 90.0, 90.0, 0.0, Origin), v, w) == Some(Vec3(v.z, v.x, v.y))
    ensures Transform(Product(RotateY(90.0), RotateX(90.0)), v, w) == Some(Vec3(v.y, -v.z, -v.x))
  {
    var ty := Vec3(v.z, v.y, -v.x);
    var txy := Vec3(v.z, v.x, v.y);
    NoTurn(v, w);
    QuarterTurn(v, w);
    QuarterTurn(ty, w);
    QuarterTurn(Vec3(v.x, -v.z, v.y), w);
    assert Hadamard(Splat(1.0), v) == v;
    assert Add(txy, Times(Origin, w)) == txy;
    FiveSteps([Scale(Splat(1.0)), RotateZ(0.0), RotateY(90.0), RotateX(90.0), Translate(Origin)], v, v, v, ty, txy, txy, w);
    ModelMatrixOrder(Splat(1.0), 90.0, 90.0, 0.0, Origin, v, w);
  }
}
