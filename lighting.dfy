/**
 * The scene's light array as the shader sees it: four slots, each six
 * uniforms under "lightSources[i].". Setup zeroes every slot and then
 * configures a cool key light in slot 0 and a lavender fill light in slot 1.
 */
module Lighting {
  import opened Wrappers
  import opened Geometry
  import opened Uniforms

  /** Slots in the shader's light array. */
  const LightCount := 4

  datatype LightSlot = LightSlot(
    position: Vec3,
    ambientColor: Vec3,
    diffuseColor: Vec3,
    specularColor: Vec3,
    focalStrength: real,
    specularIntensity: real)

  /** What the setup loop writes into every slot first. */
  const InertLight := LightSlot(Splat(0.0), Splat(0.0), Splat(0.0), Splat(0.0), 1.0, 0.0)

  /** Slot 0: cool moonlight, tiny ambient, tight highlight. */
  const MoonLight := LightSlot(Vec3(6.0, 7.0, 3.0), Vec3(0.02, 0.03, 0.05), Vec3(0.65, 0.75, 1.00),
                               Vec3(0.85, 0.90, 1.00), 32.0, 0.60)

  /** Slot 1: lavender fill from the left and behind, no ambient, broad highlight. */
  const FillLight := LightSlot(Vec3(-6.0, 4.0, -4.0), Splat(0.0), Vec3(0.55, 0.45, 0.70),
                               Vec3(0.20, 0.16, 0.28), 16.0, 0.20)

  /** A slot that adds no light: black in every colour and no specular intensity. */
  predicate Dark(l: LightSlot) {
    l.ambientColor == Splat(0.0) && l.diffuseColor == Splat(0.0) && l.specularColor == Splat(0.0)
    && l.specularIntensity == 0.0
  }

  /** The six names of slot i. */
  function SlotNames(i: nat): set<UniformName> {
    set f: LightField :: LightParam(i, f)
  }

  /** The uniform map after the six writes that store l in slot i, in the program's order. */
  function WriteLight(u: UniformMap, i: nat, l: LightSlot): UniformMap {
    u[LightParam(i, Position) := UVec3(l.position)]
     [LightParam(i, AmbientColor) := UVec3(l.ambientColor)]
     [LightParam(i, DiffuseColor) := UVec3(l.diffuseColor)]
     [LightParam(i, SpecularColor) := UVec3(l.specularColor)]
     [LightParam(i, FocalStrength) := UFloat(l.focalStrength)]
     [LightParam(i, SpecularIntensity) := UFloat(l.specularIntensity)]
  }

  /** What the shader holds in slot i, when all six of its uniforms are set with the right types. */
  function ReadLight(u: UniformMap, i: nat): Option<LightSlot> {
    var p, a, d := LightParam(i, Position), LightParam(i, AmbientColor), LightParam(i, DiffuseColor);
    var s, f, k := LightParam(i, SpecularColor), LightParam(i, FocalStrength), LightParam(i, SpecularIntensity);
    if p in u && a in u && d in u && s in u && f in u && k in u
       && u[p].UVec3? && u[a].UVec3? && u[d].UVec3? && u[s].UVec3? && u[f].UFloat? && u[k].UFloat?
    then Some(LightSlot(u[p].vec, u[a].vec, u[d].vec, u[s].vec, u[f].f, u[k].f))
    else None
  }

  /** The map after the zeroing loop has run for slots 0 .. n-1. */
  function ZeroLights(u: UniformMap, n: nat): UniformMap
    decreases n
  {
    if n == 0 then u else WriteLight(ZeroLights(u, n - 1), n - 1, InertLight)
  }

  /** The map after the whole setup: lighting flag, zeroing loop, then slots 0 and 1. */
  function SceneLights(u: UniformMap): UniformMap {
    WriteLight(WriteLight(ZeroLights(u[UseLighting := UBool(true)], LightCount), 0, MoonLight), 1, FillLight)
  }

  /** Writing a slot stores exactly that slot. */
  lemma ReadWritten(u: UniformMap, i: nat, l: LightSlot)
    ensures ReadLight(WriteLight(u, i, l), i) == Some(l)
  {
  }

  /** Writing slot i leaves every other slot as it was. */
  lemma ReadOther(u: UniformMap, i: nat, l: LightSlot, j: nat)
    requires j != i
    ensures ReadLight(WriteLight(u, i, l), j) == ReadLight(u, j)
  {
  }

  /** Writing a slot touches its six names and nothing else. */
  lemma WriteLightFrame(u: UniformMap, i: nat, l: LightSlot)
    ensures AgreeOutside(u, WriteLight(u, i, l), SlotNames(i))
  {
    var v := WriteLight(u, i, l);
    forall n | n !in SlotNames(i)
      ensures (n in u <==> n in v) && (n in u ==> u[n] == v[n])
    {
      if n.LightParam? {
        assert LightParam(n.slot, n.lightField) in SlotNames(n.slot);
      }
    }
  }

  /** The zeroing loop leaves the first n slots inert and the others as they were. */
  lemma {:induction false} ZeroLightsSlots(u: UniformMap, n: nat, i: nat)
    ensures i < n ==> ReadLight(ZeroLights(u, n), i) == Some(InertLight)
    ensures i >= n ==> ReadLight(ZeroLights(u, n), i) == ReadLight(u, i)
    decreases n
  {
    if n > 0 {
      var z := ZeroLights(u, n - 1);
      assert ZeroLights(u, n) == WriteLight(z, n - 1, InertLight);
      if i == n - 1 {
        ReadWritten(z, n - 1, InertLight);
      } else {
        ZeroLightsSlots(u, n - 1, i);
        ReadOther(z, n - 1, InertLight, i);
      }
    }
  }

  /** The zeroing loop writes only light uniforms of its slots. */
  lemma {:induction false} ZeroLightsFrame(u: UniformMap, n: nat)
    ensures forall m: UniformName :: !(m.LightParam? && m.slot < n) ==> (m in u <==> m in ZeroLights(u, n)) && (m in u ==> u[m] == ZeroLights(u, n)[m])
    decreases n
  {
    if n > 0 {
      ZeroLightsFrame(u, n - 1);
      WriteLightFrame(ZeroLights(u, n - 1), n - 1, InertLight);
    }
  }

  /**
   * After setup, slot 0 holds the moonlight and slot 1 the fill light (the
   * later writes win over the zeroing loop), and slots 2 and 3 stay inert.
   */
  lemma SceneLightSlots(u: UniformMap)
    ensures ReadLight(SceneLights(u), 0) == Some(MoonLight)
    ensures ReadLight(SceneLights(u), 1) == Some(FillLight)
    ensures ReadLight(SceneLights(u), 2) == Some(InertLight)
    ensures ReadLight(SceneLights(u), 3) == Some(InertLight)
  {
    var u1 := u[UseLighting := UBool(true)];
    var z := ZeroLights(u1, LightCount);
    var w0 := WriteLight(z, 0, MoonLight);
    assert SceneLights(u) == WriteLight(w0, 1, FillLight);
    ReadWritten(z, 0, MoonLight);
    ReadOther(w0, 1, FillLight, 0);
    ReadWritten(w0, 1, FillLight);
    ZeroLightsSlots(u1, LightCount, 2);
    ReadOther(z, 0, MoonLight, 2);
    ReadOther(w0, 1, FillLight, 2);
    ZeroLightsSlots(u1, LightCount, 3);
    ReadOther(z, 0, MoonLight, 3);
    ReadOther(w0, 1, FillLight, 3);
  }

  /** After setup lighting is on, and no uniform outside the four light slots has changed. */
  lemma SceneLightsFrame(u: UniformMap)
    ensures UseLighting in SceneLights(u) && SceneLights(u)[UseLighting] == UBool(true)
    ensures forall m: UniformName :: m != UseLighting && !(m.LightParam? && m.slot < LightCount) ==>
              (m in u <==> m in SceneLights(u)) && (m in u ==> u[m] == SceneLights(u)[m])
  {
    var u1 := u[UseLighting := UBool(true)];
    var z := ZeroLights(u1, LightCount);
    var w0 := WriteLight(z, 0, MoonLight);
    var w1 := WriteLight(w0, 1, FillLight);
    assert SceneLights(u) == w1;
    ZeroLightsFrame(u1, LightCount);
    WriteLightFrame(z, 0, MoonLight);
    WriteLightFrame(w0, 1, FillLight);
    assert UseLighting !in SlotNames(0) && UseLighting !in SlotNames(1);
    forall m: UniformName | m != UseLighting && !(m.LightParam? && m.slot < LightCount)
      ensures (m in u <==> m in w1) && (m in u ==> u[m] == w1[m])
    {
      assert m !in SlotNames(0) && m !in SlotNames(1);
    }
  }

  /** The two configured lights contribute light; the inert one does not. */
  lemma KeyAndFillLit()
    ensures !Dark(MoonLight) && !Dark(FillLight) && Dark(InertLight)
  {
  }

  /** Exactly two of the four slots contribute light after setup: slots 0 and 1. */
  lemma TwoLitSlots(u: UniformMap, i: nat)
    requires i < LightCount
    ensures ReadLight(SceneLights(u), i).Some?
    ensures Dark(ReadLight(SceneLights(u), i).value) <==> i >= 2
  {
    SceneLightSlots(u);
    KeyAndFillLit();
    var v := SceneLights(u);
    assert i == 0 || i == 1 || i == 2 || i == 3;
    assert ReadLight(v, i) == if i == 0 then Some(MoonLight) else if i == 1 then Some(FillLight) else Some(InertLight);
  }
}
