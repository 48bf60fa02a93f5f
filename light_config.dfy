/** What BasePipeline.ConfigureLights and BasePipeline.ConfigureShadows
    compute for the visible lights: the per-light GPU vectors, the choice of
    the main (cascaded) directional light and the number of atlas shadow
    tiles needed. */
module LightConfig {
  import opened ShadowMatrixMath
  import opened Engine

  /** The light arrays have this many slots; further visible lights are dropped. */
  const MaxVisibleLights: nat := 16

  /** The number of visible lights that get a slot. */
  function ActiveLightCount(visibleCount: nat): (m: nat)
    ensures m <= MaxVisibleLights && m <= visibleCount
    ensures m < visibleCount ==> m == MaxVisibleLights
  {
    if visibleCount < MaxVisibleLights then visibleCount else MaxVisibleLights
  }

  /** The number of visible lights of a culling result that get a slot. */
  function SlotCount(cull: CullingResults): nat
  {
    ActiveLightCount(|cull.visibleLights|)
  }

  /** Mathf.Max. */
  function Max(a: real, b: real): real
  {
    if a > b then a else b
  }

  /** A local axis of the light turned around: the direction from a surface
      towards the light. */
  function Reversed(v: Vec4): Vec4
  {
    Vec4(-v.x, -v.y, -v.z, v.w)
  }

  /** The direction-or-position slot: for a directional light its reversed
      forward axis with w = 0, otherwise its world position. */
  function LightDirectionOrPosition(l: VisibleLight): (v: Vec4)
    ensures l.lightType == Directional ==>
              v.w == 0.0 && v.x == -Entry(l.localToWorld, 0, 2) &&
              v.y == -Entry(l.localToWorld, 1, 2) && v.z == -Entry(l.localToWorld, 2, 2)
    ensures l.lightType != Directional ==> v == Column(l.localToWorld, 3)
  {
    if l.lightType == Directional then Reversed(Column(l.localToWorld, 2)).(w := 0.0)
    else Column(l.localToWorld, 3)
  }

  /** The spot-direction slot of a spot light: its reversed forward axis
      (the w component is left as the matrix has it). */
  function SpotDirection(l: VisibleLight): (v: Vec4)
    ensures Add(v, Column(l.localToWorld, 2)) == Vec4(0.0, 0.0, 0.0, 2.0 * Entry(l.localToWorld, 3, 2))
  {
    Reversed(Column(l.localToWorld, 2))
  }

  /** The radial attenuation factor 1 / max(range^2, 0.00001). */
  function RangeAttenuation(range: real): (a: real)
    ensures a > 0.0
    ensures range * range >= 0.00001 ==> a * (range * range) == 1.0
    ensures range * range < 0.00001 ==> a == 100000.0
  {
    1.0 / Max(range * range, 0.00001)
  }

  /** The spot cone's angular range, kept at or above 0.001. */
  function AngleRange(innerCos: real, outerCos: real): (r: real)
    ensures r >= 0.001 && r >= innerCos - outerCos
    ensures r == innerCos - outerCos || r == 0.001
  {
    Max(innerCos - outerCos, 0.001)
  }

  /** The attenuation slot: (radial factor, 0, spot scale, spot offset). */
  function LightAttenuation(l: VisibleLight): (a: Vec4)
    ensures l.lightType == Directional ==> a == Vec4(0.0, 0.0, 0.0, 1.0)
    ensures l.lightType != Spot ==> a.w == 1.0 && a.z == 0.0
    ensures l.lightType != Directional ==> a.x == RangeAttenuation(l.range) && a.x > 0.0 && a.y == 0.0
    ensures l.lightType == Spot ==>
              a.z > 0.0 && a.z * AngleRange(l.innerCos, l.outerCos) == 1.0 && a.w == -l.outerCos * a.z
  {
    var base := Vec4(0.0, 0.0, 0.0, 1.0);
    if l.lightType == Directional then base
    else
      var ranged := base.(x := RangeAttenuation(l.range));
      if l.lightType == Spot then
        var scale := 1.0 / AngleRange(l.innerCos, l.outerCos);
        ranged.(z := scale, w := -l.outerCos * scale)
      else ranged
  }

  /** The five per-light arrays ConfigureLights fills: colours, directions or
      positions, attenuations, spot directions and shadow data. */
  datatype LightSlots = LightSlots(colors: seq<Vec4>, directions: seq<Vec4>, attenuations: seq<Vec4>,
                                   spotDirections: seq<Vec4>, shadowData: seq<Vec4>)

  /** Every array has one slot per possible visible light. */
  predicate SlotsSized(s: LightSlots)
  {
    |s.colors| == MaxVisibleLights && |s.directions| == MaxVisibleLights &&
    |s.attenuations| == MaxVisibleLights && |s.spotDirections| == MaxVisibleLights &&
    |s.shadowData| == MaxVisibleLights
  }

  /** The arrays after visible light i is written to slot i; a light that is
      not a spot light leaves its spot-direction slot as it was. */
  function StoreLight(s: LightSlots, cull: CullingResults, i: nat): LightSlots
    requires SlotsSized(s) && i < |cull.visibleLights| && i < MaxVisibleLights
  {
    var l := cull.visibleLights[i];
    LightSlots(s.colors[i := l.finalColor],
               s.directions[i := LightDirectionOrPosition(l)],
               s.attenuations[i := LightAttenuation(l)],
               if l.lightType == Spot then s.spotDirections[i := SpotDirection(l)] else s.spotDirections,
               s.shadowData[i := ShadowDataOf(cull, i)])
  }

  /** The arrays after the first k visible lights are written, starting from
      the arrays of the previous frame. */
  function SlotsAfter(cull: CullingResults, k: nat, previous: LightSlots): (s: LightSlots)
    requires SlotsSized(previous) && k <= |cull.visibleLights| && k <= MaxVisibleLights
    ensures SlotsSized(s)
  {
    if k == 0 then previous else StoreLight(SlotsAfter(cull, k - 1, previous), cull, k - 1)
  }

  /** Slot j holds light j's values when j is among the first k lights (its
      spot direction only for a spot light), and the previous frame's value
      otherwise. */
  lemma {:induction false} SlotsAfterEntries(cull: CullingResults, k: nat, previous: LightSlots, j: nat)
    requires SlotsSized(previous) && k <= |cull.visibleLights| && k <= MaxVisibleLights
    requires j < MaxVisibleLights
    ensures var s := SlotsAfter(cull, k, previous);
            s.colors[j] == (if j < k then cull.visibleLights[j].finalColor else previous.colors[j]) &&
            s.directions[j] == (if j < k then LightDirectionOrPosition(cull.visibleLights[j]) else previous.directions[j]) &&
            s.attenuations[j] == (if j < k then LightAttenuation(cull.visibleLights[j]) else previous.attenuations[j]) &&
            s.spotDirections[j] == (if j < k && cull.visibleLights[j].lightType == Spot
                                    then SpotDirection(cull.visibleLights[j]) else previous.spotDirections[j]) &&
            s.shadowData[j] == (if j < k then ShadowDataOf(cull, j) else previous.shadowData[j])
  {
    if k > 0 {
      SlotsAfterEntries(cull, k - 1, previous, j);
    }
  }

  /** Whether ConfigureShadows finds shadows to render for a light: its
      shadows are switched on and culling reported shadow-caster bounds. */
  predicate CastsShadows(light: Light, hasBounds: bool)
  {
    light.shadows != NoShadows && hasBounds
  }

  /** The vector ConfigureShadows returns: (strength, soft ? 1 : 0, 0, 0)
      when the light casts shadows, zero otherwise. */
  function ShadowVector(light: Light, hasBounds: bool): (s: Vec4)
    ensures s.z == 0.0 && s.w == 0.0
    ensures CastsShadows(light, hasBounds) ==>
              s.x == light.shadowStrength && s.y == (if light.shadows == Soft then 1.0 else 0.0)
    ensures !CastsShadows(light, hasBounds) ==> s == ZeroVector
  {
    if CastsShadows(light, hasBounds) then
      Vec4(light.shadowStrength, if light.shadows == Soft then 1.0 else 0.0, 0.0, 0.0)
    else ZeroVector
  }

  /** The shadow-data slot ConfigureLights writes: directional lights get
      z = 1 (whatever their strength), spot lights the shadow vector, point
      lights nothing. */
  function LightShadowData(l: VisibleLight, hasBounds: bool): (s: Vec4)
    ensures l.lightType == Directional ==> s == ShadowVector(l.light, hasBounds).(z := 1.0)
    ensures l.lightType == Spot ==> s == ShadowVector(l.light, hasBounds)
    ensures l.lightType == Point ==> s == ZeroVector
    ensures s.x != 0.0 ==> l.lightType != Point && CastsShadows(l.light, hasBounds)
    ensures s.z > 0.0 <==> l.lightType == Directional
  {
    match l.lightType
    case Directional => ShadowVector(l.light, hasBounds).(z := 1.0)
    case Point => ZeroVector
    case Spot => ShadowVector(l.light, hasBounds)
  }

  /** The shadow-data slot of visible light i. */
  function ShadowDataOf(cull: CullingResults, i: nat): Vec4
    requires i < |cull.visibleLights|
  {
    LightShadowData(cull.visibleLights[i], cull.hasShadowCasterBounds(i))
  }

  /** Light i may become the main light: it is directional and its shadow
      strength, as recorded, is positive. */
  predicate IsMainCandidate(cull: CullingResults, i: nat)
    requires i < |cull.visibleLights|
    ensures IsMainCandidate(cull, i) ==>
              cull.visibleLights[i].lightType == Directional && NeedsShadowTile(cull, i)
  {
    cull.visibleLights[i].lightType == Directional && ShadowDataOf(cull, i).x > 0.0
  }

  /** Light i asked for a shadow tile: it is directional or spot and casts shadows. */
  predicate NeedsShadowTile(cull: CullingResults, i: nat)
    requires i < |cull.visibleLights|
  {
    cull.visibleLights[i].lightType != Point &&
    CastsShadows(cull.visibleLights[i].light, cull.hasShadowCasterBounds(i))
  }

  /** The number of lights among the first k that ask for a shadow tile. */
  function ShadowCasterCount(cull: CullingResults, k: nat): (n: nat)
    requires k <= |cull.visibleLights|
    ensures n <= k
  {
    if k == 0 then 0
    else ShadowCasterCount(cull, k - 1) + (if NeedsShadowTile(cull, k - 1) then 1 else 0)
  }

  /** The main light after the first k lights are configured: the first one
      that is a candidate, or -1. */
  function MainLightIndex(cull: CullingResults, k: nat): (r: int)
    requires k <= |cull.visibleLights|
    ensures -1 <= r < k
  {
    if k == 0 then -1
    else
      var before := MainLightIndex(cull, k - 1);
      if before != -1 then before
      else if IsMainCandidate(cull, k - 1) then k - 1
      else -1
  }

  /** The atlas tile count after the first k lights are configured: the
      lights asking for a tile, less the main light, which the cascades serve. */
  function TileCountAfter(cull: CullingResults, k: nat): (t: int)
    requires k <= |cull.visibleLights|
    ensures 0 <= t <= k
  {
    MainLightCounted(cull, k);
    ShadowCasterCount(cull, k) - (if MainLightIndex(cull, k) == -1 then 0 else 1)
  }

  /** shadowTileCount as ConfigureLights leaves it. */
  function ShadowTileCount(cull: CullingResults): (t: int)
    ensures 0 <= t <= MaxVisibleLights && t <= |cull.visibleLights|
  {
    TileCountAfter(cull, ActiveLightCount(|cull.visibleLights|))
  }

  /** The main light is the lowest-numbered candidate, and there is none
      exactly when no light is a candidate. */
  lemma {:induction false} MainLightIsFirstCandidate(cull: CullingResults, k: nat)
    requires k <= |cull.visibleLights|
    ensures MainLightIndex(cull, k) == -1 <==> forall i :: 0 <= i < k ==> !IsMainCandidate(cull, i)
    ensures MainLightIndex(cull, k) != -1 ==>
              IsMainCandidate(cull, MainLightIndex(cull, k)) &&
              forall i :: 0 <= i < MainLightIndex(cull, k) ==> !IsMainCandidate(cull, i)
  {
    if k > 0 {
      MainLightIsFirstCandidate(cull, k - 1);
    }
  }

  /** The main light is one of the lights that asked for a tile. */
  lemma MainLightNeedsTile(cull: CullingResults, k: nat)
    requires k <= |cull.visibleLights|
    requires MainLightIndex(cull, k) != -1
    ensures NeedsShadowTile(cull, MainLightIndex(cull, k))
  {
    MainLightIsFirstCandidate(cull, k);
  }

  /** Counting bounds: the count never exceeds the number of lights looked at,
      and includes every light that asked for a tile. */
  lemma {:induction false} ShadowCasterCountBounds(cull: CullingResults, k: nat, j: nat)
    requires k <= |cull.visibleLights|
    ensures ShadowCasterCount(cull, k) <= k
    ensures j < k && NeedsShadowTile(cull, j) ==> ShadowCasterCount(cull, k) >= 1
  {
    if k > 0 {
      ShadowCasterCountBounds(cull, k - 1, j);
    }
  }

  /** Once a main light has been chosen, it is among the counted casters. */
  lemma MainLightCounted(cull: CullingResults, k: nat)
    requires k <= |cull.visibleLights|
    ensures MainLightIndex(cull, k) != -1 ==> ShadowCasterCount(cull, k) >= 1
  {
    if MainLightIndex(cull, k) != -1 {
      MainLightNeedsTile(cull, k);
      ShadowCasterCountBounds(cull, k, MainLightIndex(cull, k));
    }
  }

  /** The lights among the first k that ask for a shadow tile, listed in the
      order the configuration loop visits them. */
  function TileLights(cull: CullingResults, k: nat): seq<nat>
    requires k <= |cull.visibleLights|
  {
    if k == 0 then []
    else TileLights(cull, k - 1) + (if NeedsShadowTile(cull, k - 1) then [k - 1] else [])
  }

  /** TileLights lists exactly the lights below k that ask for a tile, each
      once and in increasing order. */
  lemma {:induction false} TileLightsMembers(cull: CullingResults, k: nat)
    requires k <= |cull.visibleLights|
    ensures forall j: nat :: j in TileLights(cull, k) <==> j < k && NeedsShadowTile(cull, j)
    ensures forall p, q :: 0 <= p < q < |TileLights(cull, k)| ==>
              TileLights(cull, k)[p] < TileLights(cull, k)[q]
  {
    if k > 0 {
      TileLightsMembers(cull, k - 1);
      var before := TileLights(cull, k - 1);
      forall p | 0 <= p < |before| ensures before[p] < k - 1 {
        assert before[p] in before;
      }
    }
  }

  /** The count kept by the configuration loop is the length of that list. */
  lemma {:induction false} ShadowCasterCountIsCount(cull: CullingResults, k: nat)
    requires k <= |cull.visibleLights|
    ensures ShadowCasterCount(cull, k) == |TileLights(cull, k)|
  {
    if k > 0 {
      ShadowCasterCountIsCount(cull, k - 1);
    }
  }
}
