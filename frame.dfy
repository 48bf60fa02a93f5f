/** One camera of the per-frame render loop as a function of the state the
    pipeline starts from: the state it leaves, the calls it sends to the
    engine and the temporary textures it takes, and the same for a sequence
    of cameras; with the lemmas that every texture taken is given back, that
    culling asks for the clamped shadow distance, and that the shadow
    keywords end up consistent. */
module Frame {
  import opened ShadowMatrixMath
  import opened Engine
  import opened CommandLog
  import opened ShadowTiles
  import opened LightConfig
  import opened AtlasShadows
  import opened CascadeShadows
  import opened CameraPass

  /** The settings a BasePipeline is constructed with, and the platform's
      depth-buffer direction. */
  datatype PipelineConfig = PipelineConfig(
    enableDynamicBatching: bool,
    enableInstancing: bool,
    shadowMapSize: int,
    shadowDistance: real,
    shadowCascades: int,
    shadowCascadeSplit: Vec3,
    reversedZ: bool)

  /** The contents of the pipeline's arrays and counters, as seen between
      two cameras. */
  datatype PipelineState = PipelineState(
    colors: seq<Vec4>,
    directions: seq<Vec4>,
    attenuations: seq<Vec4>,
    spotDirections: seq<Vec4>,
    shadowData: seq<Vec4>,
    worldToShadowMatrices: seq<Mat4>,
    cascadeMatrices: seq<Mat4>,
    cascadeSpheres: seq<Vec4>,
    mainLightIndex: int,
    shadowTileCount: int)

  /** Every array of a state has the size the pipeline allocates. */
  predicate StateSized(s: PipelineState)
  {
    |s.colors| == MaxVisibleLights && |s.directions| == MaxVisibleLights &&
    |s.attenuations| == MaxVisibleLights && |s.spotDirections| == MaxVisibleLights &&
    |s.shadowData| == MaxVisibleLights && |s.worldToShadowMatrices| == MaxVisibleLights &&
    |s.cascadeMatrices| == 5 && |s.cascadeSpheres| == 4
  }

  /** The light arrays of a state as one value. */
  function SlotsOf(s: PipelineState): LightSlots
  {
    LightSlots(s.colors, s.directions, s.attenuations, s.spotDirections, s.shadowData)
  }

  /** The commands that hand the four light arrays to the shaders. */
  function LightArrayUpload(colors: seq<Vec4>, directions: seq<Vec4>, attenuations: seq<Vec4>,
                            spotDirections: seq<Vec4>): (cmds: seq<Command>)
    ensures forall k :: LeavesKeyword(cmds, k)
  {
    [SetGlobalVectorArray(VisibleLightColorsProp, colors),
     SetGlobalVectorArray(VisibleLightDirectionsOrPositionsProp, directions),
     SetGlobalVectorArray(VisibleLightAttenuationsProp, attenuations),
     SetGlobalVectorArray(VisibleLightSpotDirectionsProp, spotDirections)]
  }

  /** The number of temporary textures a camera takes: none when it cannot
      be culled or sees no light, the atlas, and the cascade atlas when a
      main light was found. */
  function TexturesTaken(culled: bool, lightCount: nat, mainLightIndex: int): nat
  {
    if !culled || lightCount == 0 then 0 else if mainLightIndex != -1 then 2 else 1
  }

  /** An upload that touches no keyword, then an optional cascade pass,
      then the atlas pass: the textures the two passes take, nothing given
      back, nothing culled, the soft-shadow keyword as the atlas pass leaves
      it and the cascade keywords as the cascade pass leaves them. */
  lemma ShadowPartsEffects(upload: seq<Command>, cascade: seq<Op>, frame: seq<Op>,
                           cascadeMap: Option<Texture>, atlas: Texture, light: Light)
    requires forall k :: LeavesKeyword(upload, k)
    requires cascadeMap.None? ==> cascade == []
    requires cascadeMap.Some? ==>
               Acquired(cascade) == {cascadeMap.value} && Released(cascade) == {} && CullRequests(cascade) == [] &&
               FinalKeyword(cascade, CascadedShadowsHard) == Some(light.shadows == Hard) &&
               FinalKeyword(cascade, CascadedShadowsSoft) == Some(light.shadows != Hard) &&
               FinalKeyword(cascade, ShadowsSoft) == None
    requires Acquired(frame) == {atlas} && Released(frame) == {} && CullRequests(frame) == []
    requires FinalKeyword(frame, ShadowsSoft) == Some(light.shadows == Soft)
    requires FinalKeyword(frame, CascadedShadowsHard) == None && FinalKeyword(frame, CascadedShadowsSoft) == None
    ensures var ops := [ExecuteCommandBuffer(upload)] + cascade + frame;
            Acquired(ops) == Held(Some(atlas), cascadeMap) && Released(ops) == {} && CullRequests(ops) == [] &&
            FinalKeyword(ops, ShadowsSoft) == Some(light.shadows == Soft) &&
            FinalKeyword(ops, CascadedShadowsHard) == (if cascadeMap.Some? then Some(light.shadows == Hard) else None) &&
            FinalKeyword(ops, CascadedShadowsSoft) == (if cascadeMap.Some? then Some(light.shadows != Hard) else None)
  {
    var exec := [ExecuteCommandBuffer(upload)];
    ExecuteInert(upload);
    if cascadeMap.None? {
      assert Acquired(cascade) == {} && Released(cascade) == {} && CullRequests(cascade) == [];
      assert forall k :: FinalKeyword(cascade, k) == None;
    }
    ConcatEffects(exec, cascade);
    ConcatEffects(exec + cascade, frame);
  }

  /** A culling request, the light and shadow part, the camera part
      (whose keyword effects are those of its pending resets) and the
      releases of the shadow maps, composed. */
  lemma FramePartsEffects(distance: real, n: nat, main: int, shadow: seq<Op>, cam: seq<Op>, resets: seq<Command>,
                          atlas: Option<Texture>, cascade: Option<Texture>, light: Light)
    requires resets == Resets(n, main)
    requires n == 0 ==> shadow == [] && atlas.None? && cascade.None?
    requires n > 0 ==>
               atlas.Some? && (cascade.Some? <==> main != -1) &&
               Acquired(shadow) == Held(atlas, cascade) && Released(shadow) == {} && CullRequests(shadow) == [] &&
               FinalKeyword(shadow, ShadowsSoft) == Some(light.shadows == Soft) &&
               FinalKeyword(shadow, CascadedShadowsHard) == (if main != -1 then Some(light.shadows == Hard) else None) &&
               FinalKeyword(shadow, CascadedShadowsSoft) == (if main != -1 then Some(light.shadows != Hard) else None)
    requires Acquired(cam) == {} && Released(cam) == {} && CullRequests(cam) == []
    requires forall k :: FinalKeyword(cam, k) == KeywordState(resets, k)
    ensures var ops := [Cull(distance)] + shadow + cam + Releases(atlas, cascade);
            Acquired(ops) == Held(atlas, cascade) && Released(ops) == Held(atlas, cascade) &&
            CullRequests(ops) == [distance]
    ensures var ops := [Cull(distance)] + shadow + cam + Releases(atlas, cascade);
            n == 0 ==> forall k :: FinalKeyword(ops, k) == Some(false)
    ensures var ops := [Cull(distance)] + shadow + cam + Releases(atlas, cascade);
            n > 0 ==>
              FinalKeyword(ops, ShadowsSoft) == Some(light.shadows == Soft) &&
              FinalKeyword(ops, CascadedShadowsHard) == Some(main != -1 && light.shadows == Hard) &&
              FinalKeyword(ops, CascadedShadowsSoft) == Some(main != -1 && light.shadows != Hard)
  {
    var request := [Cull(distance)];
    assert request[..0] == [];
    NoCommands(request);
    if n == 0 {
      assert Acquired(shadow) == {} && Released(shadow) == {} && CullRequests(shadow) == [];
      assert forall k :: FinalKeyword(shadow, k) == None;
    }
    ReleasesEffects(atlas, cascade);
    ConcatEffects(request, shadow);
    ConcatEffects(request + shadow, cam);
    ConcatEffects(request + shadow + cam, Releases(atlas, cascade));
  }

  /** A stretch of log that gives back what it takes, all from handles in
      [first, mid), followed by one that gives back what it takes from
      [mid, next), gives back what it takes from [first, next). */
  lemma RunStepEffects(prev: seq<Op>, frame: seq<Op>, first: nat, mid: nat, next: nat, taken: set<Texture>)
    requires Released(prev) == Acquired(prev) && first <= mid <= next
    requires forall t :: t in Acquired(prev) ==> first <= t.id < mid
    requires Acquired(frame) == taken && Released(frame) == taken
    requires forall t :: t in taken ==> mid <= t.id < next
    ensures Released(prev + frame) == Acquired(prev + frame)
    ensures forall t :: t in Acquired(prev + frame) ==> first <= t.id < next
    ensures CullRequests(prev + frame) == CullRequests(prev) + CullRequests(frame)
  {
    ConcatEffects(prev, frame);
  }

  /** Where a sequence of cameras leaves the pipeline: its state, the next
      texture handle and everything sent to the engine. */
  datatype Run = Run(state: PipelineState, nextTexture: nat, ops: seq<Op>)

  /** The handle the atlas pass takes: the next one, or the one after the
      cascade atlas when there is a main light; none without lights. */
  function AtlasTexture(lightCount: nat, mainLightIndex: int, first: nat): Option<Texture>
  {
    if lightCount == 0 then None
    else Some(Texture(if mainLightIndex != -1 then first + 1 else first))
  }

  /** The handle the cascade pass takes, when there is a main light. */
  function CascadeTexture(lightCount: nat, mainLightIndex: int, first: nat): Option<Texture>
  {
    if lightCount > 0 && mainLightIndex != -1 then Some(Texture(first)) else None
  }

  /** The shadow distances the cameras that can be culled ask for, in order. */
  function CullDistances(shadowDistance: real, cameras: seq<Camera>): seq<real>
  {
    if cameras == [] then []
    else
      var last := cameras[|cameras| - 1];
      CullDistances(shadowDistance, cameras[..|cameras| - 1])
      + (if last.cullingSupported then [Min(shadowDistance, last.farClipPlane)] else [])
  }

  /** What the atlas loop starts from, given the shadow data, main light and
      tile count it finds. */
  function AtlasOf(c: PipelineConfig, cull: CullingResults, data: seq<Vec4>, main: int, tileCount: int): AtlasInput
  {
    var split := SplitFor(tileCount);
    AtlasInput(cull, data, main, split, c.shadowMapSize / split)
  }

  /** What the cascade loop starts from. */
  function CascadeOf(c: PipelineConfig, cull: CullingResults): CascadeInput
    requires c.shadowCascades >= 0
  {
    CascadeInput(cull, c.shadowCascades, c.shadowCascadeSplit, c.shadowMapSize / 2, c.reversedZ)
  }

  /** What the atlas loop of a camera with lights starts from: the shadow
      data, main light and tile count ConfigureLights leaves. */
  function LitAtlas(c: PipelineConfig, s: PipelineState, cull: CullingResults): (a: AtlasInput)
    requires StateSized(s)
    ensures WellFormed(a) && a.cull == cull
  {
    var slots := SlotsAfter(cull, SlotCount(cull), SlotsOf(s));
    AtlasOf(c, cull, slots.shadowData, MainLightIndex(cull, SlotCount(cull)), ShadowTileCount(cull))
  }

  /** The state after a culled camera with at least one visible light:
      the light arrays as ConfigureLights fills them (later slots keep the
      previous frame's values), the main light and tile count it finds, the
      cascade slots written only when there is a main light, and the
      atlas slots as the light loop leaves them. */
  function LitState(c: PipelineConfig, s: PipelineState, cull: CullingResults): (t: PipelineState)
    requires StateSized(s) && 0 <= c.shadowCascades <= 4 && |cull.visibleLights| > 0
    ensures StateSized(t)
    ensures t.mainLightIndex == MainLightIndex(cull, SlotCount(cull)) && t.shadowTileCount == ShadowTileCount(cull)
    ensures t.cascadeMatrices[4] == s.cascadeMatrices[4]
  {
    var slots := SlotsAfter(cull, SlotCount(cull), SlotsOf(s));
    var main := MainLightIndex(cull, SlotCount(cull));
    var a := LitAtlas(c, s, cull);
    var ci := CascadeOf(c, cull);
    CascadeSlotsAfterEntries(ci, c.shadowCascades, s.cascadeSpheres, s.cascadeMatrices, 4);
    PipelineState(slots.colors, slots.directions, slots.attenuations, slots.spotDirections,
                  AtlasDataAfter(a, LightCount(a)),
                  AtlasMatricesAfter(a, LightCount(a), s.worldToShadowMatrices),
                  if main != -1 then CascadeMatricesAfter(ci, c.shadowCascades, s.cascadeMatrices) else s.cascadeMatrices,
                  if main != -1 then SpheresAfter(ci, c.shadowCascades, s.cascadeSpheres) else s.cascadeSpheres,
                  main, ShadowTileCount(cull))
  }

  /** LitState and ShadowOps spelled out from the values of each step: the
      light arrays as ConfigureLights leaves them, the cascade slots, and
      the atlas slots as the light loop leaves them. */
  lemma LitStepsCompose(c: PipelineConfig, s: PipelineState, cull: CullingResults, first: nat,
                        slots: LightSlots, spheres: seq<Vec4>, cascadeMatrices: seq<Mat4>,
                        data: seq<Vec4>, matrices: seq<Mat4>, log0: seq<Op>, log: seq<Op>)
    requires StateSized(s) && c.shadowMapSize > 0 && 0 <= c.shadowCascades <= 4 && |cull.visibleLights| > 0
    requires slots == SlotsAfter(cull, SlotCount(cull), SlotsOf(s))
    requires var main := MainLightIndex(cull, SlotCount(cull));
             var ci := CascadeOf(c, cull);
             if main != -1
             then spheres == SpheresAfter(ci, c.shadowCascades, s.cascadeSpheres) &&
                  cascadeMatrices == CascadeMatricesAfter(ci, c.shadowCascades, s.cascadeMatrices)
             else spheres == s.cascadeSpheres && cascadeMatrices == s.cascadeMatrices
    requires var a := AtlasOf(c, cull, slots.shadowData, MainLightIndex(cull, SlotCount(cull)), ShadowTileCount(cull));
             WellFormed(a) &&
             data == AtlasDataAfter(a, LightCount(a)) && matrices == AtlasMatricesAfter(a, LightCount(a), s.worldToShadowMatrices)
    requires var main := MainLightIndex(cull, SlotCount(cull));
             var n := |cull.visibleLights|;
             log == log0
                    + [ExecuteCommandBuffer(LightArrayUpload(slots.colors, slots.directions, slots.attenuations, slots.spotDirections))]
                    + (if main != -1 then CascadeFrame(CascadeOf(c, cull), Texture(first), spheres, cascadeMatrices, c.shadowMapSize)
                       else [])
                    + AtlasFrame(AtlasOf(c, cull, slots.shadowData, main, ShadowTileCount(cull)), c.shadowDistance,
                                 AtlasTexture(n, main, first).value, matrices, data, c.shadowMapSize)
    ensures var main := MainLightIndex(cull, SlotCount(cull));
            LitState(c, s, cull) == PipelineState(slots.colors, slots.directions, slots.attenuations, slots.spotDirections,
                                                  data, matrices, cascadeMatrices, spheres, main, ShadowTileCount(cull))
    ensures log == log0 + ShadowOps(c, s, cull, first)
  {
    var main := MainLightIndex(cull, SlotCount(cull));
    var n := |cull.visibleLights|;
    AppendAssociative(log0, [ExecuteCommandBuffer(LightArrayUpload(slots.colors, slots.directions, slots.attenuations, slots.spotDirections))],
                      if main != -1 then CascadeFrame(CascadeOf(c, cull), Texture(first), spheres, cascadeMatrices, c.shadowMapSize)
                      else [],
                      AtlasFrame(AtlasOf(c, cull, slots.shadowData, main, ShadowTileCount(cull)), c.shadowDistance,
                                 AtlasTexture(n, main, first).value, matrices, data, c.shadowMapSize));
  }

  /** The state after one camera: unchanged when the camera cannot be
      culled or sees no light. */
  function NextState(c: PipelineConfig, s: PipelineState, camera: Camera, cull: CullingResults): (t: PipelineState)
    requires StateSized(s) && 0 <= c.shadowCascades <= 4
    ensures StateSized(t) && t.cascadeMatrices[4] == s.cascadeMatrices[4]
  {
    if camera.cullingSupported && |cull.visibleLights| > 0 then LitState(c, s, cull) else s
  }

  /** The engine calls of the light and shadow part of a camera with
      lights: the light arrays, the cascade pass when there is a main
      light (taking handle `first`), and the atlas pass (taking the next
      handle). */
  function ShadowOps(c: PipelineConfig, s: PipelineState, cull: CullingResults, first: nat): seq<Op>
    requires StateSized(s) && c.shadowMapSize > 0 && 0 <= c.shadowCascades <= 4 && |cull.visibleLights| > 0
  {
    var t := LitState(c, s, cull);
    var n := |cull.visibleLights|;
    [ExecuteCommandBuffer(LightArrayUpload(t.colors, t.directions, t.attenuations, t.spotDirections))]
    + (if t.mainLightIndex != -1
       then CascadeFrame(CascadeOf(c, cull), Texture(first), t.cascadeSpheres, t.cascadeMatrices, c.shadowMapSize)
       else [])
    + AtlasFrame(LitAtlas(c, s, cull), c.shadowDistance, AtlasTexture(n, t.mainLightIndex, first).value,
                 t.worldToShadowMatrices, t.shadowData, c.shadowMapSize)
  }

  /** Everything one camera sends to the engine, starting from state s
      with `first` as the next texture handle. */
  function FrameOps(c: PipelineConfig, s: PipelineState, camera: Camera, cull: CullingResults, first: nat): seq<Op>
    requires StateSized(s) && c.shadowMapSize > 0 && 0 <= c.shadowCascades <= 4
  {
    if !camera.cullingSupported then []
    else
      var n := |cull.visibleLights|;
      var main := NextState(c, s, camera, cull).mainLightIndex;
      [Cull(Min(c.shadowDistance, camera.farClipPlane))]
      + (if n > 0 then ShadowOps(c, s, cull, first) else [])
      + CameraOps(camera, Resets(n, main), c.enableDynamicBatching, c.enableInstancing)
      + Releases(AtlasTexture(n, main, first), CascadeTexture(n, main, first))
  }

  /** The temporary textures one camera takes (and gives back). */
  function FrameTextures(c: PipelineConfig, s: PipelineState, camera: Camera, cull: CullingResults, first: nat): set<Texture>
    requires StateSized(s) && 0 <= c.shadowCascades <= 4
  {
    var n := |cull.visibleLights|;
    var main := NextState(c, s, camera, cull).mainLightIndex;
    if camera.cullingSupported then Held(AtlasTexture(n, main, first), CascadeTexture(n, main, first)) else {}
  }

  /** The first k cameras, each with its culling result, rendered in order. */
  function RunCameras(c: PipelineConfig, s: PipelineState, first: nat, cameras: seq<Camera>, culls: seq<CullingResults>,
                      k: nat): (r: Run)
    requires StateSized(s) && c.shadowMapSize > 0 && 0 <= c.shadowCascades <= 4
    requires |culls| == |cameras| && k <= |cameras|
    ensures StateSized(r.state) && r.state.cascadeMatrices[4] == s.cascadeMatrices[4]
  {
    if k == 0 then Run(s, first, [])
    else
      var r := RunCameras(c, s, first, cameras, culls, k - 1);
      var camera := cameras[k - 1];
      var cull := culls[k - 1];
      var t := NextState(c, r.state, camera, cull);
      Run(t, r.nextTexture + TexturesTaken(camera.cullingSupported, |cull.visibleLights|, t.mainLightIndex),
          r.ops + FrameOps(c, r.state, camera, cull, r.nextTexture))
  }

  /** The light and shadow part of a camera with lights takes the atlas,
      and the cascade atlas when there is a main light, gives nothing back
      and culls nothing. It leaves the soft-shadow keyword as light 0's
      shadow type says, and sets the cascade keywords (the hard one for
      light 0 with hard shadows, the soft one otherwise) only when there
      is a main light. */
  lemma ShadowOpsEffects(c: PipelineConfig, s: PipelineState, cull: CullingResults, first: nat)
    requires StateSized(s) && c.shadowMapSize > 0 && 0 <= c.shadowCascades <= 4 && |cull.visibleLights| > 0
    ensures var ops := ShadowOps(c, s, cull, first);
            var n := |cull.visibleLights|;
            var main := LitState(c, s, cull).mainLightIndex;
            var light := cull.visibleLights[0].light;
            Acquired(ops) == Held(AtlasTexture(n, main, first), CascadeTexture(n, main, first)) &&
            Released(ops) == {} && CullRequests(ops) == [] &&
            FinalKeyword(ops, ShadowsSoft) == Some(light.shadows == Soft) &&
            FinalKeyword(ops, CascadedShadowsHard) == (if main != -1 then Some(light.shadows == Hard) else None) &&
            FinalKeyword(ops, CascadedShadowsSoft) == (if main != -1 then Some(light.shadows != Hard) else None)
  {
    var t := LitState(c, s, cull);
    var n := |cull.visibleLights|;
    var upload := [ExecuteCommandBuffer(LightArrayUpload(t.colors, t.directions, t.attenuations, t.spotDirections))];
    var cascade := if t.mainLightIndex != -1
                   then CascadeFrame(CascadeOf(c, cull), Texture(first), t.cascadeSpheres, t.cascadeMatrices, c.shadowMapSize)
                   else [];
    var atlas := AtlasTexture(n, t.mainLightIndex, first).value;
    var a := LitAtlas(c, s, cull);
    var frame := AtlasFrame(a, c.shadowDistance, atlas, t.worldToShadowMatrices, t.shadowData, c.shadowMapSize);
    assert ShadowOps(c, s, cull, first) == upload + cascade + frame;
    if t.mainLightIndex != -1 {
      CascadeFrameEffects(CascadeOf(c, cull), Texture(first), t.cascadeSpheres, t.cascadeMatrices, c.shadowMapSize);
    }
    AtlasFrameEffects(a, c.shadowDistance, atlas, t.worldToShadowMatrices, t.shadowData, c.shadowMapSize);
    ShadowPartsEffects(LightArrayUpload(t.colors, t.directions, t.attenuations, t.spotDirections), cascade, frame,
                       CascadeTexture(n, t.mainLightIndex, first), atlas, cull.visibleLights[0].light);
  }

  /** One camera gives back exactly the textures it takes, asks for one
      culling at the smaller of the shadow distance and its far plane (none
      when it cannot be culled), and leaves the shadow keywords consistent:
      all off without visible lights; with lights, the soft-shadow keyword
      as light 0's shadow type says, and a cascade keyword on only when
      there is a main light, the hard one exactly when light 0's shadows
      are hard. */
  lemma FrameEffects(c: PipelineConfig, s: PipelineState, camera: Camera, cull: CullingResults, first: nat)
    requires StateSized(s) && c.shadowMapSize > 0 && 0 <= c.shadowCascades <= 4
    ensures var ops := FrameOps(c, s, camera, cull, first);
            Acquired(ops) == FrameTextures(c, s, camera, cull, first) && Released(ops) == Acquired(ops) &&
            CullRequests(ops) == if camera.cullingSupported then [Min(c.shadowDistance, camera.farClipPlane)] else []
    ensures var ops := FrameOps(c, s, camera, cull, first);
            camera.cullingSupported && |cull.visibleLights| == 0 ==> forall k :: FinalKeyword(ops, k) == Some(false)
    ensures var ops := FrameOps(c, s, camera, cull, first);
            var main := NextState(c, s, camera, cull).mainLightIndex;
            camera.cullingSupported && |cull.visibleLights| > 0 ==>
              var light := cull.visibleLights[0].light;
              FinalKeyword(ops, ShadowsSoft) == Some(light.shadows == Soft) &&
              FinalKeyword(ops, CascadedShadowsHard) == Some(main != -1 && light.shadows == Hard) &&
              FinalKeyword(ops, CascadedShadowsSoft) == Some(main != -1 && light.shadows != Hard)
  {
    if camera.cullingSupported {
      var n := |cull.visibleLights|;
      var main := NextState(c, s, camera, cull).mainLightIndex;
      var shadow := if n > 0 then ShadowOps(c, s, cull, first) else [];
      var resets := Resets(n, main);
      var cam := CameraOps(camera, resets, c.enableDynamicBatching, c.enableInstancing);
      assert FrameOps(c, s, camera, cull, first)
             == [Cull(Min(c.shadowDistance, camera.farClipPlane))] + shadow + cam
                + Releases(AtlasTexture(n, main, first), CascadeTexture(n, main, first));
      if n > 0 {
        ShadowOpsEffects(c, s, cull, first);
      }
      CameraOpsEffects(camera, resets, c.enableDynamicBatching, c.enableInstancing);
      FramePartsEffects(Min(c.shadowDistance, camera.farClipPlane), n, main, shadow, cam, resets,
                        AtlasTexture(n, main, first), CascadeTexture(n, main, first),
                        if n > 0 then cull.visibleLights[0].light else Light(NoShadows, 0.0, 0.0, 0.0));
    }
  }

  /** The culling request of one camera, as a corollary of FrameEffects. */
  lemma FrameCullRequests(c: PipelineConfig, s: PipelineState, camera: Camera, cull: CullingResults, first: nat)
    requires StateSized(s) && c.shadowMapSize > 0 && 0 <= c.shadowCascades <= 4
    ensures CullRequests(FrameOps(c, s, camera, cull, first))
            == if camera.cullingSupported then [Min(c.shadowDistance, camera.farClipPlane)] else []
  {
    FrameEffects(c, s, camera, cull, first);
  }

  /** The textures of one camera, as a corollary of FrameEffects. */
  lemma FrameReturnsTextures(c: PipelineConfig, s: PipelineState, camera: Camera, cull: CullingResults, first: nat)
    requires StateSized(s) && c.shadowMapSize > 0 && 0 <= c.shadowCascades <= 4
    ensures var ops := FrameOps(c, s, camera, cull, first);
            Acquired(ops) == FrameTextures(c, s, camera, cull, first) && Released(ops) == Acquired(ops)
  {
    FrameEffects(c, s, camera, cull, first);
  }

  /** The camera's textures are the handles from `first` on, one per
      texture it takes. */
  lemma FrameTexturesFresh(c: PipelineConfig, s: PipelineState, camera: Camera, cull: CullingResults, first: nat)
    requires StateSized(s) && 0 <= c.shadowCascades <= 4
    ensures var main := NextState(c, s, camera, cull).mainLightIndex;
            forall t :: t in FrameTextures(c, s, camera, cull, first) <==>
              first <= t.id < first + TexturesTaken(camera.cullingSupported, |cull.visibleLights|, main)
  {
  }

  /** Over a sequence of cameras the pipeline gives back every texture it
      takes, and the handles it takes are the ones it numbers from `first`. */
  lemma {:induction false} RunReturnsTextures(c: PipelineConfig, s: PipelineState, first: nat, cameras: seq<Camera>,
                                              culls: seq<CullingResults>, k: nat)
    requires StateSized(s) && c.shadowMapSize > 0 && 0 <= c.shadowCascades <= 4
    requires |culls| == |cameras| && k <= |cameras|
    ensures var r := RunCameras(c, s, first, cameras, culls, k);
            Released(r.ops) == Acquired(r.ops) && first <= r.nextTexture &&
            forall t :: t in Acquired(r.ops) ==> first <= t.id < r.nextTexture
  {
    if k > 0 {
      var r := RunCameras(c, s, first, cameras, culls, k - 1);
      var camera := cameras[k - 1];
      var cull := culls[k - 1];
      var frame := FrameOps(c, r.state, camera, cull, r.nextTexture);
      RunReturnsTextures(c, s, first, cameras, culls, k - 1);
      FrameReturnsTextures(c, r.state, camera, cull, r.nextTexture);
      FrameTexturesFresh(c, r.state, camera, cull, r.nextTexture);
      RunStepEffects(r.ops, frame, first, r.nextTexture,
                     RunCameras(c, s, first, cameras, culls, k).nextTexture, FrameTextures(c, r.state, camera, cull, r.nextTexture));
    }
  }

  /** Over a sequence of cameras the pipeline asks for one culling per
      camera that can be culled, in order, at the smaller of the shadow
      distance and the camera's far plane. */
  lemma {:induction false} RunCullRequests(c: PipelineConfig, s: PipelineState, first: nat, cameras: seq<Camera>,
                                           culls: seq<CullingResults>, k: nat)
    requires StateSized(s) && c.shadowMapSize > 0 && 0 <= c.shadowCascades <= 4
    requires |culls| == |cameras| && k <= |cameras|
    ensures CullRequests(RunCameras(c, s, first, cameras, culls, k).ops) == CullDistances(c.shadowDistance, cameras[..k])
  {
    if k == 0 {
      assert cameras[..0] == [];
    } else {
      var r := RunCameras(c, s, first, cameras, culls, k - 1);
      var camera := cameras[k - 1];
      var frame := FrameOps(c, r.state, camera, culls[k - 1], r.nextTexture);
      RunCullRequests(c, s, first, cameras, culls, k - 1);
      FrameCullRequests(c, r.state, camera, culls[k - 1], r.nextTexture);
      CullDistancesStep(c.shadowDistance, cameras, k);
      CullStep(RunCameras(c, s, first, cameras, culls, k).ops, r.ops, frame,
               CullDistances(c.shadowDistance, cameras[..k - 1]),
               if camera.cullingSupported then [Min(c.shadowDistance, camera.farClipPlane)] else []);
    }
  }

  lemma CullDistancesStep(shadowDistance: real, cameras: seq<Camera>, k: nat)
    requires 0 < k <= |cameras|
    ensures CullDistances(shadowDistance, cameras[..k])
            == CullDistances(shadowDistance, cameras[..k - 1])
               + (if cameras[k - 1].cullingSupported then [Min(shadowDistance, cameras[k - 1].farClipPlane)] else [])
  {
    assert cameras[..k][..k - 1] == cameras[..k - 1];
  }

  lemma CullStep(ops: seq<Op>, prev: seq<Op>, frame: seq<Op>, prevCulls: seq<real>, frameCulls: seq<real>)
    requires ops == prev + frame && CullRequests(prev) == prevCulls && CullRequests(frame) == frameCulls
    ensures CullRequests(ops) == prevCulls + frameCulls
  {
    ConcatEffects(prev, frame);
  }
}
