/** The render pipeline object, BasePipeline: its settings, the fixed-size
    light and shadow arrays it keeps from frame to frame, its two command
    buffers, and the per-camera pass that configures the lights, renders the
    cascaded and the atlas shadow maps and draws the scene. */
module Pipeline {
  import opened Settings
  import opened ShadowMatrixMath
  import opened Engine
  import opened CommandLog
  import opened ShadowTiles
  import opened LightConfig
  import opened AtlasShadows
  import opened CascadeShadows
  import opened CameraPass
  import opened Frame

  /** A new array of n zero vectors. */
  method ZeroVectors(n: nat) returns (a: array<Vec4>)
    ensures fresh(a) && a.Length == n
    ensures forall i :: 0 <= i < n ==> a[i] == ZeroVector
  {
    a := new Vec4[n](_ => ZeroVector);
  }

  /** A new array of n zero matrices. */
  method ZeroMatrices(n: nat) returns (a: array<Mat4>)
    ensures fresh(a) && a.Length == n
    ensures forall i :: 0 <= i < n ==> a[i] == ZeroMatrix
  {
    a := new Mat4[n](_ => ZeroMatrix);
  }

  /** The cascade matrix array: five zero matrices, the last one with
      m33 = 1 on a reversed depth buffer. */
  method CascadeMatrixSlots(reversedZ: bool) returns (a: array<Mat4>)
    ensures fresh(a) && a.Length == 5
    ensures forall i :: 0 <= i < 4 ==> a[i] == ZeroMatrix
    ensures a[4] == Sentinel(reversedZ)
  {
    a := ZeroMatrices(5);
    if reversedZ {
      a[4] := a[4].(row3 := a[4].row3.(w := 1.0));
    }
  }

  class BasePipeline {
    const enableDynamicBatching: bool
    const enableInstancing: bool
    /** The atlas resolution in texels. */
    const shadowMapSize: int
    const shadowDistance: real
    const shadowCascades: int
    const shadowCascadeSplit: Vec3
    /** SystemInfo.usesReversedZBuffer: whether the platform's depth buffer is
        reversed. Fixed for the platform, so a setting here. */
    const reversedZ: bool

    const visibleLightColors: array<Vec4>
    const visibleLightDirections: array<Vec4>
    const visibleLightAttenuations: array<Vec4>
    const visibleLightSpotDirections: array<Vec4>
    const worldToShadowMatrices: array<Mat4>
    const shadowData: array<Vec4>
    const worldToShadowCascadeMatrices: array<Mat4>
    const cascadeCullingSpheres: array<Vec4>

    /** The "Render Camera" and "Render Shadow" command buffers. */
    const cmd: CommandBuffer
    const shadowCmd: CommandBuffer

    var shadowMap: Option<Texture>
    var cascadedShadowMap: Option<Texture>
    var shadowTileCount: int
    var mainLightIndex: int

    /** The vector arrays are six different arrays. */
    ghost predicate DistinctArrays()
    {
      visibleLightColors != visibleLightDirections && visibleLightColors != visibleLightAttenuations &&
      visibleLightColors != visibleLightSpotDirections && visibleLightColors != shadowData &&
      visibleLightColors != cascadeCullingSpheres &&
      visibleLightDirections != visibleLightAttenuations && visibleLightDirections != visibleLightSpotDirections &&
      visibleLightDirections != shadowData && visibleLightDirections != cascadeCullingSpheres &&
      visibleLightAttenuations != visibleLightSpotDirections && visibleLightAttenuations != shadowData &&
      visibleLightAttenuations != cascadeCullingSpheres &&
      visibleLightSpotDirections != shadowData && visibleLightSpotDirections != cascadeCullingSpheres &&
      shadowData != cascadeCullingSpheres &&
      worldToShadowMatrices != worldToShadowCascadeMatrices
    }

    /** The fixed shape of the pipeline: array sizes, separate arrays and
        buffers, an atlas size from the ShadowMapSize enum and at most four
        cascades. None of it can change after construction. */
    ghost predicate Shape()
    {
      visibleLightColors.Length == MaxVisibleLights &&
      visibleLightDirections.Length == MaxVisibleLights &&
      visibleLightAttenuations.Length == MaxVisibleLights &&
      visibleLightSpotDirections.Length == MaxVisibleLights &&
      worldToShadowMatrices.Length == MaxVisibleLights &&
      shadowData.Length == MaxVisibleLights &&
      worldToShadowCascadeMatrices.Length == 5 &&
      cascadeCullingSpheres.Length == 4 &&
      DistinctArrays() && cmd != shadowCmd &&
      IsShadowMapPixels(shadowMapSize) && 0 <= shadowCascades <= 4
    }

    /** The pipeline's invariant: its shape, and the sentinel in slot 4 of
        the cascade matrices. */
    ghost predicate Valid()
      reads worldToShadowCascadeMatrices
    {
      Shape() && worldToShadowCascadeMatrices[4] == Sentinel(reversedZ)
    }

    /** Between two cameras both buffers are empty and no temporary texture
        is held. */
    ghost predicate Idle()
      reads this, cmd, shadowCmd
    {
      cmd.commands == [] && shadowCmd.commands == [] && shadowMap == None && cascadedShadowMap == None
    }

    ghost function State(): PipelineState
      reads this`mainLightIndex, this`shadowTileCount, visibleLightColors, visibleLightDirections, visibleLightAttenuations,
            visibleLightSpotDirections, shadowData, worldToShadowMatrices,
            worldToShadowCascadeMatrices, cascadeCullingSpheres
    {
      PipelineState(visibleLightColors[..], visibleLightDirections[..], visibleLightAttenuations[..],
                    visibleLightSpotDirections[..], shadowData[..], worldToShadowMatrices[..],
                    worldToShadowCascadeMatrices[..], cascadeCullingSpheres[..],
                    mainLightIndex, shadowTileCount)
    }

    /** The four light arrays as ConfigureLights hands them to the shaders. */
    ghost function LightArrayCommands(): seq<Command>
      reads visibleLightColors, visibleLightDirections, visibleLightAttenuations, visibleLightSpotDirections
    {
      LightArrayUpload(visibleLightColors[..], visibleLightDirections[..], visibleLightAttenuations[..],
                       visibleLightSpotDirections[..])
    }

    /** The five light arrays as values. */
    ghost function Slots(): LightSlots
      reads visibleLightColors, visibleLightDirections, visibleLightAttenuations,
            visibleLightSpotDirections, shadowData
    {
      LightSlots(visibleLightColors[..], visibleLightDirections[..], visibleLightAttenuations[..],
                 visibleLightSpotDirections[..], shadowData[..])
    }

    /** The pipeline's settings as one value. */
    function Config(): PipelineConfig
    {
      PipelineConfig(enableDynamicBatching, enableInstancing, shadowMapSize, shadowDistance,
                     shadowCascades, shadowCascadeSplit, reversedZ)
    }

    /** Stores the settings; every array slot starts as the zero vector or
        zero matrix, except that slot 4 of the cascade matrices gets m33 = 1
        on a reversed depth buffer. */
    constructor (enableDynamicBatching: bool, enableInstancing: bool, shadowMapSize: ShadowMapSize,
                 shadowDistance: real, shadowCascades: int, shadowCascadeSplit: Vec3, reversedZ: bool)
      requires 0 <= shadowCascades <= 4
      ensures Valid() && Idle()
      ensures this.enableDynamicBatching == enableDynamicBatching && this.enableInstancing == enableInstancing
      ensures this.shadowMapSize == Pixels(shadowMapSize) && this.shadowDistance == shadowDistance
      ensures this.shadowCascades == shadowCascades && this.shadowCascadeSplit == shadowCascadeSplit
      ensures this.reversedZ == reversedZ
      ensures mainLightIndex == 0 && shadowTileCount == 0
      ensures forall i :: 0 <= i < MaxVisibleLights ==> visibleLightColors[i] == ZeroVector
      ensures forall i :: 0 <= i < MaxVisibleLights ==> visibleLightDirections[i] == ZeroVector
      ensures forall i :: 0 <= i < MaxVisibleLights ==> visibleLightAttenuations[i] == ZeroVector
      ensures forall i :: 0 <= i < MaxVisibleLights ==> visibleLightSpotDirections[i] == ZeroVector
      ensures forall i :: 0 <= i < MaxVisibleLights ==> shadowData[i] == ZeroVector
      ensures forall i :: 0 <= i < MaxVisibleLights ==> worldToShadowMatrices[i] == ZeroMatrix
      ensures forall i :: 0 <= i < 4 ==> worldToShadowCascadeMatrices[i] == ZeroMatrix
      ensures forall i :: 0 <= i < 4 ==> cascadeCullingSpheres[i] == ZeroVector
    {
      this.enableDynamicBatching := enableDynamicBatching;
      this.enableInstancing := enableInstancing;
      this.shadowMapSize := Pixels(shadowMapSize);
      this.shadowDistance := shadowDistance;
      this.shadowCascades := shadowCascades;
      this.shadowCascadeSplit := shadowCascadeSplit;
      this.reversedZ := reversedZ;
      var colors := ZeroVectors(MaxVisibleLights);
      var directions := ZeroVectors(MaxVisibleLights);
      assert directions != colors;
      var attenuations := ZeroVectors(MaxVisibleLights);
      assert attenuations != colors && attenuations != directions;
      var spotDirections := ZeroVectors(MaxVisibleLights);
      assert spotDirections != colors && spotDirections != directions && spotDirections != attenuations;
      var data := ZeroVectors(MaxVisibleLights);
      assert data != colors && data != directions && data != attenuations && data != spotDirections;
      var spheres := ZeroVectors(4);
      assert spheres != colors && spheres != directions && spheres != attenuations &&
             spheres != spotDirections && spheres != data;
      var matrices := ZeroMatrices(MaxVisibleLights);
      var cascadeMatrices := CascadeMatrixSlots(reversedZ);
      assert cascadeMatrices != matrices;
      visibleLightColors := colors;
      visibleLightDirections := directions;
      visibleLightAttenuations := attenuations;
      visibleLightSpotDirections := spotDirections;
      worldToShadowMatrices := matrices;
      shadowData := data;
      cascadeCullingSpheres := spheres;
      worldToShadowCascadeMatrices := cascadeMatrices;
      cmd := new CommandBuffer();
      shadowCmd := new CommandBuffer();
      shadowMap := None;
      cascadedShadowMap := None;
      shadowTileCount := 0;
      mainLightIndex := 0;
      new;
      assert IsShadowMapPixels(this.shadowMapSize) by {
        assert Pixels(shadowMapSize) == this.shadowMapSize;
      }
    }

    /** Renders every camera in order, each with the culling result the
        engine returns for it, then submits the context. */
    method RenderCameras(ctx: RenderContext, cameras: seq<Camera>, culls: seq<CullingResults>)
      requires Valid() && Idle() && |culls| == |cameras|
      modifies this`mainLightIndex, this`shadowTileCount, this`shadowMap, this`cascadedShadowMap,
               visibleLightColors, visibleLightDirections, visibleLightAttenuations, visibleLightSpotDirections,
               shadowData, worldToShadowMatrices, worldToShadowCascadeMatrices, cascadeCullingSpheres,
               cmd, shadowCmd, ctx
      ensures Valid() && Idle()
      ensures var r := RunCameras(Config(), old(State()), old(ctx.nextTexture), cameras, culls, |cameras|);
              State() == r.state && ctx.nextTexture == r.nextTexture && ctx.log == old(ctx.log) + r.ops + [Submit]
    {
      ghost var s := State();
      var i := 0;
      while i < |cameras|
        invariant 0 <= i <= |cameras| && Valid() && Idle()
        invariant var r := RunCameras(Config(), s, old(ctx.nextTexture), cameras, culls, i);
                  State() == r.state && ctx.nextTexture == r.nextTexture && ctx.log == old(ctx.log) + r.ops
      {
        RenderNextCamera(ctx, cameras, culls, i, s, old(ctx.nextTexture), old(ctx.log));
        i := i + 1;
      }
      ctx.Submit();
    }

    /** Camera i of a run: the state, handle counter and log that the run of
        cameras 0 to i-1 left are carried one camera further. */
    method RenderNextCamera(ctx: RenderContext, cameras: seq<Camera>, culls: seq<CullingResults>, i: nat,
                            ghost s: PipelineState, ghost first: nat, ghost log0: seq<Op>)
      requires Valid() && Idle() && |culls| == |cameras| && i < |cameras| && StateSized(s)
      requires var r := RunCameras(Config(), s, first, cameras, culls, i);
               State() == r.state && ctx.nextTexture == r.nextTexture && ctx.log == log0 + r.ops
      modifies this`mainLightIndex, this`shadowTileCount, this`shadowMap, this`cascadedShadowMap,
               visibleLightColors, visibleLightDirections, visibleLightAttenuations, visibleLightSpotDirections,
               shadowData, worldToShadowMatrices, worldToShadowCascadeMatrices, cascadeCullingSpheres,
               cmd, shadowCmd, ctx
      ensures Valid() && Idle()
      ensures var r := RunCameras(Config(), s, first, cameras, culls, i + 1);
              State() == r.state && ctx.nextTexture == r.nextTexture && ctx.log == log0 + r.ops
    {
      ghost var r := RunCameras(Config(), s, first, cameras, culls, i);
      Render(ctx, cameras[i], culls[i]);
      AppendAssociative3(log0, r.ops, FrameOps(Config(), r.state, cameras[i], culls[i], r.nextTexture));
    }

    /** One camera: nothing at all when it cannot be culled; otherwise the
        culling request at the clamped shadow distance, the lights and the
        two shadow passes (or the keyword resets without lights), the camera
        part, and the release of the shadow maps taken. */
    method Render(ctx: RenderContext, camera: Camera, cull: CullingResults)
      requires Valid() && Idle()
      modifies this`mainLightIndex, this`shadowTileCount, this`shadowMap, this`cascadedShadowMap,
               visibleLightColors, visibleLightDirections, visibleLightAttenuations, visibleLightSpotDirections,
               shadowData, worldToShadowMatrices, worldToShadowCascadeMatrices, cascadeCullingSpheres,
               cmd, shadowCmd, ctx
      ensures Valid() && Idle()
      ensures State() == NextState(Config(), old(State()), camera, cull)
      ensures ctx.nextTexture == old(ctx.nextTexture) + TexturesTaken(camera.cullingSupported, |cull.visibleLights|,
                                                                      NextState(Config(), old(State()), camera, cull).mainLightIndex)
      ensures ctx.log == old(ctx.log) + FrameOps(Config(), old(State()), camera, cull, old(ctx.nextTexture))
    {
      if !camera.cullingSupported {
        return;
      }
      var n := |cull.visibleLights|;
      if n > 0 {
        RenderWithLights(ctx, camera, cull);
        FrameLogAssembles(old(ctx.log), ctx.log, Cull(Min(shadowDistance, camera.farClipPlane)),
                          ShadowOps(Config(), old(State()), cull, old(ctx.nextTexture)),
                          CameraOps(camera, Resets(n, mainLightIndex), enableDynamicBatching, enableInstancing),
                          Releases(AtlasTexture(n, mainLightIndex, old(ctx.nextTexture)),
                                   CascadeTexture(n, mainLightIndex, old(ctx.nextTexture))));
      } else {
        RenderWithoutLights(ctx, camera);
        UnlitFrameLogAssembles(old(ctx.log), ctx.log, Cull(Min(shadowDistance, camera.farClipPlane)),
                               CameraOps(camera, Resets(n, mainLightIndex), enableDynamicBatching, enableInstancing));
      }
    }

    /** A camera that can be culled and sees at least one light. */
    method RenderWithLights(ctx: RenderContext, camera: Camera, cull: CullingResults)
      requires Valid() && Idle() && |cull.visibleLights| > 0
      modifies this`mainLightIndex, this`shadowTileCount, this`shadowMap, this`cascadedShadowMap,
               visibleLightColors, visibleLightDirections, visibleLightAttenuations, visibleLightSpotDirections,
               shadowData, worldToShadowMatrices, worldToShadowCascadeMatrices, cascadeCullingSpheres,
               cmd, shadowCmd, ctx
      ensures Valid() && Idle()
      ensures State() == LitState(Config(), old(State()), cull)
      ensures ctx.nextTexture == old(ctx.nextTexture) + TexturesTaken(true, |cull.visibleLights|, mainLightIndex)
      ensures ctx.log == old(ctx.log) + [Cull(Min(shadowDistance, camera.farClipPlane))]
                         + ShadowOps(Config(), old(State()), cull, old(ctx.nextTexture))
                         + CameraOps(camera, Resets(|cull.visibleLights|, mainLightIndex), enableDynamicBatching, enableInstancing)
                         + Releases(AtlasTexture(|cull.visibleLights|, mainLightIndex, old(ctx.nextTexture)),
                                    CascadeTexture(|cull.visibleLights|, mainLightIndex, old(ctx.nextTexture)))
    {
      ctx.Cull(Min(shadowDistance, camera.farClipPlane));
      assert State() == old(State()) && Valid();
      RenderLightsAndShadows(ctx, cull);
      FinishCamera(ctx, camera);
    }

    /** The rest of a camera that sees no light, after the culling request:
        the three shadow keywords are switched off with the camera's clear. */
    method RenderWithoutLights(ctx: RenderContext, camera: Camera)
      requires Idle()
      modifies this`shadowMap, this`cascadedShadowMap, cmd, ctx
      ensures Idle()
      ensures State() == old(State()) && (old(Valid()) ==> Valid())
      ensures ctx.nextTexture == old(ctx.nextTexture)
      ensures ctx.log == old(ctx.log) + [Cull(Min(shadowDistance, camera.farClipPlane))]
                         + CameraOps(camera, Resets(0, mainLightIndex), enableDynamicBatching, enableInstancing)
    {
      ctx.Cull(Min(shadowDistance, camera.farClipPlane));
      ghost var log1 := ctx.log;
      cmd.Add(SetKeyword(CascadedShadowsHard, false));
      cmd.Add(SetKeyword(CascadedShadowsSoft, false));
      cmd.Add(SetKeyword(ShadowsSoft, false));
      assert cmd.commands == Resets(0, mainLightIndex);
      FinishCamera(ctx, camera);
      assert ctx.log == log1 + CameraOps(camera, Resets(0, mainLightIndex), enableDynamicBatching, enableInstancing) + [];
    }

    /** The camera part, then the release of whatever shadow maps are held. */
    method FinishCamera(ctx: RenderContext, camera: Camera)
      modifies this`shadowMap, this`cascadedShadowMap, cmd, ctx
      ensures cmd.commands == [] && shadowMap == None && cascadedShadowMap == None
      ensures State() == old(State()) && (old(Valid()) ==> Valid())
      ensures ctx.log == old(ctx.log) + CameraOps(camera, old(cmd.commands), enableDynamicBatching, enableInstancing)
                         + Releases(old(shadowMap), old(cascadedShadowMap))
      ensures ctx.nextTexture == old(ctx.nextTexture)
    {
      RenderCamera(ctx, camera);
      ReleaseShadowMaps(ctx);
    }

    /** The lights and shadow part of a camera with visible lights: the
        light arrays, the cascade pass when a main light was found (the
        cascade keywords are switched off otherwise) and the atlas pass. */
    method RenderLightsAndShadows(ctx: RenderContext, cull: CullingResults)
      requires Valid() && Idle() && |cull.visibleLights| > 0
      modifies this`mainLightIndex, this`shadowTileCount, this`shadowMap, this`cascadedShadowMap,
               visibleLightColors, visibleLightDirections, visibleLightAttenuations, visibleLightSpotDirections,
               shadowData, worldToShadowMatrices, worldToShadowCascadeMatrices, cascadeCullingSpheres,
               cmd, shadowCmd, ctx
      ensures Valid()
      ensures State() == LitState(Config(), old(State()), cull)
      ensures ctx.log == old(ctx.log) + ShadowOps(Config(), old(State()), cull, old(ctx.nextTexture))
      ensures cmd.commands == Resets(|cull.visibleLights|, mainLightIndex) && shadowCmd.commands == []
      ensures shadowMap == AtlasTexture(|cull.visibleLights|, mainLightIndex, old(ctx.nextTexture))
      ensures cascadedShadowMap == CascadeTexture(|cull.visibleLights|, mainLightIndex, old(ctx.nextTexture))
      ensures ctx.nextTexture == old(ctx.nextTexture) + TexturesTaken(true, |cull.visibleLights|, mainLightIndex)
    {
      ghost var s := State();
      ConfigureLights(ctx, cull);
      ghost var slots := Slots();
      assert old(cmd.commands) + LightArrayCommands()
          == LightArrayUpload(slots.colors, slots.directions, slots.attenuations, slots.spotDirections);
      RenderShadowMaps(ctx, cull, AtlasOf(Config(), cull, shadowData[..], mainLightIndex, shadowTileCount),
                       CascadeOf(Config(), cull));
      assert visibleLightColors[..] == slots.colors && visibleLightDirections[..] == slots.directions &&
             visibleLightAttenuations[..] == slots.attenuations && visibleLightSpotDirections[..] == slots.spotDirections;
      LitStepsCompose(Config(), s, cull, old(ctx.nextTexture), slots, cascadeCullingSpheres[..],
                      worldToShadowCascadeMatrices[..], shadowData[..], worldToShadowMatrices[..], old(ctx.log), ctx.log);
    }

    /** The two shadow passes of a camera with lights, after ConfigureLights:
        the cascade pass when there is a main light, otherwise the cascade
        keywords are switched off in the camera buffer; then the atlas pass. */
    method RenderShadowMaps(ctx: RenderContext, cull: CullingResults, ghost a: AtlasInput, ghost ci: CascadeInput)
      requires shadowData.Length == MaxVisibleLights && worldToShadowMatrices.Length == MaxVisibleLights
      requires cascadeCullingSpheres.Length == 4 && worldToShadowCascadeMatrices.Length == 5
      requires shadowData != cascadeCullingSpheres && worldToShadowMatrices != worldToShadowCascadeMatrices
      requires shadowMapSize > 0 && 0 <= shadowCascades <= 4 && cmd != shadowCmd && |cull.visibleLights| > 0
      requires a == AtlasOf(Config(), cull, shadowData[..], mainLightIndex, shadowTileCount) && ci == CascadeOf(Config(), cull)
      requires cmd.commands == [] && shadowCmd.commands == [] && shadowMap == None && cascadedShadowMap == None
      modifies this`shadowMap, this`cascadedShadowMap, shadowData, worldToShadowMatrices,
               worldToShadowCascadeMatrices, cascadeCullingSpheres, cmd, shadowCmd, ctx
      ensures worldToShadowCascadeMatrices[4] == old(worldToShadowCascadeMatrices[4])
      ensures mainLightIndex != -1 ==>
                cascadeCullingSpheres[..] == SpheresAfter(ci, shadowCascades, old(cascadeCullingSpheres[..])) &&
                worldToShadowCascadeMatrices[..] == CascadeMatricesAfter(ci, shadowCascades, old(worldToShadowCascadeMatrices[..]))
      ensures mainLightIndex == -1 ==>
                cascadeCullingSpheres[..] == old(cascadeCullingSpheres[..]) &&
                worldToShadowCascadeMatrices[..] == old(worldToShadowCascadeMatrices[..])
      ensures shadowData[..] == AtlasDataAfter(a, LightCount(a))
      ensures worldToShadowMatrices[..] == AtlasMatricesAfter(a, LightCount(a), old(worldToShadowMatrices[..]))
      ensures ctx.log == old(ctx.log)
                + (if mainLightIndex != -1
                   then CascadeFrame(ci, Texture(old(ctx.nextTexture)), cascadeCullingSpheres[..],
                                     worldToShadowCascadeMatrices[..], shadowMapSize)
                   else [])
                + AtlasFrame(a, shadowDistance, AtlasTexture(|cull.visibleLights|, mainLightIndex, old(ctx.nextTexture)).value,
                             worldToShadowMatrices[..], shadowData[..], shadowMapSize)
      ensures cmd.commands == Resets(|cull.visibleLights|, mainLightIndex) && shadowCmd.commands == []
      ensures shadowMap == AtlasTexture(|cull.visibleLights|, mainLightIndex, old(ctx.nextTexture))
      ensures cascadedShadowMap == CascadeTexture(|cull.visibleLights|, mainLightIndex, old(ctx.nextTexture))
      ensures ctx.nextTexture == old(ctx.nextTexture) + TexturesTaken(true, |cull.visibleLights|, mainLightIndex)
    {
      if mainLightIndex != -1 {
        RenderCascadedShadows(ctx, cull);
      } else {
        cmd.Add(SetKeyword(CascadedShadowsHard, false));
        cmd.Add(SetKeyword(CascadedShadowsSoft, false));
      }
      assert shadowData[..] == old(shadowData[..]) && worldToShadowMatrices[..] == old(worldToShadowMatrices[..]);
      ghost var spheres := cascadeCullingSpheres[..];
      ghost var cascadeMatrices := worldToShadowCascadeMatrices[..];
      RenderShadows(ctx, cull);
      assert cascadeCullingSpheres[..] == spheres && worldToShadowCascadeMatrices[..] == cascadeMatrices;
    }

    /** The camera part: camera properties, the clear (after any pending
        keyword resets), opaque renderers with the batching and instancing
        settings, the skybox for a Skybox camera, transparent renderers, and
        a last execution of the camera buffer. */
    method RenderCamera(ctx: RenderContext, camera: Camera)
      modifies cmd, ctx
      ensures cmd.commands == []
      ensures ctx.log == old(ctx.log) + CameraOps(camera, old(cmd.commands), enableDynamicBatching, enableInstancing)
      ensures ctx.nextTexture == old(ctx.nextTexture)
    {
      ctx.SetupCameraProperties();
      var clearFlags := camera.clearFlags;
      cmd.Add(ClearRenderTarget(ClearsDepth(clearFlags), ClearsColor(clearFlags), camera.backgroundColor));
      ctx.ExecuteCommandBuffer(cmd);
      cmd.Clear();
      ctx.DrawRenderers(OpaqueQueue, CommonOpaque, Some(enableDynamicBatching), Some(enableInstancing));
      if clearFlags == Skybox {
        ctx.DrawSkybox();
      }
      ctx.DrawRenderers(TransparentQueue, CommonTransparent, None, None);
      ctx.ExecuteCommandBuffer(cmd);
      cmd.Clear();
    }

    /** Gives back the atlas and then the cascade atlas, each if held. */
    method ReleaseShadowMaps(ctx: RenderContext)
      modifies this`shadowMap, this`cascadedShadowMap, ctx
      ensures shadowMap == None && cascadedShadowMap == None
      ensures ctx.log == old(ctx.log) + Releases(old(shadowMap), old(cascadedShadowMap))
      ensures ctx.nextTexture == old(ctx.nextTexture)
    {
      if shadowMap.Some? {
        ctx.ReleaseTemporary(shadowMap.value);
        shadowMap := None;
      }
      if cascadedShadowMap.Some? {
        ctx.ReleaseTemporary(cascadedShadowMap.value);
        cascadedShadowMap := None;
      }
    }

    /** The shadow vector of a light and its share of shadowTileCount: a light
        whose shadows are on and that has shadow casters counts one tile. */
    method ConfigureShadows(lightIndex: nat, shadowLight: Light, cull: CullingResults) returns (shadow: Vec4)
      modifies this`shadowTileCount
      ensures shadow == ShadowVector(shadowLight, cull.hasShadowCasterBounds(lightIndex))
      ensures shadowTileCount == old(shadowTileCount)
                + if CastsShadows(shadowLight, cull.hasShadowCasterBounds(lightIndex)) then 1 else 0
    {
      shadow := ZeroVector;
      if shadowLight.shadows != NoShadows && cull.hasShadowCasterBounds(lightIndex) {
        shadowTileCount := shadowTileCount + 1;
        shadow := shadow.(x := shadowLight.shadowStrength);
        shadow := shadow.(y := if shadowLight.shadows == Soft then 1.0 else 0.0);
      }
    }

    /** The loop body of ConfigureLights for visible light i: its colour,
        direction (or position), attenuation, shadow vector and, for a spot
        light, spot direction go into slot i and nowhere else; a
        directional light with shadows becomes the main light when there is
        none yet and then takes no atlas tile. */
    method ConfigureLight(i: nat, cull: CullingResults)
      requires Shape() && i < |cull.visibleLights| && i < MaxVisibleLights
      requires mainLightIndex == MainLightIndex(cull, i) && shadowTileCount == TileCountAfter(cull, i)
      modifies this`mainLightIndex, this`shadowTileCount, visibleLightColors, visibleLightDirections,
               visibleLightAttenuations, visibleLightSpotDirections, shadowData
      ensures mainLightIndex == MainLightIndex(cull, i + 1) && shadowTileCount == TileCountAfter(cull, i + 1)
      ensures Slots() == StoreLight(old(Slots()), cull, i)
    {
      var light := cull.visibleLights[i];
      visibleLightColors[i] := light.finalColor;
      var direction: Vec4;
      var spotDirection: Option<Vec4> := None;
      var attenuation := ZeroVector;
      attenuation := attenuation.(w := 1.0);
      var shadow := ZeroVector;
      if light.lightType == Directional {
        var v := Column(light.localToWorld, 2);
        v := v.(x := -v.x, y := -v.y, z := -v.z);
        v := v.(w := 0.0);
        direction := v;
        shadow := ConfigureShadows(i, light.light, cull);
        shadow := shadow.(z := 1.0);
        if shadow.x > 0.0 && mainLightIndex == -1 {
          mainLightIndex := i;
          shadowTileCount := shadowTileCount - 1;
        }
      } else {
        direction := Column(light.localToWorld, 3);
        attenuation := attenuation.(x := 1.0 / Max(light.range * light.range, 0.00001));
        if light.lightType == Spot {
          var v := Column(light.localToWorld, 2);
          v := v.(x := -v.x, y := -v.y, z := -v.z);
          spotDirection := Some(v);
          var angleRange := Max(light.innerCos - light.outerCos, 0.001);
          attenuation := attenuation.(z := 1.0 / angleRange);
          attenuation := attenuation.(w := -light.outerCos * attenuation.z);
          shadow := ConfigureShadows(i, light.light, cull);
        }
      }
      assert direction == LightDirectionOrPosition(light) && attenuation == LightAttenuation(light);
      assert shadow == ShadowDataOf(cull, i);
      assert spotDirection.Some? <==> light.lightType == Spot;
      assert spotDirection.Some? ==> spotDirection.value == SpotDirection(light);
      visibleLightDirections[i] := direction;
      if spotDirection.Some? {
        visibleLightSpotDirections[i] := spotDirection.value;
      }
      visibleLightAttenuations[i] := attenuation;
      shadowData[i] := shadow;
    }

    /** Fills the light arrays for the first (at most 16) visible lights,
        leaving every other slot as it was, picks the main light, counts the
        shadow tiles, and sends the four light arrays to the shaders. */
    method ConfigureLights(ctx: RenderContext, cull: CullingResults)
      requires Valid()
      modifies this`mainLightIndex, this`shadowTileCount, visibleLightColors, visibleLightDirections,
               visibleLightAttenuations, visibleLightSpotDirections, shadowData, cmd, ctx
      ensures Valid()
      ensures mainLightIndex == MainLightIndex(cull, SlotCount(cull))
      ensures shadowTileCount == ShadowTileCount(cull)
      ensures Slots() == SlotsAfter(cull, SlotCount(cull), old(Slots()))
      ensures cmd.commands == []
      ensures ctx.log == old(ctx.log) + [ExecuteCommandBuffer(old(cmd.commands) + LightArrayCommands())]
      ensures ctx.nextTexture == old(ctx.nextTexture)
    {
      mainLightIndex := -1;
      shadowTileCount := 0;
      var i := 0;
      while i < |cull.visibleLights|
        invariant 0 <= i <= |cull.visibleLights| && i <= MaxVisibleLights
        invariant mainLightIndex == MainLightIndex(cull, i)
        invariant shadowTileCount == TileCountAfter(cull, i)
        invariant Slots() == SlotsAfter(cull, i, old(Slots()))
        invariant cmd.commands == old(cmd.commands) && ctx.log == old(ctx.log) && ctx.nextTexture == old(ctx.nextTexture)
      {
        if i == MaxVisibleLights {
          break;
        }
        ConfigureLight(i, cull);
        i := i + 1;
      }
      assert i == SlotCount(cull);
      SendLightArrays(ctx);
    }

    /** Takes a temporary shadow map of the atlas size and records it as the
        render target in the buffer. */
    method SetShadowRenderTarget(ctx: RenderContext, buffer: CommandBuffer) returns (texture: Texture)
      modifies ctx, buffer
      ensures texture == Texture(old(ctx.nextTexture)) && ctx.nextTexture == old(ctx.nextTexture) + 1
      ensures ctx.log == old(ctx.log) + [GetTemporary(texture, shadowMapSize)]
      ensures buffer.commands == old(buffer.commands) + [Command.SetShadowRenderTarget(texture)]
    {
      texture := ctx.GetTemporary(shadowMapSize);
      buffer.Add(Command.SetShadowRenderTarget(texture));
    }

    /** Records the viewport and the inset scissor rectangle of tile
        tileIndex of a split x split grid, and returns the tile's grid cell. */
    method ConfigureShadowTile(buffer: CommandBuffer, tileIndex: nat, split: nat, tileSize: int)
      returns (tileOffset: TileOffset)
      requires split >= 1
      modifies buffer
      ensures tileOffset == Offset(tileIndex, split)
      ensures buffer.commands == old(buffer.commands)
                + [SetViewport(TileViewport(tileOffset, tileSize)),
                   EnableScissorRect(TileScissor(TileViewport(tileOffset, tileSize), tileSize))]
    {
      tileOffset := TileOffset(tileIndex % split, tileIndex / split);
      var tileViewport := Rect(tileOffset.x * tileSize, tileOffset.y * tileSize, tileSize, tileSize);
      buffer.Add(SetViewport(tileViewport));
      buffer.Add(EnableScissorRect(Rect(tileViewport.x + 4, tileViewport.y + 4, tileSize - 8, tileSize - 8)));
    }

    /** The world-to-shadow matrix of a view and projection. On a reversed
        depth buffer the projection's z row is negated first; the negated
        projection is handed back, as the source's by-reference parameter is. */
    method CalculateWorldToShadowMatrix(view: Mat4, projection: Mat4) returns (corrected: Mat4, worldToShadow: Mat4)
      ensures forall r: nat, c: nat :: r < 4 && c < 4 ==>
                Entry(corrected, r, c) == if reversedZ && r == 2 then -Entry(projection, r, c) else Entry(projection, r, c)
      ensures corrected == CorrectedProjection(projection, reversedZ)
      ensures worldToShadow == Mul(ScaleOffset(), Mul(corrected, view))
    {
      corrected := projection;
      if reversedZ {
        corrected := corrected.(row2 := corrected.row2.(x := -corrected.row2.x));
        corrected := corrected.(row2 := corrected.row2.(y := -corrected.row2.y));
        corrected := corrected.(row2 := corrected.row2.(z := -corrected.row2.z));
        corrected := corrected.(row2 := corrected.row2.(w := -corrected.row2.w));
      }
      var scaleOffset := Identity;
      scaleOffset := scaleOffset.(row0 := scaleOffset.row0.(x := 0.5), row1 := scaleOffset.row1.(y := 0.5),
                                  row2 := scaleOffset.row2.(z := 0.5));
      scaleOffset := scaleOffset.(row0 := scaleOffset.row0.(w := 0.5), row1 := scaleOffset.row1.(w := 0.5),
                                  row2 := scaleOffset.row2.(w := 0.5));
      worldToShadow := Mul(scaleOffset, Mul(corrected, view));
    }

    /** The cascade pass for visible light 0: takes the cascade atlas,
        renders each cascade into its quadrant, stores the squared culling
        spheres and the tile-adjusted world-to-shadow matrices (slot 4 keeps
        its sentinel), and publishes them with the cascade keywords. */
    method RenderCascadedShadows(ctx: RenderContext, cull: CullingResults)
      requires cascadeCullingSpheres.Length == 4 && worldToShadowCascadeMatrices.Length == 5
      requires shadowMapSize > 0 && 0 <= shadowCascades <= 4
      requires |cull.visibleLights| > 0 && shadowCmd.commands == []
      modifies this`cascadedShadowMap, worldToShadowCascadeMatrices, cascadeCullingSpheres, shadowCmd, ctx
      ensures worldToShadowCascadeMatrices[4] == old(worldToShadowCascadeMatrices[4])
      ensures cascadedShadowMap == Some(Texture(old(ctx.nextTexture)))
      ensures ctx.nextTexture == old(ctx.nextTexture) + 1
      ensures cascadeCullingSpheres[..] == SpheresAfter(CascadeOf(Config(), cull), shadowCascades, old(cascadeCullingSpheres[..]))
      ensures worldToShadowCascadeMatrices[..]
                == CascadeMatricesAfter(CascadeOf(Config(), cull), shadowCascades, old(worldToShadowCascadeMatrices[..]))
      ensures ctx.log == old(ctx.log) + CascadeFrame(CascadeOf(Config(), cull), Texture(old(ctx.nextTexture)),
                                                     cascadeCullingSpheres[..], worldToShadowCascadeMatrices[..],
                                                     shadowMapSize)
      ensures shadowCmd.commands == []
    {
      ghost var a := CascadeOf(Config(), cull);
      var tileSize := shadowMapSize / 2;
      var texture := BeginCascades(ctx, cull);
      cascadedShadowMap := Some(texture);
      RenderCascadeTiles(ctx, cull, tileSize, a);
      CascadeSlotsAfterEntries(a, shadowCascades, old(cascadeCullingSpheres[..]), old(worldToShadowCascadeMatrices[..]), 4);
      PublishCascades(ctx, cull, texture);
      assert ctx.log == old(ctx.log) + CascadeFrame(a, texture, cascadeCullingSpheres[..],
                                                    worldToShadowCascadeMatrices[..], shadowMapSize);
    }

    /** The cascade loop of RenderCascadedShadows: cascade i goes into
        quadrant i of the 2 x 2 grid; the tile matrix starts as a half-scale
        identity and only its offsets change. With no cascades the bias
        stays in the buffer. */
    method RenderCascadeTiles(ctx: RenderContext, cull: CullingResults, tileSize: int, ghost a: CascadeInput)
      requires cascadeCullingSpheres.Length == 4 && worldToShadowCascadeMatrices.Length == 5
      requires a.cull == cull && a.cascades == shadowCascades && a.split == shadowCascadeSplit
      requires a.tileSize == tileSize && a.reversedZ == reversedZ
      requires |cull.visibleLights| > 0 && 0 <= shadowCascades <= 4
      requires shadowCmd.commands == [BiasCommand(a)]
      modifies worldToShadowCascadeMatrices, cascadeCullingSpheres, shadowCmd, ctx
      ensures cascadeCullingSpheres[..] == SpheresAfter(a, shadowCascades, old(cascadeCullingSpheres[..]))
      ensures worldToShadowCascadeMatrices[..] == CascadeMatricesAfter(a, shadowCascades, old(worldToShadowCascadeMatrices[..]))
      ensures shadowCmd.commands == CascadeLeftover(a)
      ensures ctx.log == old(ctx.log) + CascadeOps(a, shadowCascades)
      ensures ctx.nextTexture == old(ctx.nextTexture)
    {
      var tileMatrix := Identity;
      tileMatrix := tileMatrix.(row0 := tileMatrix.row0.(x := 0.5), row1 := tileMatrix.row1.(y := 0.5));
      var i := 0;
      while i < shadowCascades
        invariant 0 <= i <= shadowCascades
        invariant cascadeCullingSpheres[..] == SpheresAfter(a, i, old(cascadeCullingSpheres[..]))
        invariant worldToShadowCascadeMatrices[..] == CascadeMatricesAfter(a, i, old(worldToShadowCascadeMatrices[..]))
        invariant shadowCmd.commands == if i == 0 then [BiasCommand(a)] else []
        invariant ctx.log == old(ctx.log) + CascadeOps(a, i)
        invariant ctx.nextTexture == old(ctx.nextTexture)
        invariant tileMatrix == TileMatrix(tileMatrix.row0.w, tileMatrix.row1.w)
      {
        tileMatrix := RenderCascade(ctx, cull, i, tileSize, tileMatrix, a);
        i := i + 1;
      }
    }

    /** The start of RenderCascadedShadows: the cascade atlas is taken and
        set as render target, the buffer is executed and cleared, and light
        0's shadow bias is recorded for the first cascade. */
    method BeginCascades(ctx: RenderContext, cull: CullingResults) returns (texture: Texture)
      requires 0 <= shadowCascades <= 4 && |cull.visibleLights| > 0 && shadowCmd.commands == []
      modifies shadowCmd, ctx
      ensures texture == Texture(old(ctx.nextTexture)) && ctx.nextTexture == old(ctx.nextTexture) + 1
      ensures ctx.log == old(ctx.log) + [GetTemporary(texture, shadowMapSize),
                                         ExecuteCommandBuffer([Command.SetShadowRenderTarget(texture)])]
      ensures shadowCmd.commands == [BiasCommand(CascadeOf(Config(), cull))]
    {
      texture := SetShadowRenderTarget(ctx, shadowCmd);
      assert shadowCmd.commands == [Command.SetShadowRenderTarget(texture)];
      ctx.ExecuteCommandBuffer(shadowCmd);
      shadowCmd.Clear();
      var shadowLight := cull.visibleLights[0].light;
      shadowCmd.Add(SetGlobalFloat(ShadowBiasProp, shadowLight.shadowBias));
    }

    /** One cascade of the loop in RenderCascadedShadows: the oracle's view,
        projection and split data for cascade i of light 0, the quadrant's
        viewport and scissor, the draw, and slot i of the culling spheres and
        the cascade matrices. The tile matrix keeps its scale and gets the
        quadrant's offset. */
    method RenderCascade(ctx: RenderContext, cull: CullingResults, i: nat, tileSize: int, tileMatrix: Mat4,
                         ghost a: CascadeInput)
      returns (next: Mat4)
      requires cascadeCullingSpheres.Length == 4 && worldToShadowCascadeMatrices.Length == 5
      requires a.cull == cull && a.cascades == shadowCascades && a.split == shadowCascadeSplit
      requires a.tileSize == tileSize && a.reversedZ == reversedZ
      requires |cull.visibleLights| > 0 && 0 <= i < shadowCascades <= 4
      requires shadowCmd.commands == if i == 0 then [BiasCommand(a)] else []
      requires tileMatrix == TileMatrix(tileMatrix.row0.w, tileMatrix.row1.w)
      modifies worldToShadowCascadeMatrices, cascadeCullingSpheres, shadowCmd, ctx
      ensures next == TileMatrix(CascadeTile(i).x as real * 0.5, CascadeTile(i).y as real * 0.5)
      ensures cascadeCullingSpheres[..] == old(cascadeCullingSpheres[..])[i := CascadeSphere(a, i)]
      ensures worldToShadowCascadeMatrices[..] == old(worldToShadowCascadeMatrices[..])[i := CascadeMatrix(a, i)]
      ensures shadowCmd.commands == []
      ensures ctx.log == old(ctx.log) + [ExecuteCommandBuffer(CascadeCommands(a, i)),
                                         DrawShadows(0, CascadeResult(a, i).splitData)]
      ensures ctx.nextTexture == old(ctx.nextTexture)
    {
      var shadowLight := cull.visibleLights[0].light;
      var result := cull.directionalShadowMatrices(
        DirectionalRequest(0, i, shadowCascades, shadowCascadeSplit, tileSize, shadowLight.shadowNearPlane));
      assert result == CascadeResult(a, i);
      var tileOffset := ConfigureShadowTile(shadowCmd, i, 2, tileSize);
      shadowCmd.Add(SetViewProjectionMatrices(result.view, result.projection));
      assert shadowCmd.commands == CascadeCommands(a, i);
      ctx.ExecuteCommandBuffer(shadowCmd);
      shadowCmd.Clear();
      StoreCascadeSphere(i, result, a);
      ctx.DrawShadows(0, result.splitData);
      next := StoreCascadeMatrix(i, result, tileMatrix, tileOffset, a);
    }

    /** Slot i of the culling spheres takes the oracle's sphere, whose
        radius is then multiplied by itself. */
    method StoreCascadeSphere(i: nat, result: ShadowResult, ghost a: CascadeInput)
      requires cascadeCullingSpheres.Length == 4 && i < 4
      requires CascadeWellFormed(a) && result == CascadeResult(a, i)
      modifies cascadeCullingSpheres
      ensures cascadeCullingSpheres[..] == old(cascadeCullingSpheres[..])[i := CascadeSphere(a, i)]
    {
      cascadeCullingSpheres[i] := result.splitData.cullingSphere;
      cascadeCullingSpheres[i] := cascadeCullingSpheres[i].(w := cascadeCullingSpheres[i].w * result.splitData.cullingSphere.w);
      assert cascadeCullingSpheres[i] == CascadeSphere(a, i);
    }

    /** Slot i of the cascade matrices takes the clip-to-texture matrix of
        the oracle's view and projection, pre-multiplied by the tile matrix
        moved to the quadrant's offset, which is also returned. */
    method StoreCascadeMatrix(i: nat, result: ShadowResult, tileMatrix: Mat4, tileOffset: TileOffset,
                              ghost a: CascadeInput)
      returns (next: Mat4)
      requires worldToShadowCascadeMatrices.Length == 5 && i < 4
      requires CascadeWellFormed(a) && a.reversedZ == reversedZ
      requires result == CascadeResult(a, i) && tileOffset == CascadeTile(i)
      requires tileMatrix == TileMatrix(tileMatrix.row0.w, tileMatrix.row1.w)
      modifies worldToShadowCascadeMatrices
      ensures next == TileMatrix(tileOffset.x as real * 0.5, tileOffset.y as real * 0.5)
      ensures worldToShadowCascadeMatrices[..] == old(worldToShadowCascadeMatrices[..])[i := CascadeMatrix(a, i)]
    {
      var corrected, worldToShadow := CalculateWorldToShadowMatrix(result.view, result.projection);
      worldToShadowCascadeMatrices[i] := worldToShadow;
      next := tileMatrix.(row0 := tileMatrix.row0.(w := tileOffset.x as real * 0.5));
      next := next.(row1 := next.row1.(w := tileOffset.y as real * 0.5));
      worldToShadowCascadeMatrices[i] := Mul(next, worldToShadowCascadeMatrices[i]);
      assert worldToShadowCascadeMatrices[i] == CascadeMatrix(a, i);
    }

    /** The end of RenderCascadedShadows: the scissor is switched off and the
        cascade atlas, the culling spheres, the cascade matrices, the atlas
        size, light 0's strength and the hard/soft cascade keywords are sent
        to the shaders. */
    method PublishCascades(ctx: RenderContext, cull: CullingResults, texture: Texture)
      requires shadowMapSize > 0 && 0 <= shadowCascades <= 4 && |cull.visibleLights| > 0
      modifies shadowCmd, ctx
      ensures shadowCmd.commands == []
      ensures ctx.log == old(ctx.log) + [ExecuteCommandBuffer(old(shadowCmd.commands)
                + CascadePublish(CascadeOf(Config(), cull), texture, cascadeCullingSpheres[..],
                                 worldToShadowCascadeMatrices[..], shadowMapSize))]
      ensures ctx.nextTexture == old(ctx.nextTexture)
    {
      var shadowLight := cull.visibleLights[0].light;
      shadowCmd.Add(DisableScissorRect);
      shadowCmd.Add(SetGlobalTexture(CascadedShadowMapProp, texture));
      shadowCmd.Add(SetGlobalVectorArray(CascadeCullingSpheresProp, cascadeCullingSpheres[..]));
      shadowCmd.Add(SetGlobalMatrixArray(WorldToShadowCascadeMatricesProp, worldToShadowCascadeMatrices[..]));
      shadowCmd.Add(SetGlobalVector(CascadedShadowMapSizeProp, AtlasSizeVector(shadowMapSize)));
      shadowCmd.Add(SetGlobalFloat(CascadedShadowStrengthProp, shadowLight.shadowStrength));
      var hard := shadowLight.shadows == Hard;
      shadowCmd.Add(SetKeyword(CascadedShadowsHard, hard));
      shadowCmd.Add(SetKeyword(CascadedShadowsSoft, !hard));
      assert shadowCmd.commands == old(shadowCmd.commands)
               + CascadePublish(CascadeOf(Config(), cull), texture, cascadeCullingSpheres[..],
                                worldToShadowCascadeMatrices[..], shadowMapSize);
      ctx.ExecuteCommandBuffer(shadowCmd);
      shadowCmd.Clear();
    }

    /** The atlas pass: picks the split factor from the tile count, takes the
        atlas, renders every light that gets a tile (all but the main light,
        those with positive strength and valid matrices) and publishes the
        shadow data and matrices. */
    method RenderShadows(ctx: RenderContext, cull: CullingResults)
      requires shadowData.Length == MaxVisibleLights && worldToShadowMatrices.Length == MaxVisibleLights
      requires shadowMapSize > 0 && |cull.visibleLights| > 0 && shadowCmd.commands == []
      modifies this`shadowMap, shadowData, worldToShadowMatrices, shadowCmd, ctx
      ensures shadowMap == Some(Texture(old(ctx.nextTexture)))
      ensures ctx.nextTexture == old(ctx.nextTexture) + 1
      ensures var a := AtlasOf(Config(), cull, old(shadowData[..]), mainLightIndex, shadowTileCount);
              shadowData[..] == AtlasDataAfter(a, LightCount(a)) &&
              worldToShadowMatrices[..] == AtlasMatricesAfter(a, LightCount(a), old(worldToShadowMatrices[..])) &&
              ctx.log == old(ctx.log) + AtlasFrame(a, shadowDistance, Texture(old(ctx.nextTexture)),
                                                   worldToShadowMatrices[..], shadowData[..], shadowMapSize)
      ensures shadowCmd.commands == []
    {
      var split: nat;
      if shadowTileCount <= 1 {
        split := 1;
      } else if shadowTileCount <= 4 {
        split := 2;
      } else if shadowTileCount <= 9 {
        split := 3;
      } else {
        split := 4;
      }
      assert split == SplitFor(shadowTileCount);
      var tileSize := shadowMapSize / split;
      var tileScale := 1.0 / split as real;
      var tileViewport := Rect(0, 0, tileSize, tileSize);
      ghost var a := AtlasOf(Config(), cull, shadowData[..], mainLightIndex, shadowTileCount);
      var texture := BeginAtlas(ctx, split, tileScale);
      shadowMap := Some(texture);
      RenderAtlasTiles(ctx, cull, split, tileSize, tileScale, tileViewport, a);
      ghost var log1 := ctx.log;
      assert shadowCmd.commands == [];
      PublishAtlas(ctx, cull, texture);
      assert [] + AtlasPublish(cull, texture, worldToShadowMatrices[..], shadowData[..], shadowMapSize)
             == AtlasPublish(cull, texture, worldToShadowMatrices[..], shadowData[..], shadowMapSize);
      assert ctx.log == log1 + [ExecuteCommandBuffer(AtlasPublish(cull, texture, worldToShadowMatrices[..],
                                                                  shadowData[..], shadowMapSize))];
      assert ctx.log == old(ctx.log) + AtlasFrame(a, shadowDistance, texture, worldToShadowMatrices[..],
                                                  shadowData[..], shadowMapSize);
    }

    /** The light loop of RenderShadows: lights are visited in order, at
        most MaxVisibleLights of them, and the tile index counts the tiles
        taken so far. */
    method RenderAtlasTiles(ctx: RenderContext, cull: CullingResults, split: nat, tileSize: int,
                            tileScale: real, tileViewport: Rect, ghost a: AtlasInput)
      requires shadowData.Length == MaxVisibleLights && worldToShadowMatrices.Length == MaxVisibleLights
      requires WellFormed(a) && a.cull == cull && a.mainLightIndex == mainLightIndex && a.shadowData == shadowData[..]
      requires a.split == split && a.tileSize == tileSize && tileScale == TileScale(split)
      requires tileViewport == OriginViewport(tileSize) && shadowCmd.commands == []
      modifies shadowData, worldToShadowMatrices, shadowCmd, ctx
      ensures shadowData[..] == AtlasDataAfter(a, LightCount(a))
      ensures worldToShadowMatrices[..] == AtlasMatricesAfter(a, LightCount(a), old(worldToShadowMatrices[..]))
      ensures ctx.log == old(ctx.log) + AtlasOps(a, LightCount(a))
      ensures shadowCmd.commands == [] && ctx.nextTexture == old(ctx.nextTexture)
    {
      var tileIndex := 0;
      var i := 0;
      while i < |cull.visibleLights|
        invariant 0 <= i <= LightCount(a)
        invariant tileIndex == TilesBefore(a, i)
        invariant shadowData[..] == AtlasDataAfter(a, i)
        invariant worldToShadowMatrices[..] == AtlasMatricesAfter(a, i, old(worldToShadowMatrices[..]))
        invariant ctx.log == old(ctx.log) + AtlasOps(a, i)
        invariant shadowCmd.commands == [] && ctx.nextTexture == old(ctx.nextTexture)
      {
        if i == MaxVisibleLights {
          break;
        }
        AtlasSlotsAfterEntries(a, i, old(worldToShadowMatrices[..]), i);
        tileIndex := RenderShadowTile(ctx, cull, i, tileIndex, split, tileSize, tileScale, tileViewport, a);
        i := i + 1;
      }
      assert i == LightCount(a);
    }

    /** The start of RenderShadows: the global shadow data (tile scale and
        squared shadow distance) and the render target are recorded and
        executed. */
    method BeginAtlas(ctx: RenderContext, split: nat, tileScale: real) returns (texture: Texture)
      requires split >= 1 && tileScale == TileScale(split) && shadowCmd.commands == []
      modifies shadowCmd, ctx
      ensures texture == Texture(old(ctx.nextTexture)) && ctx.nextTexture == old(ctx.nextTexture) + 1
      ensures ctx.log == old(ctx.log) + [GetTemporary(texture, shadowMapSize),
                                         ExecuteCommandBuffer(AtlasSetup(split, shadowDistance, texture))]
      ensures shadowCmd.commands == []
    {
      shadowCmd.Add(SetGlobalVector(GlobalShadowDataProp, Vec4(tileScale, shadowDistance * shadowDistance, 0.0, 0.0)));
      texture := SetShadowRenderTarget(ctx, shadowCmd);
      assert shadowCmd.commands == AtlasSetup(split, shadowDistance, texture);
      ctx.ExecuteCommandBuffer(shadowCmd);
      shadowCmd.Clear();
    }

    /** One pass of the loop in RenderShadows, for visible light i: the main
        light and lights without shadow strength are skipped, the others are
        rendered by RenderAttemptedLight. Only slot i of the arrays changes. */
    method RenderShadowTile(ctx: RenderContext, cull: CullingResults, i: nat, tileIndex: nat, split: nat,
                            tileSize: int, tileScale: real, tileViewport: Rect, ghost a: AtlasInput)
      returns (nextTileIndex: nat)
      requires shadowData.Length == MaxVisibleLights && worldToShadowMatrices.Length == MaxVisibleLights
      requires WellFormed(a) && a.cull == cull && a.mainLightIndex == mainLightIndex
      requires a.split == split && a.tileSize == tileSize && tileScale == TileScale(split)
      requires tileViewport == OriginViewport(tileSize)
      requires i < LightCount(a) && shadowData[i] == a.shadowData[i] && tileIndex == TilesBefore(a, i)
      requires shadowCmd.commands == []
      modifies shadowData, worldToShadowMatrices, shadowCmd, ctx
      ensures nextTileIndex == TilesBefore(a, i + 1)
      ensures shadowData[..] == old(shadowData[..])[i := RenderedShadowData(a, i)]
      ensures worldToShadowMatrices[..]
                == old(worldToShadowMatrices[..])[i := RenderedMatrix(a, i, old(worldToShadowMatrices[i]))]
      ensures ctx.log == old(ctx.log) + (if GetsTile(a, i) then TileOps(a, i) else [])
      ensures shadowCmd.commands == [] && ctx.nextTexture == old(ctx.nextTexture)
    {
      if mainLightIndex == i || shadowData[i].x <= 0.0 {
        SkipStepEffects(a, i, old(worldToShadowMatrices[i]));
        assert shadowData[..] == old(shadowData[..])[i := RenderedShadowData(a, i)];
        assert worldToShadowMatrices[..]
                 == old(worldToShadowMatrices[..])[i := RenderedMatrix(a, i, old(worldToShadowMatrices[i]))];
        return tileIndex;
      }
      nextTileIndex := RenderAttemptedLight(ctx, cull, i, tileIndex, split, tileSize, tileScale, tileViewport, a);
      assert shadowData[..] == old(shadowData[..])[i := RenderedShadowData(a, i)];
      assert worldToShadowMatrices[..]
               == old(worldToShadowMatrices[..])[i := RenderedMatrix(a, i, old(worldToShadowMatrices[i]))];
    }

    /** The rest of the loop body for an attempted light i: the oracle is
        asked for matrices (directional or spot, as the shadow data's z
        says); a light whose matrices are invalid gets its strength zeroed,
        the others take the next tile. */
    method RenderAttemptedLight(ctx: RenderContext, cull: CullingResults, i: nat, tileIndex: nat, split: nat,
                                tileSize: int, tileScale: real, tileViewport: Rect, ghost a: AtlasInput)
      returns (nextTileIndex: nat)
      requires shadowData.Length == MaxVisibleLights && worldToShadowMatrices.Length == MaxVisibleLights
      requires WellFormed(a) && a.cull == cull && a.mainLightIndex == mainLightIndex
      requires a.split == split && a.tileSize == tileSize && tileScale == TileScale(split)
      requires tileViewport == OriginViewport(tileSize)
      requires i < LightCount(a) && shadowData[i] == a.shadowData[i] && tileIndex == TilesBefore(a, i)
      requires Attempted(a, i) && shadowCmd.commands == []
      modifies shadowData, worldToShadowMatrices, shadowCmd, ctx
      ensures nextTileIndex == TilesBefore(a, i + 1)
      ensures shadowData[i] == RenderedShadowData(a, i)
      ensures worldToShadowMatrices[i] == RenderedMatrix(a, i, old(worldToShadowMatrices[i]))
      ensures forall j :: 0 <= j < MaxVisibleLights && j != i ==>
                shadowData[j] == old(shadowData[j]) && worldToShadowMatrices[j] == old(worldToShadowMatrices[j])
      ensures ctx.log == old(ctx.log) + (if GetsTile(a, i) then TileOps(a, i) else [])
      ensures shadowCmd.commands == [] && ctx.nextTexture == old(ctx.nextTexture)
    {
      var result := QueryShadowMatrices(cull, i, shadowData[i], tileSize);
      assert result == ShadowMatricesFor(a, i);
      if !result.valid {
        SkipStepEffects(a, i, old(worldToShadowMatrices[i]));
        shadowData[i] := shadowData[i].(x := 0.0);
        return tileIndex;
      }
      nextTileIndex := RenderGrantedTile(ctx, i, tileIndex, split, tileSize, tileScale, tileViewport, a, result);
    }

    /** The tile of an attempted light i whose matrices are valid. */
    method RenderGrantedTile(ctx: RenderContext, i: nat, tileIndex: nat, split: nat, tileSize: int,
                             tileScale: real, tileViewport: Rect, ghost a: AtlasInput, result: ShadowResult)
      returns (nextTileIndex: nat)
      requires shadowData.Length == MaxVisibleLights && worldToShadowMatrices.Length == MaxVisibleLights
      requires WellFormed(a) && a.split == split && a.tileSize == tileSize && tileScale == TileScale(split)
      requires tileViewport == OriginViewport(tileSize)
      requires i < LightCount(a) && shadowData[i] == a.shadowData[i] && tileIndex == TilesBefore(a, i)
      requires GetsTile(a, i) && result == ShadowMatricesFor(a, i) && shadowCmd.commands == []
      modifies shadowData, worldToShadowMatrices, shadowCmd, ctx
      ensures nextTileIndex == TilesBefore(a, i + 1)
      ensures shadowData[i] == RenderedShadowData(a, i)
      ensures worldToShadowMatrices[i] == RenderedMatrix(a, i, old(worldToShadowMatrices[i]))
      ensures forall j :: 0 <= j < MaxVisibleLights && j != i ==>
                shadowData[j] == old(shadowData[j]) && worldToShadowMatrices[j] == old(worldToShadowMatrices[j])
      ensures ctx.log == old(ctx.log) + TileOps(a, i)
      ensures shadowCmd.commands == [] && ctx.nextTexture == old(ctx.nextTexture)
    {
      TileStepEffects(a, i, old(worldToShadowMatrices[i]));
      ghost var o := Offset(tileIndex, split);
      assert TileOf(a, i) == o;
      DrawShadowTile(ctx, i, tileIndex, split, tileSize, tileScale, tileViewport, result);
      nextTileIndex := tileIndex + 1;
    }

    /** The oracle query of the loop in RenderShadows: a light whose shadow
        data has z > 0 (a directional light) asks for one cascade of a
        directional shadow at the tile resolution, every other light for a
        spot shadow. */
    method QueryShadowMatrices(cull: CullingResults, i: nat, data: Vec4, tileSize: int) returns (result: ShadowResult)
      requires i < |cull.visibleLights|
      ensures data.z > 0.0 ==> result == cull.directionalShadowMatrices(
                DirectionalRequest(i, 0, 1, Right, tileSize, cull.visibleLights[i].light.shadowNearPlane))
      ensures data.z <= 0.0 ==> result == cull.spotShadowMatrices(i)
    {
      if data.z > 0.0 {
        result := cull.directionalShadowMatrices(
          DirectionalRequest(i, 0, 1, Right, tileSize, cull.visibleLights[i].light.shadowNearPlane));
      } else {
        result := cull.spotShadowMatrices(i);
      }
    }

    /** The tile part of the loop in RenderShadows for light i taking tile
        tileIndex: the tile's offset times the tile scale goes into z and w
        of the light's shadow data, the commands set the tile's viewport and
        scissor and then the origin tile's (tileViewport is never moved),
        the shadow casters are drawn, and the light's world-to-shadow matrix
        is stored. */
    method DrawShadowTile(ctx: RenderContext, i: nat, tileIndex: nat, split: nat, tileSize: int,
                          tileScale: real, tileViewport: Rect, result: ShadowResult)
      requires shadowData.Length == MaxVisibleLights && worldToShadowMatrices.Length == MaxVisibleLights
      requires i < MaxVisibleLights && split >= 1 && shadowCmd.commands == []
      modifies shadowData, worldToShadowMatrices, shadowCmd, ctx
      ensures shadowData[i] == TileData(old(shadowData[i]), Offset(tileIndex, split), tileScale)
      ensures worldToShadowMatrices[i] == WorldToShadow(result.view, result.projection)
      ensures forall j :: 0 <= j < MaxVisibleLights && j != i ==>
                shadowData[j] == old(shadowData[j]) && worldToShadowMatrices[j] == old(worldToShadowMatrices[j])
      ensures var viewport := TileViewport(Offset(tileIndex, split), tileSize);
              ctx.log == old(ctx.log)
                + [ExecuteCommandBuffer([SetViewport(viewport), EnableScissorRect(TileScissor(viewport, tileSize)),
                                         SetViewport(tileViewport),
                                         EnableScissorRect(TileScissor(tileViewport, tileSize)),
                                         SetViewProjectionMatrices(result.view, result.projection)]),
                   DrawShadows(i, result.splitData)]
      ensures shadowCmd.commands == [] && ctx.nextTexture == old(ctx.nextTexture)
    {
      var tileOffset := ConfigureShadowTile(shadowCmd, tileIndex, split, tileSize);
      shadowData[i] := shadowData[i].(z := tileOffset.x as real * tileScale);
      shadowData[i] := shadowData[i].(w := tileOffset.y as real * tileScale);
      ghost var stored := TileData(old(shadowData[i]), tileOffset, tileScale);
      assert shadowData[i] == stored;
      assert forall j :: 0 <= j < MaxVisibleLights && j != i ==> shadowData[j] == old(shadowData[j]);
      shadowCmd.Add(SetViewport(tileViewport));
      shadowCmd.Add(EnableScissorRect(Rect(tileViewport.x + 4, tileViewport.y + 4, tileSize - 8, tileSize - 8)));
      shadowCmd.Add(SetViewProjectionMatrices(result.view, result.projection));
      ghost var viewport := TileViewport(tileOffset, tileSize);
      assert shadowCmd.commands == [SetViewport(viewport), EnableScissorRect(TileScissor(viewport, tileSize)),
                                    SetViewport(tileViewport), EnableScissorRect(TileScissor(tileViewport, tileSize)),
                                    SetViewProjectionMatrices(result.view, result.projection)];
      ctx.ExecuteCommandBuffer(shadowCmd);
      shadowCmd.Clear();
      ctx.DrawShadows(i, result.splitData);
      StoreShadowMatrix(i, result.view, result.projection);
      assert tileOffset == Offset(tileIndex, split);
    }

    /** The last step of the loop in RenderShadows: on a reversed depth
        buffer the projection's z row is negated in place, and
        CalculateWorldToShadowMatrix, which negates it again, stores the
        light's world-to-shadow matrix; the two negations cancel. */
    method StoreShadowMatrix(i: nat, view: Mat4, projection: Mat4)
      requires i < worldToShadowMatrices.Length
      modifies worldToShadowMatrices
      ensures worldToShadowMatrices[i] == WorldToShadow(view, projection)
      ensures forall j :: 0 <= j < worldToShadowMatrices.Length && j != i ==>
                worldToShadowMatrices[j] == old(worldToShadowMatrices[j])
    {
      var negated := projection;
      if reversedZ {
        negated := negated.(row2 := negated.row2.(x := -negated.row2.x));
        negated := negated.(row2 := negated.row2.(y := -negated.row2.y));
        negated := negated.(row2 := negated.row2.(z := -negated.row2.z));
        negated := negated.(row2 := negated.row2.(w := -negated.row2.w));
      }
      assert negated == CorrectedProjection(projection, reversedZ);
      CorrectionCancels(projection, reversedZ);
      var corrected, worldToShadow := CalculateWorldToShadowMatrix(view, negated);
      worldToShadowMatrices[i] := worldToShadow;
    }

    /** The end of RenderShadows: the scissor is switched off and the atlas,
        the world-to-shadow matrices, light 0's bias, the shadow data, the
        atlas size and light 0's soft-shadow keyword are sent to the shaders. */
    method PublishAtlas(ctx: RenderContext, cull: CullingResults, texture: Texture)
      requires shadowMapSize > 0 && |cull.visibleLights| > 0
      modifies shadowCmd, ctx
      ensures shadowCmd.commands == []
      ensures ctx.log == old(ctx.log) + [ExecuteCommandBuffer(old(shadowCmd.commands)
                + AtlasPublish(cull, texture, worldToShadowMatrices[..], shadowData[..], shadowMapSize))]
      ensures ctx.nextTexture == old(ctx.nextTexture)
    {
      shadowCmd.Add(DisableScissorRect);
      shadowCmd.Add(SetGlobalTexture(ShadowMapProp, texture));
      shadowCmd.Add(SetGlobalMatrixArray(WorldToShadowMatricesProp, worldToShadowMatrices[..]));
      shadowCmd.Add(SetGlobalFloat(ShadowBiasProp, cull.visibleLights[0].light.shadowBias));
      shadowCmd.Add(SetGlobalVectorArray(ShadowDataProp, shadowData[..]));
      shadowCmd.Add(SetGlobalVector(ShadowMapSizeProp, AtlasSizeVector(shadowMapSize)));
      shadowCmd.Add(SetKeyword(ShadowsSoft, cull.visibleLights[0].light.shadows == Soft));
      assert shadowCmd.commands == old(shadowCmd.commands)
               + AtlasPublish(cull, texture, worldToShadowMatrices[..], shadowData[..], shadowMapSize);
      ctx.ExecuteCommandBuffer(shadowCmd);
      shadowCmd.Clear();
    }

    /** The end of ConfigureLights: the four light arrays are copied into the
        camera buffer, which is executed and cleared. */
    method SendLightArrays(ctx: RenderContext)
      modifies cmd, ctx
      ensures cmd.commands == []
      ensures ctx.log == old(ctx.log) + [ExecuteCommandBuffer(old(cmd.commands) + LightArrayCommands())]
      ensures ctx.nextTexture == old(ctx.nextTexture)
    {
      cmd.Add(SetGlobalVectorArray(VisibleLightColorsProp, visibleLightColors[..]));
      cmd.Add(SetGlobalVectorArray(VisibleLightDirectionsOrPositionsProp, visibleLightDirections[..]));
      cmd.Add(SetGlobalVectorArray(VisibleLightAttenuationsProp, visibleLightAttenuations[..]));
      cmd.Add(SetGlobalVectorArray(VisibleLightSpotDirectionsProp, visibleLightSpotDirections[..]));
      assert cmd.commands == old(cmd.commands) + LightArrayCommands();
      ctx.ExecuteCommandBuffer(cmd);
      cmd.Clear();
    }
  }
}
