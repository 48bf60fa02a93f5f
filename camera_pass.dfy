/** The camera part of BasePipeline.Render, after the shadow passes: the
    keyword resets left pending when shadows are skipped, the clear, the
    opaque, skybox and transparent draws, and the release of the temporary
    shadow textures. */
module CameraPass {
  import opened ShadowMatrixMath
  import opened Engine
  import opened CommandLog

  /** Mathf.Min. */
  function Min(a: real, b: real): (m: real)
    ensures m <= a && m <= b && (m == a || m == b)
  {
    if a < b then a else b
  }

  /** Whether the clear step clears depth: the clear flag shares a bit with
      CameraClearFlags.Depth (= 3), which every flag but Nothing does. */
  function ClearsDepth(f: ClearFlags): (b: bool)
    ensures b <==> f != Nothing
  {
    ClearFlagsValue(f) & DepthFlag != 0
  }

  /** Whether the clear step clears colour: the clear flag shares a bit with
      CameraClearFlags.Color (= 2). Besides SolidColor this also holds for
      DepthOnly (= 3), and it does not hold for Skybox (= 1). */
  function ClearsColor(f: ClearFlags): (b: bool)
    ensures b <==> f == SolidColor || f == DepthOnly
  {
    ClearFlagsValue(f) & ColorFlag != 0
  }

  /** The keyword disables recorded into the camera buffer when a shadow pass
      is skipped: all three when there is no visible light, the two cascade
      keywords when there are lights but no main light. */
  function Resets(lightCount: nat, mainLightIndex: int): (cmds: seq<Command>)
    ensures forall i :: 0 <= i < |cmds| ==> cmds[i].SetKeyword? && !cmds[i].enabled
    ensures lightCount == 0 ==> forall k :: KeywordState(cmds, k) == Some(false)
    ensures lightCount > 0 && mainLightIndex == -1 ==>
              KeywordState(cmds, CascadedShadowsHard) == Some(false) &&
              KeywordState(cmds, CascadedShadowsSoft) == Some(false) &&
              KeywordState(cmds, ShadowsSoft) == None
    ensures lightCount > 0 && mainLightIndex != -1 ==> cmds == []
  {
    if lightCount == 0 then
      [SetKeyword(CascadedShadowsHard, false), SetKeyword(CascadedShadowsSoft, false), SetKeyword(ShadowsSoft, false)]
    else if mainLightIndex == -1 then
      [SetKeyword(CascadedShadowsHard, false), SetKeyword(CascadedShadowsSoft, false)]
    else []
  }

  /** The engine calls of the camera part: camera setup, the execution of the
      camera buffer holding the pending resets and the clear, the opaque draw
      with the pipeline's batching and instancing settings, the skybox for a
      Skybox camera only, the transparent draw with the engine's defaults,
      and a last execution of the (emptied) camera buffer. */
  function CameraOps(camera: Camera, resets: seq<Command>, batching: bool, instancing: bool): (ops: seq<Op>)
    ensures |ops| == if camera.clearFlags == Skybox then 6 else 5
    ensures ops[0] == SetupCameraProperties
    ensures ops[1] == ExecuteCommandBuffer(resets + [ClearRenderTarget(ClearsDepth(camera.clearFlags),
                                                                      ClearsColor(camera.clearFlags),
                                                                      camera.backgroundColor)])
    ensures ops[2] == DrawRenderers(OpaqueQueue, CommonOpaque, Some(batching), Some(instancing))
    ensures (camera.clearFlags == Skybox) == (ops[3] == DrawSkybox)
    ensures ops[|ops| - 2] == DrawRenderers(TransparentQueue, CommonTransparent, None, None)
    ensures ops[|ops| - 1] == ExecuteCommandBuffer([])
  {
    var flags := camera.clearFlags;
    [SetupCameraProperties,
     ExecuteCommandBuffer(resets + [ClearRenderTarget(ClearsDepth(flags), ClearsColor(flags), camera.backgroundColor)]),
     DrawRenderers(OpaqueQueue, CommonOpaque, Some(batching), Some(instancing))]
    + (if flags == Skybox then [DrawSkybox] else [])
    + [DrawRenderers(TransparentQueue, CommonTransparent, None, None), ExecuteCommandBuffer([])]
  }

  /** The releases at the end of the pass: the atlas first, then the cascade
      atlas, each only if it was taken. */
  function Releases(shadowMap: Option<Texture>, cascadedShadowMap: Option<Texture>): seq<Op>
  {
    (if shadowMap.Some? then [ReleaseTemporary(shadowMap.value)] else [])
    + (if cascadedShadowMap.Some? then [ReleaseTemporary(cascadedShadowMap.value)] else [])
  }

  /** The set of textures an optional pair of handles holds. */
  function Held(shadowMap: Option<Texture>, cascadedShadowMap: Option<Texture>): set<Texture>
  {
    (if shadowMap.Some? then {shadowMap.value} else {})
    + (if cascadedShadowMap.Some? then {cascadedShadowMap.value} else {})
  }

  /** The camera part takes and gives back no texture, culls nothing, and
      leaves every keyword as the pending resets do. */
  lemma CameraOpsEffects(camera: Camera, resets: seq<Command>, batching: bool, instancing: bool)
    ensures var ops := CameraOps(camera, resets, batching, instancing);
            Acquired(ops) == {} && Released(ops) == {} && CullRequests(ops) == [] &&
            forall k :: FinalKeyword(ops, k) == KeywordState(resets, k)
  {
    CameraOpsTextures(camera, resets, batching, instancing);
    forall k ensures FinalKeyword(CameraOps(camera, resets, batching, instancing), k) == KeywordState(resets, k) {
      CameraOpsKeyword(camera, resets, batching, instancing, k);
    }
  }

  /** The camera part takes and gives back no texture and culls nothing. */
  lemma CameraOpsTextures(camera: Camera, resets: seq<Command>, batching: bool, instancing: bool)
    ensures var ops := CameraOps(camera, resets, batching, instancing);
            Acquired(ops) == {} && Released(ops) == {} && CullRequests(ops) == []
  {
    var ops := CameraOps(camera, resets, batching, instancing);
    assert ops == ops[..2] + ops[2..];
    NoTextureOps(ops[2..]);
    NoTextureOps(ops[..2]);
    AcquiredAppend(ops[..2], ops[2..]);
  }

  /** The camera part leaves keyword `k` as the pending resets do. */
  lemma CameraOpsKeyword(camera: Camera, resets: seq<Command>, batching: bool, instancing: bool, k: Keyword)
    ensures FinalKeyword(CameraOps(camera, resets, batching, instancing), k) == KeywordState(resets, k)
  {
    var ops := CameraOps(camera, resets, batching, instancing);
    var clear := ClearRenderTarget(ClearsDepth(camera.clearFlags), ClearsColor(camera.clearFlags), camera.backgroundColor);
    var head := ops[..2];
    var rest := ops[2..];
    assert ops == head + rest;
    FinalKeywordAppend(head, rest, k);
    NoCommands(rest);
    assert head == [ops[0]] + [ops[1]];
    FinalKeywordAppend([ops[0]], [ops[1]], k);
    assert [ops[0]][..0] == [];
    assert Commands([ops[1]]) == resets + [clear];
    KeywordStateAppend(resets, [clear], k);
  }

  /** Log stretches made of camera setup, draws and empty command buffers
      hand out, take back or cull nothing. */
  lemma {:induction false} NoTextureOps(ops: seq<Op>)
    requires forall i :: 0 <= i < |ops| ==> !ops[i].GetTemporary? && !ops[i].ReleaseTemporary? && !ops[i].Cull?
    ensures Acquired(ops) == {} && Released(ops) == {} && CullRequests(ops) == []
  {
    if ops != [] {
      NoTextureOps(ops[..|ops| - 1]);
    }
  }

  lemma {:induction false} NoCommands(ops: seq<Op>)
    requires forall i :: 0 <= i < |ops| ==> ops[i].ExecuteCommandBuffer? ==> ops[i].commands == []
    ensures Commands(ops) == []
  {
    if ops != [] {
      NoCommands(ops[..|ops| - 1]);
    }
  }

  /** The releases give back exactly the textures held, touch no keyword and
      cull nothing. */
  lemma ReleasesEffects(shadowMap: Option<Texture>, cascadedShadowMap: Option<Texture>)
    ensures var ops := Releases(shadowMap, cascadedShadowMap);
            Acquired(ops) == {} && Released(ops) == Held(shadowMap, cascadedShadowMap) &&
            CullRequests(ops) == [] && forall k :: FinalKeyword(ops, k) == None
  {
    var first := if shadowMap.Some? then [ReleaseTemporary(shadowMap.value)] else [];
    var second := if cascadedShadowMap.Some? then [ReleaseTemporary(cascadedShadowMap.value)] else [];
    assert first[..0] == [] && second[..0] == [];
    AcquiredAppend(first, second);
    NoCommands(first + second);
  }
}
