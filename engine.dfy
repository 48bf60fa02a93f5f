/** The engine services the pipeline talks to, at their interface: the
    culling result (visible lights and the shadow oracles), the camera, the
    command buffers and the render context. Culling, shadow-matrix
    construction and drawing are not modelled; their answers are inputs and
    the calls that reach the engine are recorded, in order, in an
    append-only log. */
module Engine {
  import opened ShadowMatrixMath

  datatype Option<T> = None | Some(value: T)

  /** A rectangle in texels. The shadow passes only ever build rectangles
      with whole-number coordinates, so `int` stands for the C# floats. */
  datatype Rect = Rect(x: int, y: int, width: int, height: int)

  /** `Point` stands for every light type that is neither directional nor
      spot: the light configuration treats all of them as point lights. */
  datatype LightType = Directional | Point | Spot

  datatype LightShadows = NoShadows | Hard | Soft

  /** The scene light behind a visible light (Unity's Light component). */
  datatype Light = Light(shadows: LightShadows, shadowStrength: real, shadowBias: real, shadowNearPlane: real)

  /** One entry of the culling result's visible-light list. The spot-cone
      cosines stand for the trigonometry the pipeline derives from the spot
      angle: outerCos = cos(angle / 2) and innerCos = cos(atan(46/64 tan(angle / 2))). */
  datatype VisibleLight = VisibleLight(
    lightType: LightType,
    finalColor: Vec4,
    localToWorld: Mat4,
    range: real,
    innerCos: real,
    outerCos: real,
    light: Light)

  /** What the shadow-matrix oracles report about a split: only the culling
      sphere is used by the pipeline. */
  datatype SplitData = SplitData(cullingSphere: Vec4)

  /** Answer of ComputeDirectional/SpotShadowMatricesAndCullingPrimitives:
      whether useful matrices exist, and the matrices and split data. */
  datatype ShadowResult = ShadowResult(valid: bool, view: Mat4, projection: Mat4, splitData: SplitData)

  /** The arguments of ComputeDirectionalShadowMatricesAndCullingPrimitives. */
  datatype DirectionalRequest = DirectionalRequest(
    lightIndex: nat,
    cascadeIndex: nat,
    cascadeCount: int,
    splitRatio: Vec3,
    resolution: int,
    nearPlane: real)

  /** The result of culling one camera, with the engine's per-light queries
      as oracles. */
  datatype CullingResults = CullingResults(
    visibleLights: seq<VisibleLight>,
    hasShadowCasterBounds: nat -> bool,
    directionalShadowMatrices: DirectionalRequest -> ShadowResult,
    spotShadowMatrices: nat -> ShadowResult)

  /** Unity's CameraClearFlags. */
  datatype ClearFlags = Skybox | SolidColor | DepthOnly | Nothing

  /** The numeric values of CameraClearFlags (Skybox = 1, Color = SolidColor = 2,
      Depth = 3, Nothing = 4), on which the pipeline performs bit tests. */
  function ClearFlagsValue(f: ClearFlags): bv8
  {
    match f
    case Skybox => 1
    case SolidColor => 2
    case DepthOnly => 3
    case Nothing => 4
  }

  const DepthFlag: bv8 := 3
  const ColorFlag: bv8 := 2

  /** The camera, as far as the per-camera pass reads it. `cullingSupported`
      is the answer of TryGetCullingParameters. */
  datatype Camera = Camera(cullingSupported: bool, farClipPlane: real, clearFlags: ClearFlags, backgroundColor: Vec4)

  /** An abstract handle of a temporary render texture. */
  datatype Texture = Texture(id: nat)

  /** The global shader properties the pipeline writes. */
  datatype Property =
    | VisibleLightColorsProp
    | VisibleLightDirectionsOrPositionsProp
    | VisibleLightAttenuationsProp
    | VisibleLightSpotDirectionsProp
    | ShadowMapProp
    | WorldToShadowMatricesProp
    | ShadowBiasProp
    | ShadowDataProp
    | ShadowMapSizeProp
    | GlobalShadowDataProp
    | CascadedShadowMapProp
    | WorldToShadowCascadeMatricesProp
    | CascadedShadowMapSizeProp
    | CascadedShadowStrengthProp
    | CascadeCullingSpheresProp

  /** The shader keywords of the three shadow techniques. */
  datatype Keyword = ShadowsSoft | CascadedShadowsHard | CascadedShadowsSoft

  datatype RenderQueue = OpaqueQueue | TransparentQueue

  datatype SortingCriteria = CommonOpaque | CommonTransparent

  /** A command recorded into a command buffer. SetShadowRenderTarget stands
      for CoreUtils.SetRenderTarget with a depth-only clear. SetKeyword
      records EnableShaderKeyword (true) or DisableShaderKeyword (false). */
  datatype Command =
    | SetGlobalVectorArray(property: Property, vectors: seq<Vec4>)
    | SetGlobalMatrixArray(property: Property, matrices: seq<Mat4>)
    | SetGlobalVector(property: Property, vector: Vec4)
    | SetGlobalFloat(property: Property, value: real)
    | SetGlobalTexture(property: Property, texture: Texture)
    | SetKeyword(keyword: Keyword, enabled: bool)
    | SetShadowRenderTarget(target: Texture)
    | SetViewport(viewport: Rect)
    | EnableScissorRect(scissor: Rect)
    | DisableScissorRect
    | SetViewProjectionMatrices(view: Mat4, projection: Mat4)
    | ClearRenderTarget(clearDepth: bool, clearColor: bool, background: Vec4)

  /** A call that reaches the engine. ExecuteCommandBuffer carries a copy of
      the buffer's commands at the time of the call. DrawRenderers carries the
      batching and instancing flags the pipeline sets, or None where it leaves
      the engine's default. */
  datatype Op =
    | Cull(shadowDistance: real)
    | ExecuteCommandBuffer(commands: seq<Command>)
    | DrawShadows(lightIndex: nat, splitData: SplitData)
    | SetupCameraProperties
    | DrawRenderers(queue: RenderQueue, sorting: SortingCriteria,
                    dynamicBatching: Option<bool>, instancing: Option<bool>)
    | DrawSkybox
    | GetTemporary(texture: Texture, size: int)
    | ReleaseTemporary(texture: Texture)
    | Submit

  /** A command buffer: commands are recorded in order until it is cleared. */
  class CommandBuffer {
    var commands: seq<Command>

    constructor ()
      ensures commands == []
    {
      commands := [];
    }

    method Add(c: Command)
      modifies this
      ensures commands == old(commands) + [c]
    {
      commands := commands + [c];
    }

    method Clear()
      modifies this
      ensures commands == []
    {
      commands := [];
    }
  }

  /** The render context together with the temporary-texture service: every
      call is appended to `log`; `nextTexture` numbers the handles that
      GetTemporary hands out. */
  class RenderContext {
    var log: seq<Op>
    var nextTexture: nat

    constructor ()
      ensures log == [] && nextTexture == 0
    {
      log := [];
      nextTexture := 0;
    }

    method Cull(shadowDistance: real)
      modifies this
      ensures log == old(log) + [Op.Cull(shadowDistance)] && nextTexture == old(nextTexture)
    {
      log := log + [Op.Cull(shadowDistance)];
    }

    method ExecuteCommandBuffer(buffer: CommandBuffer)
      modifies this
      ensures log == old(log) + [Op.ExecuteCommandBuffer(buffer.commands)] && nextTexture == old(nextTexture)
    {
      log := log + [Op.ExecuteCommandBuffer(buffer.commands)];
    }

    method DrawShadows(lightIndex: nat, splitData: SplitData)
      modifies this
      ensures log == old(log) + [Op.DrawShadows(lightIndex, splitData)] && nextTexture == old(nextTexture)
    {
      log := log + [Op.DrawShadows(lightIndex, splitData)];
    }

    method SetupCameraProperties()
      modifies this
      ensures log == old(log) + [Op.SetupCameraProperties] && nextTexture == old(nextTexture)
    {
      log := log + [Op.SetupCameraProperties];
    }

    method DrawRenderers(queue: RenderQueue, sorting: SortingCriteria,
                         dynamicBatching: Option<bool>, instancing: Option<bool>)
      modifies this
      ensures log == old(log) + [Op.DrawRenderers(queue, sorting, dynamicBatching, instancing)]
      ensures nextTexture == old(nextTexture)
    {
      log := log + [Op.DrawRenderers(queue, sorting, dynamicBatching, instancing)];
    }

    method DrawSkybox()
      modifies this
      ensures log == old(log) + [Op.DrawSkybox] && nextTexture == old(nextTexture)
    {
      log := log + [Op.DrawSkybox];
    }

    method GetTemporary(size: int) returns (t: Texture)
      modifies this
      ensures t == Texture(old(nextTexture)) && nextTexture == old(nextTexture) + 1
      ensures log == old(log) + [Op.GetTemporary(t, size)]
    {
      t := Texture(nextTexture);
      nextTexture := nextTexture + 1;
      log := log + [Op.GetTemporary(t, size)];
    }

    method ReleaseTemporary(t: Texture)
      modifies this
      ensures log == old(log) + [Op.ReleaseTemporary(t)] && nextTexture == old(nextTexture)
    {
      log := log + [Op.ReleaseTemporary(t)];
    }

    method Submit()
      modifies this
      ensures log == old(log) + [Op.Submit] && nextTexture == old(nextTexture)
    {
      log := log + [Op.Submit];
    }
  }
}
