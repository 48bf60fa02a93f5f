/** What the light loop of BasePipeline.RenderShadows does to the general
    shadow atlas, as functions of the state it starts from: which lights get
    a tile and which tile, what their shadow-data slots and matrices become,
    and the commands that reach the engine. */
module AtlasShadows {
  import opened ShadowMatrixMath
  import opened Engine
  import opened CommandLog
  import opened ShadowTiles
  import opened LightConfig

  /** Everything the loop depends on: the culling result and its oracles,
      the shadow-data slots as ConfigureLights left them, the main light,
      the split factor and the tile size. */
  datatype AtlasInput = AtlasInput(
    cull: CullingResults,
    shadowData: seq<Vec4>,
    mainLightIndex: int,
    split: nat,
    tileSize: int)

  predicate WellFormed(a: AtlasInput)
  {
    |a.shadowData| == MaxVisibleLights && a.split >= 1
  }

  /** The number of lights the loop visits. */
  function LightCount(a: AtlasInput): nat
  {
    ActiveLightCount(|a.cull.visibleLights|)
  }

  /** Vector3.right, the split ratio passed for a single-cascade directional light. */
  const Right := Vec3(1.0, 0.0, 0.0)

  /** The oracle answer for light i: lights whose shadow data has z > 0
      (directional ones) ask for a one-cascade directional shadow, the others
      for a spot shadow. */
  function ShadowMatricesFor(a: AtlasInput, i: nat): ShadowResult
    requires WellFormed(a) && i < LightCount(a)
  {
    if a.shadowData[i].z > 0.0 then
      a.cull.directionalShadowMatrices(
        DirectionalRequest(i, 0, 1, Right, a.tileSize, a.cull.visibleLights[i].light.shadowNearPlane))
    else a.cull.spotShadowMatrices(i)
  }

  /** Light i is not the main light and has a positive shadow strength. */
  predicate Attempted(a: AtlasInput, i: nat)
    requires WellFormed(a) && i < LightCount(a)
  {
    i != a.mainLightIndex && a.shadowData[i].x > 0.0
  }

  /** Light i is attempted and its shadow matrices are valid: it takes a tile. */
  predicate GetsTile(a: AtlasInput, i: nat)
    requires WellFormed(a) && i < LightCount(a)
    ensures GetsTile(a, i) ==> i != a.mainLightIndex && a.shadowData[i].x > 0.0 && ShadowMatricesFor(a, i).valid
  {
    Attempted(a, i) && ShadowMatricesFor(a, i).valid
  }

  /** The number of tiles taken by the lights before light k: the tile index
      the loop holds when it reaches light k. */
  function TilesBefore(a: AtlasInput, k: nat): (t: nat)
    requires WellFormed(a) && k <= LightCount(a)
    ensures t <= k
  {
    if k == 0 then 0
    else TilesBefore(a, k - 1) + (if GetsTile(a, k - 1) then 1 else 0)
  }

  /** The grid cell of the tile light i takes (if it takes one). */
  function TileOf(a: AtlasInput, i: nat): TileOffset
    requires WellFormed(a) && i < LightCount(a)
  {
    Offset(TilesBefore(a, i), a.split)
  }

  /** tileScale = 1 / split. */
  function TileScale(split: nat): real
    requires split >= 1
  {
    1.0 / split as real
  }

  /** A shadow-data slot with a tile's offset times the tile scale in z and w. */
  function TileData(data: Vec4, o: TileOffset, tileScale: real): (d: Vec4)
    ensures d.x == data.x && d.y == data.y
  {
    data.(z := o.x as real * tileScale, w := o.y as real * tileScale)
  }

  /** Shadow-data slot i after the loop: a light with a tile records its tile
      offset times the tile scale in z and w; an attempted light whose
      matrices failed has its strength zeroed; every other slot is kept. */
  function RenderedShadowData(a: AtlasInput, i: nat): (d: Vec4)
    requires WellFormed(a) && i < MaxVisibleLights
    ensures d.y == a.shadowData[i].y
    ensures d.x == a.shadowData[i].x || d.x == 0.0
    ensures !(i < LightCount(a) && Attempted(a, i)) ==> d == a.shadowData[i]
  {
    if i < LightCount(a) && GetsTile(a, i) then
      TileData(a.shadowData[i], TileOf(a, i), TileScale(a.split))
    else if i < LightCount(a) && Attempted(a, i) then a.shadowData[i].(x := 0.0)
    else a.shadowData[i]
  }

  /** World-to-shadow matrix slot i after the loop: scaleOffset * (P * V)
      with the oracle's own projection for a light with a tile (the two row-2
      negations cancel, and there is no tile remap); otherwise the old value. */
  function RenderedMatrix(a: AtlasInput, i: nat, previous: Mat4): (m: Mat4)
    requires WellFormed(a) && i < MaxVisibleLights
    ensures m == previous || (i < LightCount(a) && GetsTile(a, i))
  {
    if i < LightCount(a) && GetsTile(a, i) then
      WorldToShadow(ShadowMatricesFor(a, i).view, ShadowMatricesFor(a, i).projection)
    else previous
  }

  /** The commands executed for a light with a tile: the tile's viewport and
      scissor, then the viewport and scissor of the ORIGIN tile, then the
      oracle's view and projection. */
  function TileCommands(a: AtlasInput, i: nat): seq<Command>
    requires WellFormed(a) && i < LightCount(a)
  {
    var viewport := TileViewport(TileOf(a, i), a.tileSize);
    var origin := OriginViewport(a.tileSize);
    var r := ShadowMatricesFor(a, i);
    [SetViewport(viewport), EnableScissorRect(TileScissor(viewport, a.tileSize)),
     SetViewport(origin), EnableScissorRect(TileScissor(origin, a.tileSize)),
     SetViewProjectionMatrices(r.view, r.projection)]
  }

  /** The engine calls made for a light with a tile. */
  function TileOps(a: AtlasInput, i: nat): seq<Op>
    requires WellFormed(a) && i < LightCount(a)
  {
    [ExecuteCommandBuffer(TileCommands(a, i)), DrawShadows(i, ShadowMatricesFor(a, i).splitData)]
  }

  /** The engine calls made by the loop for the first k lights. */
  function AtlasOps(a: AtlasInput, k: nat): seq<Op>
    requires WellFormed(a) && k <= LightCount(a)
  {
    if k == 0 then []
    else AtlasOps(a, k - 1) + (if GetsTile(a, k - 1) then TileOps(a, k - 1) else [])
  }

  /** The loop makes two engine calls per light with a tile, in light order. */
  lemma {:induction false} AtlasOpsLength(a: AtlasInput, k: nat)
    requires WellFormed(a) && k <= LightCount(a)
    ensures |AtlasOps(a, k)| == 2 * TilesBefore(a, k)
  {
    if k > 0 {
      AtlasOpsLength(a, k - 1);
    }
  }

  /** The two calls for light i, at the position given by its tile index:
      the light's tile commands, then the draw of its shadow casters. */
  lemma {:induction false} AtlasOpsShape(a: AtlasInput, k: nat, i: nat)
    requires WellFormed(a) && i < k <= LightCount(a) && GetsTile(a, i)
    ensures 2 * TilesBefore(a, i) + 1 < |AtlasOps(a, k)|
    ensures AtlasOps(a, k)[2 * TilesBefore(a, i)] == ExecuteCommandBuffer(TileCommands(a, i))
    ensures AtlasOps(a, k)[2 * TilesBefore(a, i) + 1] == DrawShadows(i, ShadowMatricesFor(a, i).splitData)
  {
    AtlasOpsLength(a, k);
    TilesBeforeGrows(a, i, k);
    if i < k - 1 {
      AtlasOpsShape(a, k - 1, i);
    } else {
      AtlasOpsLength(a, k - 1);
    }
  }

  /** What the loop does for a light with a tile, spelled out. */
  lemma TileStepEffects(a: AtlasInput, i: nat, previous: Mat4)
    requires WellFormed(a) && i < LightCount(a) && GetsTile(a, i)
    ensures RenderedShadowData(a, i) == TileData(a.shadowData[i], TileOf(a, i), TileScale(a.split))
    ensures RenderedMatrix(a, i, previous)
              == WorldToShadow(ShadowMatricesFor(a, i).view, ShadowMatricesFor(a, i).projection)
    ensures TilesBefore(a, i + 1) == TilesBefore(a, i) + 1
  {
  }

  /** What the loop does for a light without a tile, spelled out. */
  lemma SkipStepEffects(a: AtlasInput, i: nat, previous: Mat4)
    requires WellFormed(a) && i < LightCount(a) && !GetsTile(a, i)
    ensures RenderedShadowData(a, i) == if Attempted(a, i) then a.shadowData[i].(x := 0.0) else a.shadowData[i]
    ensures RenderedMatrix(a, i, previous) == previous
    ensures TilesBefore(a, i + 1) == TilesBefore(a, i)
  {
  }

  /** The commands that publish the atlas after the loop. The bias and the
      soft-shadow keyword come from visible light 0. */
  function AtlasPublish(cull: CullingResults, atlas: Texture, matrices: seq<Mat4>,
                        shadowData: seq<Vec4>, mapSize: int): (cmds: seq<Command>)
    requires |cull.visibleLights| > 0 && mapSize > 0
  {
    var first := cull.visibleLights[0].light;
    [DisableScissorRect,
     SetGlobalTexture(ShadowMapProp, atlas),
     SetGlobalMatrixArray(WorldToShadowMatricesProp, matrices),
     SetGlobalFloat(ShadowBiasProp, first.shadowBias),
     SetGlobalVectorArray(ShadowDataProp, shadowData),
     SetGlobalVector(ShadowMapSizeProp, AtlasSizeVector(mapSize)),
     SetKeyword(ShadowsSoft, first.shadows == Soft)]
  }

  /** The publish hands the engine the atlas, the matrices and the shadow
      data it is given, and leaves the soft-shadow keyword as light 0's
      shadow type says. */
  lemma AtlasPublishContents(cull: CullingResults, atlas: Texture, matrices: seq<Mat4>,
                             shadowData: seq<Vec4>, mapSize: int)
    requires |cull.visibleLights| > 0 && mapSize > 0
    ensures var cmds := AtlasPublish(cull, atlas, matrices, shadowData, mapSize);
            SetGlobalTexture(ShadowMapProp, atlas) in cmds &&
            SetGlobalMatrixArray(WorldToShadowMatricesProp, matrices) in cmds &&
            SetGlobalVectorArray(ShadowDataProp, shadowData) in cmds &&
            KeywordState(cmds, ShadowsSoft) == Some(cull.visibleLights[0].light.shadows == Soft)
  {
    var cmds := AtlasPublish(cull, atlas, matrices, shadowData, mapSize);
    assert cmds[1] == SetGlobalTexture(ShadowMapProp, atlas);
  }

  /** The shadow-data slots after the loop has visited the first k lights. */
  function AtlasDataAfter(a: AtlasInput, k: nat): (d: seq<Vec4>)
    requires WellFormed(a) && k <= LightCount(a)
    ensures |d| == MaxVisibleLights
  {
    if k == 0 then a.shadowData else AtlasDataAfter(a, k - 1)[k - 1 := RenderedShadowData(a, k - 1)]
  }

  /** The world-to-shadow matrix slots after the loop has visited the first k lights. */
  function AtlasMatricesAfter(a: AtlasInput, k: nat, previous: seq<Mat4>): (m: seq<Mat4>)
    requires WellFormed(a) && k <= LightCount(a) && |previous| == MaxVisibleLights
    ensures |m| == MaxVisibleLights
  {
    if k == 0 then previous
    else AtlasMatricesAfter(a, k - 1, previous)[k - 1 := RenderedMatrix(a, k - 1, previous[k - 1])]
  }

  /** Slot j holds what the loop leaves for light j once light j has been
      visited, and the value found at the start otherwise. */
  lemma {:induction false} AtlasSlotsAfterEntries(a: AtlasInput, k: nat, previous: seq<Mat4>, j: nat)
    requires WellFormed(a) && k <= LightCount(a) && |previous| == MaxVisibleLights && j < MaxVisibleLights
    ensures AtlasDataAfter(a, k)[j] == if j < k then RenderedShadowData(a, j) else a.shadowData[j]
    ensures AtlasMatricesAfter(a, k, previous)[j] == if j < k then RenderedMatrix(a, j, previous[j]) else previous[j]
  {
    if k > 0 {
      AtlasSlotsAfterEntries(a, k - 1, previous, j);
    }
  }

  /** After the whole loop every slot holds exactly what the loop promises
      for it: slots of lights beyond the visited ones are unchanged. */
  lemma AtlasSlotsAfterLoop(a: AtlasInput, previous: seq<Mat4>, j: nat)
    requires WellFormed(a) && |previous| == MaxVisibleLights && j < MaxVisibleLights
    ensures AtlasDataAfter(a, LightCount(a))[j] == RenderedShadowData(a, j)
    ensures AtlasMatricesAfter(a, LightCount(a), previous)[j] == RenderedMatrix(a, j, previous[j])
  {
    AtlasSlotsAfterEntries(a, LightCount(a), previous, j);
  }

  /** The commands recorded before the loop: the global shadow data
      (tile scale, shadow distance squared) and the render target. */
  function AtlasSetup(split: nat, shadowDistance: real, atlas: Texture): seq<Command>
    requires split >= 1
  {
    [SetGlobalVector(GlobalShadowDataProp, Vec4(TileScale(split), shadowDistance * shadowDistance, 0.0, 0.0)),
     SetShadowRenderTarget(atlas)]
  }

  /** Everything the atlas pass sends to the engine, from taking the
      temporary texture to the final publish. */
  function AtlasFrame(a: AtlasInput, shadowDistance: real, atlas: Texture, matrices: seq<Mat4>,
                      shadowData: seq<Vec4>, mapSize: int): seq<Op>
    requires WellFormed(a) && |a.cull.visibleLights| > 0 && mapSize > 0
  {
    [GetTemporary(atlas, mapSize), ExecuteCommandBuffer(AtlasSetup(a.split, shadowDistance, atlas))]
    + AtlasOps(a, LightCount(a))
    + [ExecuteCommandBuffer(AtlasPublish(a.cull, atlas, matrices, shadowData, mapSize))]
  }

  // ---------------------------------------------------------------------
  // Tile compaction

  /** Tile indices grow with the light index: every light with a tile gets
      an index below that of every later light with a tile. */
  lemma {:induction false} TilesBeforeGrows(a: AtlasInput, i: nat, j: nat)
    requires WellFormed(a) && i <= j <= LightCount(a)
    ensures TilesBefore(a, i) <= TilesBefore(a, j)
    ensures i < j && GetsTile(a, i) ==> TilesBefore(a, i) < TilesBefore(a, j)
    decreases j - i
  {
    if i < j {
      TilesBeforeGrows(a, i, j - 1);
      if i < j - 1 {
        TilesBeforeGrows(a, i + 1, j);
      }
    }
  }

  /** Tiles are assigned without gaps: each of the indices 0..k-1, k being
      the number of tiles taken, belongs to a light with a tile. */
  lemma {:induction false} TilesAreCompact(a: AtlasInput, k: nat, t: nat)
    requires WellFormed(a) && k <= LightCount(a)
    requires t < TilesBefore(a, k)
    ensures exists i :: 0 <= i < k && GetsTile(a, i) && TilesBefore(a, i) == t
  {
    if t < TilesBefore(a, k - 1) {
      TilesAreCompact(a, k - 1, t);
    } else {
      assert GetsTile(a, k - 1) && TilesBefore(a, k - 1) == t;
    }
  }

  /** Two different lights with tiles never share a tile. */
  lemma TileIndicesDistinct(a: AtlasInput, i: nat, j: nat)
    requires WellFormed(a) && i < j < LightCount(a)
    requires GetsTile(a, i) && GetsTile(a, j)
    ensures TilesBefore(a, i) != TilesBefore(a, j)
    ensures TileOf(a, i) != TileOf(a, j)
  {
    TilesBeforeGrows(a, i, j);
    OffsetsDistinct(TilesBefore(a, i), TilesBefore(a, j), a.split);
  }

  // ---------------------------------------------------------------------
  // The tiles fit the grid

  /** The atlas input RenderShadows sees straight after ConfigureLights. */
  predicate Configured(a: AtlasInput)
    requires WellFormed(a)
  {
    var cull := a.cull;
    a.mainLightIndex == MainLightIndex(cull, LightCount(a)) &&
    forall i :: 0 <= i < LightCount(a) ==> a.shadowData[i] == ShadowDataOf(cull, i)
  }

  lemma {:induction false} TilesBeforeCountsCasters(a: AtlasInput, k: nat)
    requires WellFormed(a) && Configured(a) && k <= LightCount(a)
    ensures TilesBefore(a, k) + (if 0 <= a.mainLightIndex < k then 1 else 0) <= ShadowCasterCount(a.cull, k)
  {
    if k > 0 {
      TilesBeforeCountsCasters(a, k - 1);
      var i := k - 1;
      if GetsTile(a, i) {
        assert ShadowDataOf(a.cull, i).x != 0.0;
      }
      if a.mainLightIndex == i {
        MainLightNeedsTile(a.cull, LightCount(a));
      }
    }
  }

  /** With the shadow data and main light ConfigureLights produced and the
      split factor chosen from its tile count, the lights that take a tile
      number at most shadowTileCount, which is at most split * split, so every
      tile a light takes lies inside the split x split grid. */
  lemma AtlasTilesFit(a: AtlasInput)
    requires WellFormed(a) && Configured(a)
    requires a.split == SplitFor(ShadowTileCount(a.cull))
    ensures TilesBefore(a, LightCount(a)) <= ShadowTileCount(a.cull) <= a.split * a.split
    ensures forall i :: 0 <= i < LightCount(a) && GetsTile(a, i) ==>
              TileOf(a, i).x < a.split && TileOf(a, i).y < a.split
  {
    var m := LightCount(a);
    TilesBeforeCountsCasters(a, m);
    forall i | 0 <= i < m && GetsTile(a, i)
      ensures TileOf(a, i).x < a.split && TileOf(a, i).y < a.split
    {
      TilesBeforeGrows(a, i, m);
      OffsetInGrid(TilesBefore(a, i), a.split);
    }
  }

  /** A light with a tile inside the grid records tile coordinates in
      [0, 1): its tile offset divided by the split factor. */
  lemma TileCoordinatesInUnitSquare(a: AtlasInput, i: nat)
    requires WellFormed(a) && i < LightCount(a) && GetsTile(a, i)
    requires TileOf(a, i).x < a.split && TileOf(a, i).y < a.split
    ensures var s := RenderedShadowData(a, i);
            s.x == a.shadowData[i].x && s.y == a.shadowData[i].y &&
            s.z == TileOf(a, i).x as real / a.split as real && 0.0 <= s.z < 1.0 &&
            s.w == TileOf(a, i).y as real / a.split as real && 0.0 <= s.w < 1.0
  {
    var o := TileOf(a, i);
    assert RenderedShadowData(a, i) == TileData(a.shadowData[i], o, TileScale(a.split));
    TileDataInUnitSquare(a.shadowData[i], o, a.split);
  }

  lemma TileDataInUnitSquare(data: Vec4, o: TileOffset, split: nat)
    requires 0 <= o.x < split && 0 <= o.y < split
    ensures var s := TileData(data, o, TileScale(split));
            s.z == o.x as real / split as real && 0.0 <= s.z < 1.0 &&
            s.w == o.y as real / split as real && 0.0 <= s.w < 1.0
  {
    FractionBelowOne(o.x as real, split as real);
    FractionBelowOne(o.y as real, split as real);
  }

  lemma FractionBelowOne(p: real, n: real)
    requires 0.0 <= p < n
    ensures p * (1.0 / n) == p / n
    ensures 0.0 <= p / n < 1.0
  {
    assert (p / n) * n == p;
  }

  // ---------------------------------------------------------------------
  // What reaches the engine

  /** The loop only executes buffers and draws shadow casters, and touches no
      shader keyword. */
  lemma {:induction false} AtlasOpsAreShadowWork(a: AtlasInput, k: nat)
    requires WellFormed(a) && k <= LightCount(a)
    ensures ShadowWork(AtlasOps(a, k))
    ensures forall kw :: FinalKeyword(AtlasOps(a, k), kw) == None
  {
    if k > 0 {
      AtlasOpsAreShadowWork(a, k - 1);
      if GetsTile(a, k - 1) {
        TileCommandsLeaveKeywords(a, k - 1);
        assert AtlasOps(a, k) == AtlasOps(a, k - 1) + TileOps(a, k - 1);
        ShadowStep(AtlasOps(a, k - 1), TileCommands(a, k - 1), DrawShadows(k - 1, ShadowMatricesFor(a, k - 1).splitData));
      } else {
        assert AtlasOps(a, k) == AtlasOps(a, k - 1) + [] == AtlasOps(a, k - 1);
      }
    }
  }

  /** A tile's buffer sets no shader keyword. */
  lemma TileCommandsLeaveKeywords(a: AtlasInput, i: nat)
    requires WellFormed(a) && i < LightCount(a)
    ensures forall kw :: LeavesKeyword(TileCommands(a, i), kw)
  {
  }

  /** When a light's shadow casters are drawn, the viewport in force is the
      origin tile's and the scissor rectangle is the origin tile's inset,
      whichever tile the light was given. */
  lemma AtlasDrawsThroughOriginTile(a: AtlasInput, i: nat)
    requires WellFormed(a) && i < LightCount(a)
    ensures ViewportState(TileCommands(a, i)) == Some(Rect(0, 0, a.tileSize, a.tileSize))
    ensures ScissorState(TileCommands(a, i)) == Some(Rect(4, 4, a.tileSize - 8, a.tileSize - 8))
  {
    var cmds := TileCommands(a, i);
    var origin := OriginViewport(a.tileSize);
    assert cmds[..3][2] == SetViewport(origin);
    assert ViewportState(cmds[..3]) == Some(origin);
    assert cmds[..4][..3] == cmds[..3];
    assert ViewportState(cmds[..4]) == Some(origin);
    assert cmds[..|cmds| - 1] == cmds[..4];
  }

  /** The whole atlas pass takes one temporary texture, gives none back,
      culls nothing, leaves the soft-shadow keyword as light 0's shadow
      type says and never touches the cascade keywords. */
  lemma AtlasFrameEffects(a: AtlasInput, shadowDistance: real, atlas: Texture, matrices: seq<Mat4>,
                          shadowData: seq<Vec4>, mapSize: int)
    requires WellFormed(a) && |a.cull.visibleLights| > 0 && mapSize > 0
    ensures var frame := AtlasFrame(a, shadowDistance, atlas, matrices, shadowData, mapSize);
            FinalKeyword(frame, ShadowsSoft) == Some(a.cull.visibleLights[0].light.shadows == Soft) &&
            FinalKeyword(frame, CascadedShadowsHard) == None &&
            FinalKeyword(frame, CascadedShadowsSoft) == None &&
            Acquired(frame) == {atlas} && Released(frame) == {} && CullRequests(frame) == []
  {
    var last := AtlasPublish(a.cull, atlas, matrices, shadowData, mapSize);
    AtlasOpsAreShadowWork(a, LightCount(a));
    ShadowPassEffects(atlas, mapSize, AtlasSetup(a.split, shadowDistance, atlas), AtlasOps(a, LightCount(a)), last);
    LeavesKeywordState(last[..|last| - 1], CascadedShadowsHard);
    LeavesKeywordState(last[..|last| - 1], CascadedShadowsSoft);
  }
}
