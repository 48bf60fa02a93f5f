/** What BasePipeline.RenderCascadedShadows does, as functions of its
    inputs: the oracle request of each cascade, the quadrant of the 2 x 2
    cascade atlas it is drawn into, the stored culling sphere and
    world-to-shadow matrix, and the commands that reach the engine. The pass
    always serves visible light 0, whichever light was chosen as the main
    light, and never looks at the validity flag of the oracle's answer. */
module CascadeShadows {
  import opened ShadowMatrixMath
  import opened Engine
  import opened CommandLog
  import opened ShadowTiles

  /** Everything the cascade loop depends on. */
  datatype CascadeInput = CascadeInput(
    cull: CullingResults,
    cascades: nat,
    split: Vec3,
    tileSize: int,
    reversedZ: bool)

  predicate CascadeWellFormed(a: CascadeInput)
  {
    |a.cull.visibleLights| > 0 && a.cascades <= 4
  }

  /** The light whose cascades are rendered: visible light 0. */
  function CascadeLight(a: CascadeInput): Light
    requires CascadeWellFormed(a)
  {
    a.cull.visibleLights[0].light
  }

  /** The arguments of the directional-shadow query for cascade i. */
  function CascadeRequest(a: CascadeInput, i: nat): (q: DirectionalRequest)
    requires CascadeWellFormed(a)
    ensures q.lightIndex == 0 && q.cascadeIndex == i && q.cascadeCount == a.cascades
    ensures q.resolution == a.tileSize && q.nearPlane == CascadeLight(a).shadowNearPlane
  {
    DirectionalRequest(0, i, a.cascades, a.split, a.tileSize, CascadeLight(a).shadowNearPlane)
  }

  /** The oracle's answer for cascade i. */
  function CascadeResult(a: CascadeInput, i: nat): ShadowResult
    requires CascadeWellFormed(a)
  {
    a.cull.directionalShadowMatrices(CascadeRequest(a, i))
  }

  /** The quadrant of cascade i in the fixed 2 x 2 grid. */
  function CascadeTile(i: nat): (o: TileOffset)
    ensures o.x == i % 2 && o.y == i / 2
    ensures i < 4 ==> o.x < 2 && o.y < 2
  {
    Offset(i, 2)
  }

  /** The culling sphere stored for cascade i: the oracle's sphere with its
      radius replaced by the radius squared. */
  function CascadeSphere(a: CascadeInput, i: nat): (s: Vec4)
    requires CascadeWellFormed(a)
    ensures var c := CascadeResult(a, i).splitData.cullingSphere;
            s.x == c.x && s.y == c.y && s.z == c.z && s.w == c.w * c.w && s.w >= 0.0
  {
    var c := CascadeResult(a, i).splitData.cullingSphere;
    c.(w := c.w * c.w)
  }

  /** The world-to-shadow matrix stored for cascade i: the clip-to-texture
      matrix built from the depth-corrected projection, pre-multiplied by the
      tile matrix of the cascade's quadrant. */
  function CascadeMatrix(a: CascadeInput, i: nat): Mat4
    requires CascadeWellFormed(a)
  {
    var r := CascadeResult(a, i);
    var o := CascadeTile(i);
    Mul(TileMatrix(o.x as real * 0.5, o.y as real * 0.5),
        WorldToShadow(r.view, CorrectedProjection(r.projection, a.reversedZ)))
  }

  /** The shadow bias of light 0, recorded before the loop; it is carried
      out by the first cascade's buffer. */
  function BiasCommand(a: CascadeInput): Command
    requires CascadeWellFormed(a)
  {
    SetGlobalFloat(ShadowBiasProp, CascadeLight(a).shadowBias)
  }

  /** The commands executed for cascade i: its quadrant's viewport and
      scissor rectangle and the oracle's view and projection, preceded for
      the first cascade by the bias. */
  function CascadeCommands(a: CascadeInput, i: nat): seq<Command>
    requires CascadeWellFormed(a)
  {
    var viewport := TileViewport(CascadeTile(i), a.tileSize);
    var r := CascadeResult(a, i);
    (if i == 0 then [BiasCommand(a)] else [])
    + [SetViewport(viewport), EnableScissorRect(TileScissor(viewport, a.tileSize)),
       SetViewProjectionMatrices(r.view, r.projection)]
  }

  /** The engine calls made by the loop for the first k cascades. */
  function CascadeOps(a: CascadeInput, k: nat): seq<Op>
    requires CascadeWellFormed(a)
  {
    if k == 0 then []
    else CascadeOps(a, k - 1)
         + [ExecuteCommandBuffer(CascadeCommands(a, k - 1)), DrawShadows(0, CascadeResult(a, k - 1).splitData)]
  }

  /** The loop makes two engine calls per cascade, in cascade order: the
      cascade's tile commands, then the draw of the main light's casters. */
  lemma {:induction false} CascadeOpsShape(a: CascadeInput, k: nat, c: nat)
    requires CascadeWellFormed(a) && c < k
    ensures |CascadeOps(a, k)| == 2 * k
    ensures CascadeOps(a, k)[2 * c] == ExecuteCommandBuffer(CascadeCommands(a, c))
    ensures CascadeOps(a, k)[2 * c + 1] == DrawShadows(0, CascadeResult(a, c).splitData)
  {
    if c < k - 1 {
      CascadeOpsShape(a, k - 1, c);
    } else if k > 1 {
      CascadeOpsShape(a, k - 1, 0);
    }
  }

  /** The culling-sphere slots after the first k cascades are stored. */
  function SpheresAfter(a: CascadeInput, k: nat, previous: seq<Vec4>): (s: seq<Vec4>)
    requires CascadeWellFormed(a) && k <= 4 && |previous| == 4
    ensures |s| == 4
  {
    if k == 0 then previous else SpheresAfter(a, k - 1, previous)[k - 1 := CascadeSphere(a, k - 1)]
  }

  /** The cascade matrix slots after the first k cascades are stored. */
  function CascadeMatricesAfter(a: CascadeInput, k: nat, previous: seq<Mat4>): (m: seq<Mat4>)
    requires CascadeWellFormed(a) && k <= 4 && |previous| == 5
    ensures |m| == 5
  {
    if k == 0 then previous else CascadeMatricesAfter(a, k - 1, previous)[k - 1 := CascadeMatrix(a, k - 1)]
  }

  /** Slot j holds cascade j's sphere and matrix when j is among the first k
      cascades and keeps its previous value otherwise; in particular slot 4
      of the matrices, the sentinel, is never written. */
  lemma {:induction false} CascadeSlotsAfterEntries(a: CascadeInput, k: nat, spheres: seq<Vec4>,
                                                    matrices: seq<Mat4>, j: nat)
    requires CascadeWellFormed(a) && k <= 4 && |spheres| == 4 && |matrices| == 5
    ensures j < 4 ==> SpheresAfter(a, k, spheres)[j] == if j < k then CascadeSphere(a, j) else spheres[j]
    ensures j < 5 ==> CascadeMatricesAfter(a, k, matrices)[j] == if j < k then CascadeMatrix(a, j) else matrices[j]
  {
    if k > 0 {
      CascadeSlotsAfterEntries(a, k - 1, spheres, matrices, j);
    }
  }

  /** With no cascades the bias is still in the buffer when the pass publishes. */
  function CascadeLeftover(a: CascadeInput): seq<Command>
    requires CascadeWellFormed(a)
  {
    if a.cascades == 0 then [BiasCommand(a)] else []
  }

  /** The commands that publish the cascade atlas after the loop. */
  function CascadePublish(a: CascadeInput, atlas: Texture, spheres: seq<Vec4>,
                          matrices: seq<Mat4>, mapSize: int): (cmds: seq<Command>)
    requires CascadeWellFormed(a) && mapSize > 0
  {
    var light := CascadeLight(a);
    var hard := light.shadows == Hard;
    [DisableScissorRect,
     SetGlobalTexture(CascadedShadowMapProp, atlas),
     SetGlobalVectorArray(CascadeCullingSpheresProp, spheres),
     SetGlobalMatrixArray(WorldToShadowCascadeMatricesProp, matrices),
     SetGlobalVector(CascadedShadowMapSizeProp, AtlasSizeVector(mapSize)),
     SetGlobalFloat(CascadedShadowStrengthProp, light.shadowStrength),
     SetKeyword(CascadedShadowsHard, hard),
     SetKeyword(CascadedShadowsSoft, !hard)]
  }

  /** Everything the cascade pass sends to the engine, from taking the
      temporary texture to the final publish. */
  function CascadeFrame(a: CascadeInput, atlas: Texture, spheres: seq<Vec4>,
                        matrices: seq<Mat4>, mapSize: int): seq<Op>
    requires CascadeWellFormed(a) && mapSize > 0
  {
    [GetTemporary(atlas, mapSize), ExecuteCommandBuffer([SetShadowRenderTarget(atlas)])]
    + CascadeOps(a, a.cascades)
    + [ExecuteCommandBuffer(CascadeLeftover(a) + CascadePublish(a, atlas, spheres, matrices, mapSize))]
  }

  /** Slot 4 of the cascade matrix array: a zero matrix, except that m33 is 1
      on a platform with a reversed depth buffer. Shaders index slot 4 for
      points beyond the last cascade. */
  function Sentinel(reversedZ: bool): (m: Mat4)
    ensures forall r: nat, c: nat :: r < 4 && c < 4 ==>
              Entry(m, r, c) == if reversedZ && r == 3 && c == 3 then 1.0 else 0.0
  {
    if reversedZ then ZeroMatrix.(row3 := ZeroVector.(w := 1.0)) else ZeroMatrix
  }

  // ---------------------------------------------------------------------
  // Quadrants

  /** The cascades occupy the four quadrants of the atlas: the viewport of
      each of them lies inside an atlas twice the tile size, and two
      different cascades never share a quadrant. */
  lemma CascadeViewportsPartitionAtlas(i: nat, j: nat, tileSize: nat)
    requires i < 4 && j < 4 && i != j
    ensures Inside(TileViewport(CascadeTile(i), tileSize), Rect(0, 0, 2 * tileSize, 2 * tileSize))
    ensures Disjoint(TileViewport(CascadeTile(i), tileSize), TileViewport(CascadeTile(j), tileSize))
  {
    TileInsideAtlas(i, 2, tileSize, 2 * tileSize);
    TilesDisjoint(i, j, 2, tileSize);
  }

  /** The stored cascade matrix samples the cascade's own quadrant: a point
      that the untiled matrix maps into the unit square is mapped into the
      half-size square at (x / 2, y / 2), (x, y) being the quadrant. */
  lemma CascadeMatrixSamplesQuadrant(a: CascadeInput, i: nat, p: Vec4)
    requires CascadeWellFormed(a) && i < 4
    requires var r := CascadeResult(a, i);
             var m := WorldToShadow(r.view, CorrectedProjection(r.projection, a.reversedZ));
             Transform(m, p).w == 1.0 && 0.0 <= Transform(m, p).x <= 1.0 && 0.0 <= Transform(m, p).y <= 1.0
    ensures var q := Transform(CascadeMatrix(a, i), p);
            var ox := (i % 2) as real * 0.5;
            var oy := (i / 2) as real * 0.5;
            ox <= q.x <= ox + 0.5 && oy <= q.y <= oy + 0.5 && q.w == 1.0
  {
    var r := CascadeResult(a, i);
    var m := WorldToShadow(r.view, CorrectedProjection(r.projection, a.reversedZ));
    var o := CascadeTile(i);
    TileRemapPlacesPointInTile(o.x as real * 0.5, o.y as real * 0.5, m, p);
  }

  // ---------------------------------------------------------------------
  // What reaches the engine

  /** The loop executes buffers and draws shadow casters only, and touches no
      shader keyword. */
  lemma {:induction false} CascadeOpsAreShadowWork(a: CascadeInput, k: nat)
    requires CascadeWellFormed(a)
    ensures ShadowWork(CascadeOps(a, k))
    ensures forall kw :: FinalKeyword(CascadeOps(a, k), kw) == None
  {
    if k > 0 {
      CascadeOpsAreShadowWork(a, k - 1);
      CascadeCommandsLeaveKeywords(a, k - 1);
      ShadowStep(CascadeOps(a, k - 1), CascadeCommands(a, k - 1), DrawShadows(0, CascadeResult(a, k - 1).splitData));
    }
  }

  /** A cascade's buffer sets no shader keyword. */
  lemma CascadeCommandsLeaveKeywords(a: CascadeInput, i: nat)
    requires CascadeWellFormed(a)
    ensures forall kw :: LeavesKeyword(CascadeCommands(a, i), kw)
  {
  }

  /** The publish hands the engine the cascade atlas, the spheres and the
      matrices it is given. */
  lemma CascadePublishContents(a: CascadeInput, atlas: Texture, spheres: seq<Vec4>,
                               matrices: seq<Mat4>, mapSize: int)
    requires CascadeWellFormed(a) && mapSize > 0
    ensures var cmds := CascadePublish(a, atlas, spheres, matrices, mapSize);
            SetGlobalTexture(CascadedShadowMapProp, atlas) in cmds &&
            SetGlobalVectorArray(CascadeCullingSpheresProp, spheres) in cmds &&
            SetGlobalMatrixArray(WorldToShadowCascadeMatricesProp, matrices) in cmds
  {
    var cmds := CascadePublish(a, atlas, spheres, matrices, mapSize);
    assert cmds[1] == SetGlobalTexture(CascadedShadowMapProp, atlas);
  }

  /** The matrix stored for cascade i is the clip-to-texture matrix with its
      x and y rows halved and shifted by the cascade's quadrant offset, half
      of its column and row, times the w row; the z and w rows are kept. */
  lemma CascadeMatrixRows(a: CascadeInput, i: nat)
    requires CascadeWellFormed(a)
    ensures var r := CascadeResult(a, i);
            var w := WorldToShadow(r.view, CorrectedProjection(r.projection, a.reversedZ));
            CascadeMatrix(a, i)
              == Mat4(Add(Scale(w.row0, 0.5), Scale(w.row3, (i % 2) as real * 0.5)),
                      Add(Scale(w.row1, 0.5), Scale(w.row3, (i / 2) as real * 0.5)),
                      w.row2, w.row3)
  {
    var r := CascadeResult(a, i);
    var o := CascadeTile(i);
    TileMatrixRows(o.x as real * 0.5, o.y as real * 0.5,
                   WorldToShadow(r.view, CorrectedProjection(r.projection, a.reversedZ)));
  }

  /** The publish leaves exactly one of the two cascade keywords enabled:
      the hard one when light 0 has hard shadows, the soft one otherwise. */
  lemma CascadePublishKeywords(a: CascadeInput, atlas: Texture, spheres: seq<Vec4>,
                               matrices: seq<Mat4>, mapSize: int)
    requires CascadeWellFormed(a) && mapSize > 0
    ensures var cmds := CascadeLeftover(a) + CascadePublish(a, atlas, spheres, matrices, mapSize);
            var hard := CascadeLight(a).shadows == Hard;
            KeywordState(cmds, CascadedShadowsHard) == Some(hard) &&
            KeywordState(cmds, CascadedShadowsSoft) == Some(!hard) &&
            KeywordState(cmds, ShadowsSoft) == None
  {
    var cmds := CascadeLeftover(a) + CascadePublish(a, atlas, spheres, matrices, mapSize);
    var n := |cmds|;
    assert cmds[..n - 1][n - 2] == cmds[n - 2];
    LeavesKeywordState(cmds[..n - 2], ShadowsSoft);
    assert cmds[..n - 1][..n - 2] == cmds[..n - 2];
  }

  /** The whole cascade pass takes one temporary texture, gives none back,
      culls nothing and leaves the cascade keywords as the publish sets them. */
  lemma CascadeFrameEffects(a: CascadeInput, atlas: Texture, spheres: seq<Vec4>,
                            matrices: seq<Mat4>, mapSize: int)
    requires CascadeWellFormed(a) && mapSize > 0
    ensures var frame := CascadeFrame(a, atlas, spheres, matrices, mapSize);
            var hard := CascadeLight(a).shadows == Hard;
            FinalKeyword(frame, CascadedShadowsHard) == Some(hard) &&
            FinalKeyword(frame, CascadedShadowsSoft) == Some(!hard) &&
            FinalKeyword(frame, ShadowsSoft) == None &&
            Acquired(frame) == {atlas} && Released(frame) == {} && CullRequests(frame) == []
  {
    var setup := [SetShadowRenderTarget(atlas)];
    var last := CascadeLeftover(a) + CascadePublish(a, atlas, spheres, matrices, mapSize);
    CascadeOpsAreShadowWork(a, a.cascades);
    ShadowPassEffects(atlas, mapSize, setup, CascadeOps(a, a.cascades), last);
    CascadePublishKeywords(a, atlas, spheres, matrices, mapSize);
  }
}
