/** The pipeline asset, BasePipelineAsset: the serialized settings the
    engine keeps for the pipeline, their defaults, and CreatePipeline, which
    picks the cascade split vector and builds a BasePipeline from them. */
module PipelineAsset {
  import opened Settings
  import opened ShadowMatrixMath
  import opened Frame
  import opened Pipeline

  /** The settings stored in the asset. */
  datatype BasePipelineAsset = BasePipelineAsset(
    enableDynamicBatching: bool,
    enableInstancing: bool,
    shadowMapSize: ShadowMapSize,
    shadowDistance: real,
    shadowCascades: ShadowCascades,
    twoCascadesSplit: real,
    fourCascadesSplit: Vec3)

  /** The field initialisers: no batching, no instancing, a 1024 atlas, a
      shadow distance of 100, four cascades, a two-cascade split of 0.25 and
      a four-cascade split of (0.067, 0.2, 0.467). */
  const DefaultAsset := BasePipelineAsset(false, false, Size1024, 100.0, Four, 0.25, Vec3(0.067, 0.2, 0.467))

  /** The split vector passed to the pipeline: the four-cascade split with
      four cascades, otherwise the two-cascade split in x and zero in y and z
      (also with no cascades at all). */
  function CascadeSplit(asset: BasePipelineAsset): (v: Vec3)
    ensures asset.shadowCascades == Four ==> v == asset.fourCascadesSplit
    ensures asset.shadowCascades != Four ==> v.x == asset.twoCascadesSplit && v.y == 0.0 && v.z == 0.0
  {
    if asset.shadowCascades == Four then asset.fourCascadesSplit else Vec3(asset.twoCascadesSplit, 0.0, 0.0)
  }

  /** The settings CreatePipeline hands to the constructor, on a platform
      whose depth buffer is reversed or not. */
  function AssetConfig(asset: BasePipelineAsset, reversedZ: bool): PipelineConfig
  {
    PipelineConfig(asset.enableDynamicBatching, asset.enableInstancing, Pixels(asset.shadowMapSize),
                   asset.shadowDistance, CascadeCount(asset.shadowCascades), CascadeSplit(asset), reversedZ)
  }

  /** Batching, instancing, the atlas size in texels and the shadow distance
      pass through unchanged; the cascade count is the enum's value, one of
      0, 2 and 4; the split vector is the four-cascade one exactly when there
      are four cascades. The resulting settings meet what the per-camera
      pass needs: a positive atlas size and at most four cascades. */
  lemma AssetConfigPassesSettings(asset: BasePipelineAsset, reversedZ: bool)
    ensures var c := AssetConfig(asset, reversedZ);
            c.enableDynamicBatching == asset.enableDynamicBatching && c.enableInstancing == asset.enableInstancing &&
            c.shadowMapSize == Pixels(asset.shadowMapSize) && IsShadowMapPixels(c.shadowMapSize) &&
            c.shadowMapSize > 0 && c.shadowDistance == asset.shadowDistance && c.reversedZ == reversedZ &&
            (c.shadowCascades == 0 || c.shadowCascades == 2 || c.shadowCascades == 4) &&
            (c.shadowCascades == 4 <==> asset.shadowCascades == Four) &&
            (c.shadowCascades == 4 ==> c.shadowCascadeSplit == asset.fourCascadesSplit) &&
            (c.shadowCascades < 4 ==> c.shadowCascadeSplit == Vec3(asset.twoCascadesSplit, 0.0, 0.0))
  {
    var c := AssetConfig(asset, reversedZ);
    assert Pixels(asset.shadowMapSize) == c.shadowMapSize;
    if c.shadowCascades == 4 {
      assert asset.shadowCascades == Four;
    } else {
      assert asset.shadowCascades != Four;
    }
  }

  /** With the defaults the pipeline gets a 1024 atlas, a distance of 100 and
      four cascades split at 0.067, 0.2 and 0.467 of the distance: strictly
      increasing and inside (0, 1). */
  lemma DefaultAssetSettings(reversedZ: bool)
    ensures AssetConfig(DefaultAsset, reversedZ)
            == PipelineConfig(false, false, 1024, 100.0, 4, Vec3(0.067, 0.2, 0.467), reversedZ)
    ensures var v := AssetConfig(DefaultAsset, reversedZ).shadowCascadeSplit;
            0.0 < v.x < v.y < v.z < 1.0
  {
  }

  /** CreatePipeline: a new pipeline with the asset's settings, in the
      state the constructor leaves (valid and idle). */
  method CreatePipeline(asset: BasePipelineAsset, reversedZ: bool) returns (p: BasePipeline)
    ensures fresh(p) && p.Valid() && p.Idle()
    ensures p.Config() == AssetConfig(asset, reversedZ)
  {
    var split := CascadeSplit(asset);
    p := new BasePipeline(asset.enableDynamicBatching, asset.enableInstancing, asset.shadowMapSize,
                          asset.shadowDistance, CascadeCount(asset.shadowCascades), split, reversedZ);
  }
}
