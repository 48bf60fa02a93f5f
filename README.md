# XRP base render pipeline, modelled in Dafny

XRP is a scriptable render pipeline for Unity. Three files hold its runtime core:

- `BasePipelineAsset` holds the serialized settings and builds the pipeline from them.
- `BasePipeline` renders every camera each frame.
- `Utils` holds the shadow-map size enum.

For each camera the pipeline does the following:

1. It culls the scene.
2. It packs up to 16 visible lights into fixed-size shader arrays: colours, directions or positions, attenuations, spot directions and shadow data.
3. It picks a main light: the first directional light with positive shadow strength. When one exists, it renders the cascaded shadow map of visible light 0 into a 2×2 atlas. Visible light 0 is not necessarily the main light.
4. It renders the remaining spot and directional shadows into a second atlas. The shadow data gives each shadowed light its own tile, but every light's casters are drawn through tile (0, 0).
5. It publishes matrices, tile coordinates, sizes and keywords for the shaders.
6. It draws opaque geometry, the skybox and transparent geometry, and releases the shadow textures.

The project models all of this.

- **Settings** holds the `ShadowMapSize` and `ShadowCascades` enums and their numeric values.
- **ShadowMatrixMath** holds the vector and matrix algebra the shadow passes use. This covers the reversed-Z row-2 negation, the clip-to-texture scale-offset matrix and the tile remap.
- **ShadowTiles** covers the atlas split, tile offsets, viewports and scissors.
- **Engine** is the Unity interface. Culling results and shadow-matrix queries are inputs. `CommandBuffer` and `RenderContext` are classes. Every call that reaches the engine is appended to the context's log.
- **CommandLog** reads a log: which textures it takes and returns, which culls it asks for, and which keywords it leaves set.
- **LightConfig** specifies what ConfigureLights stores per light, which light becomes the main light and how many shadow tiles are counted.
- **AtlasShadows** and **CascadeShadows** specify the two shadow passes: the state each leaves and the log each writes.
- **CameraPass** specifies the camera part of a frame: clear, opaque, skybox and transparent.
- **Frame** composes all of the above into the effect of rendering one camera, and of a run over many cameras.
- **Pipeline** is the `BasePipeline` class. Its fields are the source's fields, with the light and shadow arrays as Dafny arrays. Each method is proved against the functions above.
- **PipelineAsset** models the asset and `CreatePipeline`.

Some behaviour of the code is followed as written:

- The shadow pass resets the viewport to the origin tile right after placing the light's tile. It then scissors relative to that origin tile. So every light's shadow is drawn through tile (0, 0), while its shadow data still records its own tile coordinates (`AtlasShadows.AtlasDrawsThroughOriginTile`).
- The remap of the atlas matrix into its tile is commented out in the source.
- The in-place row-2 negation and the negation inside `CalculateWorldToShadowMatrix` undo each other when reversed Z is on (`ShadowMatrixMath.CorrectionCancels`).
- The cascade pass always draws and queries light 0. It does not check whether that light's shadow data is set.
- The light arrays are never cleared between cameras. Slots beyond the current light count keep their old contents.
- The fifth cascade matrix slot starts as C#'s default `Matrix4x4`, which is all zeros. On a reversed-Z platform its m33 is then set to 1. The model follows the code (`CascadeShadows.Sentinel`).
- The colour clear flag is derived with a bit test, so it is also true for the `Depth` clear mode (`CameraPass.ClearsColor`).

## Model

| member | source | states |
|---|---|---|
| Settings.Pixels | Assets/XRP/Runtime/Core/Utils.cs:9-13 | every shadow-map size is between 256 and 4096 texels and divides 4096 |
| Settings.PixelsArePowersOfTwo | Assets/XRP/Runtime/Core/Utils.cs:9-13 | every shadow-map size is a power of two |
| Settings.EvenSplitsAreExact | Assets/XRP/Runtime/Core/BasePipeline.cs:495 | splitting the atlas into 1, 2 or 4 tiles per row wastes no texel |
| Settings.TilesFitAtlas | Assets/XRP/Runtime/Core/BasePipeline.cs:494-497 | for every split up to 4, the tiles fit the atlas and each tile is at least 64 texels wide |
| Settings.CascadeCount | Assets/XRP/Runtime/Core/BasePipeline.cs:6-11 | the cascade setting is 0, 2 or 4 cascades, and it is 0 only for `Zero` |
| ShadowMatrixMath.NegateRow2 | Assets/XRP/Runtime/Core/BasePipeline.cs:404-410 | the reversed-Z correction negates exactly the third row of the projection and keeps every other entry |
| ShadowMatrixMath.WorldToShadowRows | Assets/XRP/Runtime/Core/BasePipeline.cs:411-414 | the world-to-shadow matrix averages each of the x, y and z rows of projection × view with its w row and keeps the w row |
| ShadowMatrixMath.CorrectionCancels | Assets/XRP/Runtime/Core/BasePipeline.cs:592-609 | applying the correction twice gives back the original projection, so the atlas pass's doubled negation cancels |
| ShadowMatrixMath.ScaleOffsetMapsClipToTexture | Assets/XRP/Runtime/Core/BasePipeline.cs:411-414 | the scale-offset matrix maps clip space, -1..1 on each axis, onto texture space, 0..1 |
| ShadowMatrixMath.TileMatrixRows | Assets/XRP/Runtime/Core/BasePipeline.cs:449-455 | multiplying by the tile matrix halves the first two rows and adds the offset times the last row; the depth and w rows are unchanged |
| ShadowMatrixMath.TileRemapPlacesPointInTile | Assets/XRP/Runtime/Core/BasePipeline.cs:449-455 | a point the shadow matrix maps into the unit square lands, after the tile remap, in the quarter that starts at the tile offset |
| ShadowTiles.SplitFor | Assets/XRP/Runtime/Core/BasePipeline.cs:477-493 | the split is between 1 and 4; its square holds every tile count up to 16; a smaller split's square would not |
| ShadowTiles.SplitIsSmallest | Assets/XRP/Runtime/Core/BasePipeline.cs:477-493 | no split below the chosen one has room for the tile count |
| ShadowTiles.Offset | Assets/XRP/Runtime/Core/BasePipeline.cs:386-387 | the tile offset is the row-major position of the tile index: the column is below the split and row × split + column is the index |
| ShadowTiles.OffsetInGrid | Assets/XRP/Runtime/Core/BasePipeline.cs:383-390 | an index below split² lies inside the split × split grid |
| ShadowTiles.OffsetsDistinct | Assets/XRP/Runtime/Core/BasePipeline.cs:386-387 | different tile indices get different offsets |
| ShadowTiles.ScissorLeavesBorder | Assets/XRP/Runtime/Core/BasePipeline.cs:392-395 | the scissor is a square inside its viewport with a 4-texel border on every side, and it is non-empty exactly when the tile is wider than 8 |
| ShadowTiles.TileScissor | Assets/XRP/Runtime/Core/BasePipeline.cs:392-395 | the scissor starts 4 texels in from the viewport corner and is square; for a tile-sized viewport of at least 8 texels it lies inside the viewport with a 4-texel margin on the far sides too |
| ShadowTiles.TileInsideAtlas | Assets/XRP/Runtime/Core/BasePipeline.cs:388-390 | every tile viewport of the grid lies inside the atlas |
| ShadowTiles.TilesDisjoint | Assets/XRP/Runtime/Core/BasePipeline.cs:388-390 | viewports of different tiles do not overlap |
| ShadowTiles.AtlasSizeVector | Assets/XRP/Runtime/Core/BasePipeline.cs:638-639 | the published size vector holds 1/size twice and then size twice, so each of its first two components times each of its last two is 1 |
| LightConfig.ActiveLightCount | Assets/XRP/Runtime/Core/BasePipeline.cs:270-275 | at most 16 lights and at most the visible ones are configured; lights are left out only when 16 is reached |
| LightConfig.LightDirectionOrPosition | Assets/XRP/Runtime/Core/BasePipeline.cs:285-307 | a directional light stores its negated forward axis with w = 0; other lights store their position column |
| LightConfig.SpotDirection | Assets/XRP/Runtime/Core/BasePipeline.cs:312-318 | the spot direction is the negated forward axis, with w taken from the fourth row |
| LightConfig.RangeAttenuation | Assets/XRP/Runtime/Core/BasePipeline.cs:308 | the range factor is positive and is 1/range², with the range² denominator clamped at 0.00001 |
| LightConfig.AngleRange | Assets/XRP/Runtime/Core/BasePipeline.cs:324 | the spot angle range is innerCos − outerCos, clamped below at 0.001 |
| LightConfig.LightAttenuation | Assets/XRP/Runtime/Core/BasePipeline.cs:281-326 | directional lights get (0,0,0,1); point and spot lights get the range factor in x; spots get 1/angleRange in z and −outerCos/angleRange in w |
| LightConfig.SlotsAfter | Assets/XRP/Runtime/Core/BasePipeline.cs:270-333 | configuring the first k lights keeps every array at 16 slots |
| LightConfig.SlotsAfterEntries | Assets/XRP/Runtime/Core/BasePipeline.cs:270-333 | after k lights, slot j holds light j's data when j < k and its previous contents otherwise; the spot direction changes only for spot lights |
| LightConfig.ShadowVector | Assets/XRP/Runtime/Core/BasePipeline.cs:343-354 | a shadow-casting light with caster bounds gets (strength, soft ? 1 : 0, 0, 0); any other light gets zero |
| LightConfig.LightShadowData | Assets/XRP/Runtime/Core/BasePipeline.cs:284-329 | directional lights get their shadow vector with z = 1, spots get the plain vector, points get zero; z > 0 exactly for directional lights |
| LightConfig.IsMainCandidate | Assets/XRP/Runtime/Core/BasePipeline.cs:296-303 | a main-light candidate is a directional light with positive shadow strength, and such a light has always asked for a shadow tile |
| LightConfig.MainLightIndex | Assets/XRP/Runtime/Core/BasePipeline.cs:266-303 | the main light index is −1 or an index among the lights scanned |
| LightConfig.MainLightIsFirstCandidate | Assets/XRP/Runtime/Core/BasePipeline.cs:296-303 | the index is −1 exactly when no light qualifies; otherwise it is the first directional light with positive shadow strength |
| LightConfig.MainLightNeedsTile | Assets/XRP/Runtime/Core/BasePipeline.cs:296-303 | the main light is always a light that asked for a shadow tile |
| LightConfig.ShadowCasterCountBounds | Assets/XRP/Runtime/Core/BasePipeline.cs:347-349 | among k lights at most k count as shadow casters, and at least one does when one of them needs a tile |
| LightConfig.ShadowCasterCount | Assets/XRP/Runtime/Core/BasePipeline.cs:343-349 | no more lights are counted as shadow casters than were looked at |
| LightConfig.TileLightsMembers | Assets/XRP/Runtime/Core/BasePipeline.cs:343-349 | the list of tile lights holds exactly the lights below k that asked for a tile, each once and in increasing order |
| LightConfig.ShadowCasterCountIsCount | Assets/XRP/Runtime/Core/BasePipeline.cs:343-349 | the caster count after k lights is exactly the length of that list |
| LightConfig.MainLightCounted | Assets/XRP/Runtime/Core/BasePipeline.cs:296-303 | once a main light has been chosen, at least one caster has been counted, so taking it away never makes the count negative |
| LightConfig.TileCountAfter | Assets/XRP/Runtime/Core/BasePipeline.cs:266-303 | after k lights the tile count, casters minus the main light, is between 0 and k |
| LightConfig.ShadowTileCount | Assets/XRP/Runtime/Core/BasePipeline.cs:266-303 | the final tile count is between 0 and 16 and at most the number of visible lights |
| AtlasShadows.TileData | Assets/XRP/Runtime/Core/BasePipeline.cs:556-559 | placing a light in a tile keeps its shadow strength and softness |
| AtlasShadows.GetsTile | Assets/XRP/Runtime/Core/BasePipeline.cs:515-549 | a light gets a tile only if it is not the main light, its strength is positive and its matrices query succeeded |
| AtlasShadows.TilesBefore | Assets/XRP/Runtime/Core/BasePipeline.cs:510-555 | the loop hands out at most one tile per light it looks at |
| AtlasShadows.RenderedShadowData | Assets/XRP/Runtime/Core/BasePipeline.cs:526-559 | one step keeps the light's softness flag, keeps or zeroes its strength, and leaves a light it never queried untouched |
| AtlasShadows.RenderedMatrix | Assets/XRP/Runtime/Core/BasePipeline.cs:552-609 | one step changes the stored matrix only for a light that gets a tile |
| AtlasShadows.AtlasDataAfter | Assets/XRP/Runtime/Core/BasePipeline.cs:512-624 | the atlas loop keeps the shadow-data array at 16 slots |
| AtlasShadows.AtlasMatricesAfter | Assets/XRP/Runtime/Core/BasePipeline.cs:512-624 | the atlas loop keeps the matrix array at 16 slots |
| AtlasShadows.AtlasSlotsAfterEntries | Assets/XRP/Runtime/Core/BasePipeline.cs:512-624 | after k lights, slot j holds what light j's step produced when j < k, and is untouched otherwise |
| AtlasShadows.AtlasSlotsAfterLoop | Assets/XRP/Runtime/Core/BasePipeline.cs:512-624 | after the whole loop, every slot holds what its own light's step produced; stale slots beyond the light count keep their old matrix |
| AtlasShadows.AtlasOpsLength | Assets/XRP/Runtime/Core/BasePipeline.cs:512-624 | the atlas loop makes two engine calls per light with a tile |
| AtlasShadows.AtlasOpsShape | Assets/XRP/Runtime/Core/BasePipeline.cs:552-587 | the two calls for a light with a tile sit at twice its tile index: its tile commands, then the draw of its shadow casters with its split data |
| AtlasShadows.TilesBeforeGrows | Assets/XRP/Runtime/Core/BasePipeline.cs:510-555 | the running tile index never decreases, and it strictly increases past a light that got a tile |
| AtlasShadows.TilesAreCompact | Assets/XRP/Runtime/Core/BasePipeline.cs:510-555 | every tile index below the running count belongs to some earlier light |
| AtlasShadows.TileIndicesDistinct | Assets/XRP/Runtime/Core/BasePipeline.cs:552-555 | two lights that both get tiles get different tile indices and different tiles |
| AtlasShadows.TilesBeforeCountsCasters | Assets/XRP/Runtime/Core/BasePipeline.cs:510-555 | tiles handed out plus the main light never exceed the shadow casters counted by ConfigureLights |
| AtlasShadows.AtlasTilesFit | Assets/XRP/Runtime/Core/BasePipeline.cs:477-497 | the tiles handed out fit the split chosen from the shadow tile count: every tile lies in the split × split grid |
| AtlasShadows.TileCoordinatesInUnitSquare | Assets/XRP/Runtime/Core/BasePipeline.cs:556-559 | a light's published tile coordinates are its tile's column and row divided by the split, both in [0, 1), with strength and softness kept |
| AtlasShadows.TileDataInUnitSquare | Assets/XRP/Runtime/Core/BasePipeline.cs:556-559 | for any tile inside the grid, scaling by 1/split gives coordinates in [0, 1) |
| AtlasShadows.AtlasOpsAreShadowWork | Assets/XRP/Runtime/Core/BasePipeline.cs:512-624 | the atlas loop takes and returns no texture, asks for no cull and leaves no keyword set |
| AtlasShadows.TileCommandsLeaveKeywords | Assets/XRP/Runtime/Core/BasePipeline.cs:552-582 | one tile's commands touch no keyword |
| AtlasShadows.AtlasDrawsThroughOriginTile | Assets/XRP/Runtime/Core/BasePipeline.cs:552-580 | whatever tile a light gets, its draw runs with the viewport at the origin tile and the scissor at that tile's inner square |
| AtlasShadows.AtlasFrameEffects | Assets/XRP/Runtime/Core/BasePipeline.cs:474-646 | the atlas pass takes exactly its own texture, returns none, asks for no cull, sets the soft-shadows keyword from light 0 and leaves the cascade keywords alone |
| AtlasShadows.AtlasPublishContents | Assets/XRP/Runtime/Core/BasePipeline.cs:626-645 | the publish hands the engine the atlas texture, the matrices and the shadow data it was given, and leaves the soft-shadows keyword as light 0's shadow type says |
| CascadeShadows.CascadeRequest | Assets/XRP/Runtime/Core/BasePipeline.cs:434-438 | every cascade query asks for light 0, the cascade's index, the configured count, the tile resolution and light 0's near plane |
| CascadeShadows.CascadeTile | Assets/XRP/Runtime/Core/BasePipeline.cs:440-441 | cascade i goes to column i mod 2 and row i div 2 of a 2 × 2 grid |
| CascadeShadows.CascadeSphere | Assets/XRP/Runtime/Core/BasePipeline.cs:446-447 | the stored culling sphere keeps the centre and holds the squared radius |
| CascadeShadows.CascadeMatrixRows | Assets/XRP/Runtime/Core/BasePipeline.cs:449-455 | the stored cascade matrix is the clip-to-texture matrix with its x and y rows halved and shifted by half the cascade's column and row times the w row; the z and w rows are kept |
| CascadeShadows.SpheresAfter | Assets/XRP/Runtime/Core/BasePipeline.cs:430-456 | the cascade loop keeps the sphere array at 4 slots |
| CascadeShadows.CascadeMatricesAfter | Assets/XRP/Runtime/Core/BasePipeline.cs:430-456 | the cascade loop keeps the matrix array at 5 slots |
| CascadeShadows.CascadeSlotsAfterEntries | Assets/XRP/Runtime/Core/BasePipeline.cs:430-456 | after k cascades, sphere and matrix slot j hold cascade j's values when j < k, and are untouched otherwise, including slot 4 |
| CascadeShadows.CascadeOpsShape | Assets/XRP/Runtime/Core/BasePipeline.cs:430-456 | the cascade loop makes two engine calls per cascade, in cascade order: the cascade's tile commands, then the draw of light 0's casters with that cascade's split data |
| CascadeShadows.Sentinel | Assets/XRP/Runtime/Core/BasePipeline.cs:76-81 | slot 4 is the zero matrix, except that m33 is 1 on a reversed-Z platform |
| CascadeShadows.CascadeViewportsPartitionAtlas | Assets/XRP/Runtime/Core/BasePipeline.cs:419-440 | the four cascade viewports lie inside an atlas twice the tile size and do not overlap |
| CascadeShadows.CascadeMatrixSamplesQuadrant | Assets/XRP/Runtime/Core/BasePipeline.cs:449-455 | a point a cascade's shadow matrix maps into the unit square lands inside that cascade's quadrant |
| CascadeShadows.CascadeOpsAreShadowWork | Assets/XRP/Runtime/Core/BasePipeline.cs:430-456 | the cascade loop takes and returns no texture, asks for no cull and leaves no keyword set |
| CascadeShadows.CascadeCommandsLeaveKeywords | Assets/XRP/Runtime/Core/BasePipeline.cs:440-441 | one cascade's commands touch no keyword |
| CascadeShadows.CascadePublishKeywords | Assets/XRP/Runtime/Core/BasePipeline.cs:458-471 | publishing enables exactly one of the hard and soft cascade keywords, chosen by light 0's shadow type, and leaves the soft-shadow keyword alone |
| CascadeShadows.CascadePublishContents | Assets/XRP/Runtime/Core/BasePipeline.cs:458-471 | the publish hands the engine the cascade atlas, the culling spheres and the cascade matrices it was given |
| CascadeShadows.CascadeFrameEffects | Assets/XRP/Runtime/Core/BasePipeline.cs:417-472 | the cascade pass takes exactly its own texture, returns none, asks for no cull and sets the cascade keywords from light 0 |
| CameraPass.Min | Assets/XRP/Runtime/Core/BasePipeline.cs:118 | the cull distance is the smaller of the shadow distance and the far plane |
| CameraPass.ClearsDepth | Assets/XRP/Runtime/Core/BasePipeline.cs:162-171 | depth is cleared for every clear mode except Nothing |
| CameraPass.ClearsColor | Assets/XRP/Runtime/Core/BasePipeline.cs:162-171 | colour is cleared for SolidColor and, through the bit test, for Depth too |
| CameraPass.Resets | Assets/XRP/Runtime/Core/BasePipeline.cs:139-153 | the queued resets only disable keywords: all three with no lights, the two cascade keywords with lights but no main light, and none otherwise |
| CameraPass.CameraOps | Assets/XRP/Runtime/Core/BasePipeline.cs:158-217 | a camera pass sets up the camera, clears after the queued keyword resets, draws opaque with the batching settings, then the skybox only in Skybox mode, then transparent, then flushes an empty buffer |
| CameraPass.CameraOpsEffects | Assets/XRP/Runtime/Core/BasePipeline.cs:158-217 | the camera pass takes no texture, returns none, asks for no cull and leaves every keyword as the queued resets do |
| CameraPass.CameraOpsTextures | Assets/XRP/Runtime/Core/BasePipeline.cs:158-217 | the camera pass takes no texture, returns none and asks for no cull |
| CameraPass.CameraOpsKeyword | Assets/XRP/Runtime/Core/BasePipeline.cs:158-217 | each keyword ends as the queued resets leave it |
| CameraPass.ReleasesEffects | Assets/XRP/Runtime/Core/BasePipeline.cs:219-230 | the releases return exactly the shadow textures held, take none and change no keyword |
| Frame.LightArrayUpload | Assets/XRP/Runtime/Core/BasePipeline.cs:334-340 | uploading the light arrays touches no keyword |
| Frame.LitAtlas | Assets/XRP/Runtime/Core/BasePipeline.cs:474-512 | the atlas pass always runs on a well-formed input built from the current culling result |
| Frame.LitState | Assets/XRP/Runtime/Core/BasePipeline.cs:131-147 | after a lit camera, the main light and tile count are those of the culling result, and cascade slot 4 is unchanged |
| Frame.LitStepsCompose | Assets/XRP/Runtime/Core/BasePipeline.cs:131-147 | configuring the lights, the cascade pass and the atlas pass together give the lit state and the shadow part of the log |
| Frame.NextState | Assets/XRP/Runtime/Core/BasePipeline.cs:109-231 | rendering a camera keeps every array at its size and never changes cascade slot 4 |
| Frame.RunCameras | Assets/XRP/Runtime/Core/BasePipeline.cs:97-107 | rendering cameras in turn keeps the state sized and cascade slot 4 fixed |
| Frame.ShadowOpsEffects | Assets/XRP/Runtime/Core/BasePipeline.cs:131-147 | the shadow part of a frame takes the atlas, and the cascade map only when there is a main light; it returns neither, and sets the keywords from light 0 |
| Frame.FrameEffects | Assets/XRP/Runtime/Core/BasePipeline.cs:109-231 | a camera returns every texture it takes and culls once at the clamped distance when it supports culling; with no lights all keywords end disabled; otherwise they follow light 0 and the main light |
| Frame.FrameCullRequests | Assets/XRP/Runtime/Core/BasePipeline.cs:113-129 | a camera asks for one cull at the clamped distance when it supports culling, and none otherwise |
| Frame.FrameReturnsTextures | Assets/XRP/Runtime/Core/BasePipeline.cs:219-230 | a camera returns exactly the textures it takes |
| Frame.FrameTexturesFresh | Assets/XRP/Runtime/Core/BasePipeline.cs:131-147 | a camera's textures are the next 0, 1 or 2 fresh handles: none without culling or lights, the atlas always, the cascade map only with a main light |
| Frame.RunReturnsTextures | Assets/XRP/Runtime/Core/BasePipeline.cs:97-107 | over any number of cameras every texture taken is returned, and all are fresh handles |
| Frame.RunCullRequests | Assets/XRP/Runtime/Core/BasePipeline.cs:97-118 | a run asks for one cull per culling camera, in camera order, each at that camera's clamped distance |
| Pipeline.ZeroVectors | Assets/XRP/Runtime/Core/BasePipeline.cs:45-50 | a new vector array holds n zero vectors |
| Pipeline.ZeroMatrices | Assets/XRP/Runtime/Core/BasePipeline.cs:49 | a new matrix array holds n zero matrices |
| Pipeline.CascadeMatrixSlots | Assets/XRP/Runtime/Core/BasePipeline.cs:76-81 | the cascade matrix array has 5 slots: four zero matrices and the sentinel |
| Pipeline.BasePipeline.constructor | Assets/XRP/Runtime/Core/BasePipeline.cs:62-82 | the settings are stored, the shadow-map size in texels; every array is zero except the sentinel; the pipeline is valid and idle |
| Pipeline.BasePipeline.RenderCameras | Assets/XRP/Runtime/Core/BasePipeline.cs:97-107 | the cameras are rendered in order and the context is submitted; state, texture handles and log are those of the run |
| Pipeline.BasePipeline.RenderNextCamera | Assets/XRP/Runtime/Core/BasePipeline.cs:99-105 | one loop step extends the run by the next camera |
| Pipeline.BasePipeline.Render | Assets/XRP/Runtime/Core/BasePipeline.cs:109-231 | the new state, texture handles and log are those of one frame for the camera |
| Pipeline.BasePipeline.RenderWithLights | Assets/XRP/Runtime/Core/BasePipeline.cs:129-147 | with visible lights, the camera culls, renders the shadow part and the camera pass, and releases both shadow textures |
| Pipeline.BasePipeline.RenderWithoutLights | Assets/XRP/Runtime/Core/BasePipeline.cs:148-153 | with no visible lights, the camera culls, resets all keywords and renders the camera pass; light state is kept and no texture is taken |
| Pipeline.BasePipeline.FinishCamera | Assets/XRP/Runtime/Core/BasePipeline.cs:155-230 | the camera pass runs after the queued commands, then the held shadow textures are released; light state is kept |
| Pipeline.BasePipeline.RenderLightsAndShadows | Assets/XRP/Runtime/Core/BasePipeline.cs:131-147 | configuring lights and rendering both shadow passes gives the lit state and the shadow log, and holds the right textures |
| Pipeline.BasePipeline.RenderShadowMaps | Assets/XRP/Runtime/Core/BasePipeline.cs:134-146 | the cascade pass runs only with a main light and the atlas pass always; the arrays end as those two passes specify |
| Pipeline.BasePipeline.RenderCamera | Assets/XRP/Runtime/Core/BasePipeline.cs:158-217 | the camera pass is logged after the queued commands and the buffer is cleared |
| Pipeline.BasePipeline.ReleaseShadowMaps | Assets/XRP/Runtime/Core/BasePipeline.cs:219-230 | each shadow texture held is released and forgotten |
| Pipeline.BasePipeline.ConfigureShadows | Assets/XRP/Runtime/Core/BasePipeline.cs:343-354 | returns the light's shadow vector and counts a tile exactly when the light casts shadows |
| Pipeline.BasePipeline.ConfigureLight | Assets/XRP/Runtime/Core/BasePipeline.cs:276-332 | stores light i's slot data and tracks the main light and tile count as the specification functions say |
| Pipeline.BasePipeline.ConfigureLights | Assets/XRP/Runtime/Core/BasePipeline.cs:263-341 | the slots become those after all configured lights, with the main light and tile count of the culling result, and the arrays are uploaded |
| Pipeline.BasePipeline.SetShadowRenderTarget | Assets/XRP/Runtime/Core/BasePipeline.cs:357-379 | takes a fresh texture of the shadow-map size and queues it as the render target |
| Pipeline.BasePipeline.ConfigureShadowTile | Assets/XRP/Runtime/Core/BasePipeline.cs:383-397 | returns the tile's offset and queues its viewport and bordered scissor |
| Pipeline.BasePipeline.CalculateWorldToShadowMatrix | Assets/XRP/Runtime/Core/BasePipeline.cs:402-415 | negates row 2 of the projection exactly when reversed Z is on, and returns scale-offset × corrected projection × view |
| Pipeline.BasePipeline.RenderCascadedShadows | Assets/XRP/Runtime/Core/BasePipeline.cs:417-472 | takes a fresh texture, stores every cascade's sphere and matrix, keeps slot 4, and logs the cascade pass |
| Pipeline.BasePipeline.RenderCascadeTiles | Assets/XRP/Runtime/Core/BasePipeline.cs:430-456 | the cascade loop leaves the spheres and matrices the loop functions give, and logs each cascade in order |
| Pipeline.BasePipeline.BeginCascades | Assets/XRP/Runtime/Core/BasePipeline.cs:419-428 | takes a fresh texture, targets it and queues light 0's depth bias |
| Pipeline.BasePipeline.RenderCascade | Assets/XRP/Runtime/Core/BasePipeline.cs:432-455 | one cascade stores its sphere and matrix in slot i only, logs its tile and draw, and returns its tile matrix |
| Pipeline.BasePipeline.StoreCascadeSphere | Assets/XRP/Runtime/Core/BasePipeline.cs:446-447 | writes cascade i's sphere into slot i and nowhere else |
| Pipeline.BasePipeline.StoreCascadeMatrix | Assets/XRP/Runtime/Core/BasePipeline.cs:449-455 | writes cascade i's remapped matrix into slot i only and returns the tile matrix for its quadrant |
| Pipeline.BasePipeline.PublishCascades | Assets/XRP/Runtime/Core/BasePipeline.cs:458-471 | flushes the queued commands followed by the published cascade data and keywords |
| Pipeline.BasePipeline.RenderShadows | Assets/XRP/Runtime/Core/BasePipeline.cs:474-646 | takes a fresh texture, leaves the shadow data and matrices the atlas loop functions give, and logs the atlas pass |
| Pipeline.BasePipeline.RenderAtlasTiles | Assets/XRP/Runtime/Core/BasePipeline.cs:512-624 | the atlas loop leaves the arrays the loop functions give, and logs each light's tile in order |
| Pipeline.BasePipeline.BeginAtlas | Assets/XRP/Runtime/Core/BasePipeline.cs:495-508 | takes a fresh texture and sends the setup commands: the global shadow data and the render target |
| Pipeline.BasePipeline.RenderShadowTile | Assets/XRP/Runtime/Core/BasePipeline.cs:513-623 | one light's step changes only its own slots and advances the tile index as the loop functions say |
| Pipeline.BasePipeline.RenderAttemptedLight | Assets/XRP/Runtime/Core/BasePipeline.cs:529-609 | a light that asked for shadows is queried, then zeroed or drawn, and only its own slots change |
| Pipeline.BasePipeline.RenderGrantedTile | Assets/XRP/Runtime/Core/BasePipeline.cs:552-609 | a light that gets a tile records its tile data and matrix and logs its tile |
| Pipeline.BasePipeline.QueryShadowMatrices | Assets/XRP/Runtime/Core/BasePipeline.cs:532-542 | directional lights (z > 0) are queried as a single cascade, spot lights as spots |
| Pipeline.BasePipeline.DrawShadowTile | Assets/XRP/Runtime/Core/BasePipeline.cs:552-609 | records the tile coordinates and matrix in slot i only, and logs the tile viewport, the origin viewport and scissor, the matrices and one draw |
| Pipeline.BasePipeline.StoreShadowMatrix | Assets/XRP/Runtime/Core/BasePipeline.cs:592-609 | writes the world-to-shadow matrix into slot i only |
| Pipeline.BasePipeline.PublishAtlas | Assets/XRP/Runtime/Core/BasePipeline.cs:626-645 | flushes the queued commands with the published matrices, data, texture, size and soft keyword |
| Pipeline.BasePipeline.SendLightArrays | Assets/XRP/Runtime/Core/BasePipeline.cs:334-340 | flushes the queued commands followed by the four light arrays |
| PipelineAsset.CascadeSplit | Assets/XRP/Runtime/Core/BasePipelineAsset.cs:30 | the four-cascade split with four cascades, otherwise the two-cascade split in x and zeros |
| PipelineAsset.AssetConfigPassesSettings | Assets/XRP/Runtime/Core/BasePipelineAsset.cs:28-32 | the asset's settings reach the pipeline unchanged; the size in texels is a valid shadow-map size; cascades are 0, 2 or 4 and select the split |
| PipelineAsset.DefaultAssetSettings | Assets/XRP/Runtime/Core/BasePipelineAsset.cs:13-26 | the defaults give a 1024 atlas, distance 100 and four cascades whose splits increase strictly inside (0, 1) |
| PipelineAsset.CreatePipeline | Assets/XRP/Runtime/Core/BasePipelineAsset.cs:28-32 | returns a new, valid, idle pipeline built from the asset's settings |

## Left out

- **Unity services:** culling, the shadow-matrix queries and drawing are inputs, not models. `ComputeSpotShadowMatricesAndCullingPrimitives`, `ComputeDirectionalShadowMatricesAndCullingPrimitives` and `GetShadowCasterBounds` are functions inside the culling result. Draw calls are logged but not rasterised.
- **Texture details:** temporary textures are numbered handles. Depth bits, format, filter mode and wrap mode are not modelled. Neither are the render target's load and store actions.
- **Culling per camera:** each camera's culling result is given as an input alongside it. `TryGetCullingParameters` succeeding is the camera's `cullingSupported` flag.
- **Platform query:** whether the platform uses a reversed depth buffer is a parameter of the pipeline. The model does not query it.
- **Spot-cone trigonometry:** the outer and inner cone cosines are the light's inputs. The model does not compute cos and atan of the spot angle.
- **Floating point:** numbers are real numbers. Float rounding is not modelled.
- **Gamma/linear intensity:** `GraphicsSettings.lightsUseLinearIntensity` is a global engine setting, so the model does not capture it.
- **Editor-only code:** `EmitWorldGeometryForSceneView`, the profiler samples (`BeginSample`/`EndSample`), the error-shader `DrawDefaultPipeline` and the asset editor script are editor-only or diagnostic. They are not part of this model.
- **Unused local:** the scale-offset matrix built at lines 605-608 is never read, so the model leaves it out.
- **Texel arithmetic:** tile viewports, scissors and offsets are whole numbers held in C# floats. The model uses integers for them.
- Pipeline.BasePipeline.constructor: requires `0 <= shadowCascades <= 4`. The source accepts any integer, but `CreatePipeline` only ever passes 0, 2 or 4.
- Pipeline.BasePipeline.Render: the model does not capture the camera's transforms. Their effect is inside the culling result and the shadow-matrix queries.
