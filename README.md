# Directional shadow atlas and camera frame of a custom render pipeline

This project models two parts of a Unity scriptable render pipeline: the
shadow pass for directional lights (`Shadows.cs`) and the per-camera frame
sequence (`CameraRenderer.cs`).

**The shadow pass.**
- It reserves shadow slots for up to four directional lights per frame.
- It splits a square shadow atlas into 1, 2 or 4 tiles per side, one tile per (light, cascade) pair.
- It renders each cascade into its tile, storing the cascade's view-projection matrix remapped into the tile.
- Light 0's squared culling spheres go into a shared array.
- It uploads these arrays for the shaders, and releases the atlas at cleanup.

**The camera frame.**
- The frame culls the camera's view and abandons the frame if that is impossible.
- It then sets up lighting and shadows, sets up the camera and clears the target by the camera's clear flags.
- It draws opaque geometry, the skybox and transparent geometry.
- Finally it cleans up lighting and submits.

**Modules.**
- `Linear` (`linear.dfy`): the 4x4 matrix and vector arithmetic the atlas remap uses, over exact reals.
- `Sequences` (`sequences.dfy`): the regrouping of concatenations that the trace proofs name.
- `ShadowAtlas` (`shadow_atlas.dfy`): the pure geometry.
  - split and tile size;
  - tile offsets and viewports, and that tiles fit the atlas without overlapping;
  - `ConvertToAtlasMatrix`, and where a remapped point lands.
- `DirectionalShadows` (`directional_shadows.dfy`): class `Shadows`.
  - The fixed-size arrays `shadowedDirectionalLights` (4), `dirShadowMatrices` (16) and `cascadeCullingSpheres` (4).
  - The slot counter.
  - Two command traces: `buffer` holds commands recorded in the command buffer; `executed` holds commands the render context has run, in order.
  - Recursive specification functions (`LightMatrices`, `AtlasMatrices`, `LightSpheres`, `CascadeCommands`, `AtlasCommands`) state what each loop leaves in the arrays and the trace.
- `CameraRendering` (`camera_rendering.dfy`): class `CameraRenderer`.
  - `context` is the render context's trace and `buffer` holds the pending commands.
  - `FrameCommands` is the full frame. Lemmas state its stage order and the order of its profiler samples.

Engine services become values:
- the caster-bounds query and the cascade computation are total functions carried by `CullingResults`;
- `TryGetCullingParameters` is a flag of the camera;
- every engine call that draws, clears, sets state or submits becomes a command token in a trace.

## Model

| member | source | states |
|---|---|---|
| ShadowAtlas.Split | CustomRP/Assets/Scripts/CustomRP/Runtime/Shadows.cs:92-93 | the split is 1, 2 or 4; up to 16 tiles fit in split x split cells; the split exceeds 1 only for more than one tile and exceeds 2 only for more than four |
| ShadowAtlas.TileSize | CustomRP/Assets/Scripts/CustomRP/Runtime/Shadows.cs:94 | tileSize * split <= atlasSize < (tileSize + 1) * split: the largest tile of which split fit the side |
| ShadowAtlas.TileOffset | CustomRP/Assets/Scripts/CustomRP/Runtime/Shadows.cs:142-144 | the offset is the tile's grid cell: column below split, and index == row * split + column |
| ShadowAtlas.TileRect | CustomRP/Assets/Scripts/CustomRP/Runtime/Shadows.cs:142-146 | the viewport is tileSize x tileSize, its corner lies on the tile grid in a column below split, and the tile number reads back from the corner as row * split + column. TileWithinAtlas, TilesDisjoint and TileBeyondGridLeavesAtlas add that grid tiles fit the atlas, never overlap, and tiles past the grid leave it |
| ShadowAtlas.TileWithinAtlas | CustomRP/Assets/Scripts/CustomRP/Runtime/Shadows.cs:142-146 | the viewport of every tile numbered below split * split lies inside the atlas |
| ShadowAtlas.TileBeyondGridLeavesAtlas | CustomRP/Assets/Scripts/CustomRP/Runtime/Shadows.cs:142-146 | a tile numbered split * split or more has a viewport outside the atlas, for an atlas side that split divides and tiles at least one pixel wide |
| ShadowAtlas.TilesDisjoint | CustomRP/Assets/Scripts/CustomRP/Runtime/Shadows.cs:142-146 | the viewports of two different tiles share no pixel |
| ShadowAtlas.TileIndexDecomposes | CustomRP/Assets/Scripts/CustomRP/Runtime/Shadows.cs:113-131 | tile index lightIndex * cascadeCount + cascade divides back into that light and cascade |
| ShadowAtlas.TileIndexBelowMaxTiles | CustomRP/Assets/Scripts/CustomRP/Runtime/Shadows.cs:19-132 | with four lights of at most four cascades, every tile index written is below 16, the matrix array's length |
| ShadowAtlas.ConvertToAtlasMatrix | CustomRP/Assets/Scripts/CustomRP/Runtime/Shadows.cs:151-170 | row 3 is unchanged; row 2 is negated under a reversed depth buffer and unchanged otherwise |
| ShadowAtlas.RemappedRow | CustomRP/Assets/Scripts/CustomRP/Runtime/Shadows.cs:160-168 | a remapped row 0 or 1, applied to a point, gives (0.5 (row.v + row3.v) + offset * row3.v) / split |
| ShadowAtlas.AtlasMatrixRemapsPoint | CustomRP/Assets/Scripts/CustomRP/Runtime/Shadows.cs:151-170 | the remapped matrix keeps a projected point's w, negates its z under reversed Z, and maps x and y from [-w, w] into the tile's slice |
| ShadowAtlas.ProjectedPointLandsInTile | CustomRP/Assets/Scripts/CustomRP/Runtime/Shadows.cs:132-170 | a point inside the light's clip volume lands, through the atlas matrix, inside its tile's share of the atlas |
| DirectionalShadows.Shadows.constructor | CustomRP/Assets/Scripts/CustomRP/Runtime/Shadows.cs:19-40 | the three arrays are fresh, of lengths 4, 16 and 4, zero-filled; no slot is taken; both traces are empty |
| DirectionalShadows.Shadows.Setup | CustomRP/Assets/Scripts/CustomRP/Runtime/Shadows.cs:41-47 | the frame's culling results and settings are stored and the slot count is reset to 0 |
| DirectionalShadows.Shadows.ExecuteBuffer | CustomRP/Assets/Scripts/CustomRP/Runtime/Shadows.cs:49-53 | the context runs the buffer's commands in order and the buffer becomes empty |
| DirectionalShadows.Shadows.ReserveDirectionalShadows | CustomRP/Assets/Scripts/CustomRP/Runtime/Shadows.cs:55-69 | if a slot is free, the light casts shadows, its strength is positive and it has caster bounds: it is stored at slot old count, the count rises by one and the result is (strength, cascadeCount * old count). Otherwise count and slots are unchanged and the result is zero. The count never exceeds 4 |
| DirectionalShadows.Shadows.Render | CustomRP/Assets/Scripts/CustomRP/Runtime/Shadows.cs:71-81 | corrected: with no reserved light a 1x1 atlas is got and held; otherwise the atlas pass over the reserved lights runs and an atlasSize x atlasSize atlas is held |
| DirectionalShadows.Shadows.RenderAsWritten | CustomRP/Assets/Scripts/CustomRP/Runtime/Shadows.cs:71-98 | as written: with no reserved light the 1x1 request stays in the buffer and nothing runs; otherwise the atlas pass visits all four slots |
| DirectionalShadows.Shadows.RenderDirectionalShadows | CustomRP/Assets/Scripts/CustomRP/Runtime/Shadows.cs:83-106 | the context runs the atlas get and clear, every visited light's tile commands and the upload. The matrix array equals AtlasMatrices and the sphere array equals light 0's LightSpheres |
| DirectionalShadows.Shadows.RenderTiles | CustomRP/Assets/Scripts/CustomRP/Runtime/Shadows.cs:95-98 | the light loop leaves trace, matrices and spheres as AtlasCommands, AtlasMatrices and LightSpheres of the visited slots state |
| DirectionalShadows.Shadows.RenderDirectionalShadowsForLight | CustomRP/Assets/Scripts/CustomRP/Runtime/Shadows.cs:108-140 | one light's cascade loop leaves trace, matrices and (slot 0 only) spheres as CascadeCommands, LightMatrices and LightSpheres state |
| DirectionalShadows.Shadows.RenderCascade | CustomRP/Assets/Scripts/CustomRP/Runtime/Shadows.cs:116-139 | one cascade: tile index in range. It sets that tile's viewport, the view and projection and the shadow draw, in that order. Only that tile's matrix changes, to the remapped projection * view. Only slot 0 writes sphere i, with radius squared |
| DirectionalShadows.Shadows.Cleanup | CustomRP/Assets/Scripts/CustomRP/Runtime/Shadows.cs:173-177 | the release runs after any pending commands, and afterwards no atlas is held |
| DirectionalShadows.AtlasPassHoldsAtlas | CustomRP/Assets/Scripts/CustomRP/Runtime/Shadows.cs:86-105 | once a whole atlas pass has run, the atlas it got is the one held |
| DirectionalShadows.HeldAfterIgnores | CustomRP/Assets/Scripts/CustomRP/Runtime/Shadows.cs:86-175 | commands that neither get nor release the atlas do not change which atlas is held |
| DirectionalShadows.CascadeCommandsKeepAtlas | CustomRP/Assets/Scripts/CustomRP/Runtime/Shadows.cs:116-139 | no command of a light's cascade loop gets or releases the atlas |
| DirectionalShadows.AtlasCommandsKeepAtlas | CustomRP/Assets/Scripts/CustomRP/Runtime/Shadows.cs:95-98 | no command of the light loop gets or releases the atlas |
| DirectionalShadows.LightMatrices | CustomRP/Assets/Scripts/CustomRP/Runtime/Shadows.cs:116-133 | the matrix array keeps its 16 entries through a light's cascade loop |
| DirectionalShadows.AtlasMatrices | CustomRP/Assets/Scripts/CustomRP/Runtime/Shadows.cs:95-98 | the matrix array keeps its 16 entries through the light loop |
| DirectionalShadows.LightSpheres | CustomRP/Assets/Scripts/CustomRP/Runtime/Shadows.cs:125-130 | the sphere array keeps its 4 entries through the cascade loop |
| DirectionalShadows.LightMatricesAt | CustomRP/Assets/Scripts/CustomRP/Runtime/Shadows.cs:113-133 | after n cascades of the light in slot l, tile t holds TileMatrix(t) if l * cascadeCount <= t < l * cascadeCount + n, and its earlier matrix otherwise |
| DirectionalShadows.AtlasMatricesAt | CustomRP/Assets/Scripts/CustomRP/Runtime/Shadows.cs:95-133 | after the first slots lights, tile t holds TileMatrix(t) (light t / cascadeCount, cascade t % cascadeCount) if t < slots * cascadeCount, and its earlier matrix otherwise |
| DirectionalShadows.LightSpheresAt | CustomRP/Assets/Scripts/CustomRP/Runtime/Shadows.cs:125-130 | after n cascades, sphere c is cascade c's culling sphere with w squared if c < n, and unchanged otherwise |
| DirectionalShadows.CascadeCommandsAt | CustomRP/Assets/Scripts/CustomRP/Runtime/Shadows.cs:116-139 | a light's commands number 3 per cascade. Cascade i owns positions 3i, 3i+1 and 3i+2: its tile's viewport, its view and projection, and its draw |
| DirectionalShadows.AtlasCommandsAt | CustomRP/Assets/Scripts/CustomRP/Runtime/Shadows.cs:95-137 | in a pass over slots lights, tile t owns positions 3t, 3t+1 and 3t+2: tile t's viewport, the view and projection computed for light t / cascadeCount's cascade t % cascadeCount, and that cascade's shadow draw |
| DirectionalShadows.ViewportsAreTiles | CustomRP/Assets/Scripts/CustomRP/Runtime/Shadows.cs:131-146 | every viewport in a pass sits at a position 3t and is tile t's viewport |
| DirectionalShadows.ReservedTilesPackAtlas | CustomRP/Assets/Scripts/CustomRP/Runtime/Shadows.cs:92-146 | over the reserved lights only, every viewport lies inside the atlas and no two viewports share a pixel |
| DirectionalShadows.AsWrittenLoopLeavesAtlas | CustomRP/Assets/Scripts/CustomRP/Runtime/Shadows.cs:92-146 | when four lights' tiles exceed the grid chosen for the reserved count, the as-written loop sets the viewport of tile split * split outside the atlas |
| DirectionalShadows.AsWrittenOneLightExample | CustomRP/Assets/Scripts/CustomRP/Runtime/Shadows.cs:92-146 | one light, one cascade, 1024-pixel atlas: the as-written loop's second viewport is Rect(0, 1024, 1024, 1024), outside the atlas |
| CameraRendering.ShadowDistance | CustomRP/Assets/Scripts/CustomRP/Runtime/CameraRenderer.cs:100 | the culling shadow distance is the smaller of the configured maximum and the far plane: at most each, and equal to one |
| CameraRendering.ClearFor | CustomRP/Assets/Scripts/CustomRP/Runtime/CameraRenderer.cs:47-50 | depth is cleared iff the flags are not Nothing; colour is cleared iff they are Skybox or Color; the clear colour is the background's linear colour for Color and transparent black otherwise |
| CameraRendering.FrameCommands | CustomRP/Assets/Scripts/CustomRP/Runtime/CameraRenderer.cs:22-43 | a frame issues nothing iff the camera yields no culling parameters; otherwise it starts with the cull at min(max shadow distance, far plane) and ends with the submit |
| CameraRendering.FrameFollowsStageOrder | CustomRP/Assets/Scripts/CustomRP/Runtime/CameraRenderer.cs:28-90 | a culled frame, samples aside, goes through cull, lighting setup, camera setup, clear, opaque draw, skybox, transparent draw, the two editor draws, lighting cleanup, submit, each once and in this order |
| CameraRendering.StagesAppend | CustomRP/Assets/Scripts/CustomRP/Runtime/CameraRenderer.cs:22-43 | the stage sequence of two traces run one after the other is the first's stages followed by the second's |
| CameraRendering.StagesOfCameraSetup | CustomRP/Assets/Scripts/CustomRP/Runtime/CameraRenderer.cs:45-53 | the camera setup is the camera-properties stage followed by the clear |
| CameraRendering.StagesOfGeometry | CustomRP/Assets/Scripts/CustomRP/Runtime/CameraRenderer.cs:55-84 | the geometry is the opaque draw, then the skybox, then the transparent draw |
| CameraRendering.FrameClosesItsSamples | CustomRP/Assets/Scripts/CustomRP/Runtime/CameraRenderer.cs:32-87 | the profiler-sample commands of a culled frame are exactly begin, end, begin, end of the "Render Camera" sample, so no sample is closed before it is opened and every opened sample is closed; the net sample depth of any frame is 0 |
| CameraRendering.SampleDepthOfPhases | CustomRP/Assets/Scripts/CustomRP/Runtime/CameraRenderer.cs:32-87 | the opening leaves one sample open, the camera setup and the geometry leave the count unchanged, and the closing closes one |
| CameraRendering.SamplesOfPhases | CustomRP/Assets/Scripts/CustomRP/Runtime/CameraRenderer.cs:32-87 | the opening begins the sample, the camera setup ends it and begins it again, the geometry touches no sample, and the closing ends it |
| CameraRendering.CameraRenderer.constructor | CustomRP/Assets/Scripts/CustomRP/Runtime/CameraRenderer.cs:9-20 | a renderer starts with no camera, no culling results and empty traces |
| CameraRendering.CameraRenderer.Render | CustomRP/Assets/Scripts/CustomRP/Runtime/CameraRenderer.cs:22-43 | the context given receives exactly FrameCommands. The buffer ends empty. The culling results are updated only when culling succeeds |
| CameraRendering.CameraRenderer.Cull | CustomRP/Assets/Scripts/CustomRP/Runtime/CameraRenderer.cs:97-105 | succeeds iff the camera yields culling parameters; then the query runs with min(max shadow distance, far plane) and its results are stored; otherwise nothing changes |
| CameraRendering.CameraRenderer.Setup | CustomRP/Assets/Scripts/CustomRP/Runtime/CameraRenderer.cs:45-53 | camera properties go to the context first; then the pending commands, the clear by ClearFor and a new sample run, and the buffer is empty |
| CameraRendering.CameraRenderer.DrawVisibleGeometry | CustomRP/Assets/Scripts/CustomRP/Runtime/CameraRenderer.cs:55-84 | the context receives three draws in order. First, opaque geometry with CommonOpaque sorting over all queues, unlit pass then lit pass. Then the skybox. Then transparent geometry with the same settings but CommonTransparent sorting, over the transparent range |
| CameraRendering.CameraRenderer.Submit | CustomRP/Assets/Scripts/CustomRP/Runtime/CameraRenderer.cs:86-90 | the pending commands and the closing end-sample run, then the context is submitted |
| CameraRendering.CameraRenderer.ExecuteBuffer | CustomRP/Assets/Scripts/CustomRP/Runtime/CameraRenderer.cs:92-95 | the context runs the buffer's commands in order and the buffer becomes empty |

## Left out

- Lighting.cs, ShadowSettings.cs and CameraRenderer.Editor.cs are not part of this model.
  - `Lighting.Setup` and `Lighting.Cleanup` appear in the camera frame as the tokens `LightingSetup` and `LightingCleanup`. The calls from lighting into `Shadows` are not modelled.
  - `DrawUnsupportedShaders` and `DrawGizmos` appear as tokens.
  - The editor's `PrepareForSceneWindow` and `PrepareBuffer` are omitted. The profiler sample name is the buffer name "Render Camera", as in a player build; the editor uses the camera's name instead.
  - The ranges the settings asset allows are assumed as `ValidSettings`: one to four cascades and a positive atlas size.
- Floating point is modelled as exact reals. Float rounding, the `(int)` cast of the atlas size and the `float` tile size passed to `SetTileViewport` are not modelled.
- `Shadows.Render` / `RenderDirectionalShadows` trace detail:
  - The atlas request, `SetRenderTarget` and the clear are folded into the tokens `GetAtlas` and `ClearAtlas`.
  - The three global uploads become one `SetShadowGlobals` token.
  - The shadow pass's own `BeginSample`/`EndSample`, the two `SetGlobalDepthBias(0, 0)` calls and the `_ShadowDistanceFade` vector (float formulas) are left out.
  - The depth-bits, filter-mode and format arguments of `GetTemporaryRT` are left out.
  - `ShadowDrawingSettings` and the split data passed to `DrawShadows` are reduced to the light and cascade indices.
- `Shadows.RenderDirectionalShadowsForLight`: the engine computation `ComputeDirectionalShadowMatricesAndCullingPrimitives` is a function of its query (`CullingResults.computeCascade`). Its results are taken as given.
- `DirectionalShadows.Shadows`: the two static arrays are shared across instances in the source. Here they belong to one object.
- `CameraRendering.CameraRenderer.Render`: the background colour's linear conversion is the engine's. The camera carries the converted colour.
- Bloom, colour grading, tone mapping, FXAA and rescaling do not occur in `Shadows.cs` or `CameraRenderer.cs`, and `CameraRenderer.cs` calls no post-effects stack; none of them is modelled.

Two details of the code worth stating:
- `ReserveDirectionalShadows` returns a two-component vector, (strength, first tile), or zero.
- `Shadows.cs` stores each culling sphere with its radius squared and nothing more; it sets no cull factor on the shadow split data.

## Findings

| source | as written | input that shows it | evidently intended | confidence | as-written member | corrected member |
|---|---|---|---|---|---|---|
| CustomRP/Assets/Scripts/CustomRP/Runtime/Shadows.cs:95 | the light loop runs to `maxShadowedDirectionalLightCount` (4), not to the reserved count, so unreserved slots are rendered into tiles the grid was not sized for | one reserved light, cascadeCount 1, atlasSize 1024: split 1, tileSize 1024, and slot 1's tile gets viewport Rect(0, 1024, 1024, 1024), outside the atlas | loop over the reserved lights only: every viewport inside the atlas and pairwise disjoint | high (not executed) | DirectionalShadows.AsWrittenOneLightExample | DirectionalShadows.ReservedTilesPackAtlas |
| CustomRP/Assets/Scripts/CustomRP/Runtime/Shadows.cs:79 | with no reserved light, the 1x1 placeholder atlas is only recorded in the shadow buffer. It runs at `Cleanup`, together with its release | count 0: after `Render` the context has run nothing, so no atlas target is held while the frame draws | get the 1x1 placeholder at once, so that the atlas is bound during the frame | medium (not executed) | DirectionalShadows.Shadows.RenderAsWritten | DirectionalShadows.Shadows.Render |
