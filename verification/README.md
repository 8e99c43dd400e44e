# EEVEE light cache and light-bake job

A Dafny model of the sequential core of Blender's EEVEE light cache
(`source/blender/draw/engines/eevee/eevee_lightcache.c`):

- **Irradiance pool sizing** (`IrradiancePool`). `irradiance_pool_size_get`
  packs the samples of every irradiance grid into a 2D-array texture. All
  of it is C `int` arithmetic; C's truncating `/` is written out as
  `CDiv`, and the float `ceilf` is an exact integer ceiling. The three
  irradiance encodings fix the sample block: 4x4, 8x8 or 4x2.
- **The light cache** (`LightCache`). It covers the cache object with its
  two atlases and record arrays, the scene that owns it, and validation,
  creation and release.
- **The probe inventory** (`ProbeInventory`). The dependency graph's
  object iteration becomes a given sequence of scene objects. `Probes(s, t)`
  selects the probes of one type in iteration order, and
  `TotalGridSamples` sums the grid resolutions.
- **The context-switch discipline** (`ContextCalls`). Every enable,
  disable, discard and dispose the bake issues is recorded as a trace. A
  small state machine, `Run`, says which traces use the contexts
  correctly.
- **The light-bake job** (`LightBake`). `EEVEE_LightBake` is a class whose
  methods update its handle fields in place:
  - allocation and release of the job data;
  - probe counting and gathering;
  - resource creation and deletion;
  - context enable and disable;
  - the job itself, in the source's order: count, then enable/create/disable,
    then gather, then the optional world pass, then teardown.

  The gather scan writes the pointer arrays and the cache's record arrays
  in place.

GPU objects (`GpuHandles`) are opaque handles. The model keeps only their
creation parameters, their attachments and whether they were released.

## Model

| member | source | states |
|---|---|---|
| IrradiancePool.CDiv | source/blender/draw/engines/eevee/eevee_lightcache.c:220 | C's integer division: the remainder has the dividend's sign and is smaller than the divisor |
| IrradiancePool.CeilDiv | source/blender/draw/engines/eevee/eevee_lightcache.c:218 | the result is the least integer q with a <= q * b (the ceiling of a / b) |
| IrradiancePool.PoolLayers | source/blender/draw/engines/eevee/eevee_lightcache.c:212-216 | the layer count is min(irradiance per visibility tile + 1, 256), so it lies between 2 and 256 for every valid visibility resolution |
| IrradiancePool.ColumnsFit | source/blender/draw/engines/eevee/eevee_lightcache.c:219-220 | for 0 < vis <= 1024 at least one tile fits in a row, and a full row is at most 1024 texels wide |
| IrradiancePool.PoolSizeGet | source/blender/draw/engines/eevee/eevee_lightcache.c:209-222 | width and height are positive multiples of vis; the width is at most vis * (1024 / vis) <= 1024; the third dimension is the layer count |
| IrradiancePool.PoolSizeOfNoSamples | source/blender/draw/engines/eevee/eevee_lightcache.c:218-221 | with no samples the pool is (vis, vis, layer count) |
| IrradiancePool.PoolHoldsSingleRow | source/blender/draw/engines/eevee/eevee_lightcache.c:218-221 | when the samples fit in one row of tiles, the pool has a cell for every sample |
| IrradiancePool.PoolHeightUnclamped | source/blender/draw/engines/eevee/eevee_lightcache.c:220 | the height is not clamped: 131072 samples at vis 32 (SH L2) give a height of 2048 > 1024 |
| IrradiancePool.PoolMayDropSamples | source/blender/draw/engines/eevee/eevee_lightcache.c:218-220 | the row count is a floor: 2112 samples at vis 32 get 2048 cells |
| LightCache.Validate | source/blender/draw/engines/eevee/eevee_lightcache.c:129-140 | a cache is valid exactly when it exists |
| LightCache.ValidateIgnoresCounts | source/blender/draw/engines/eevee/eevee_lightcache.c:129-140 | the verdict does not depend on the settings, cube count or sample count |
| LightCache.LightCache.Create | source/blender/draw/engines/eevee/eevee_lightcache.c:142-160 | a new cache has fresh, unreleased 1x1x1 grid and cube atlases in the irradiance and RGBA8 formats, filtered and without mipmaps, filled with unbaked red; its record arrays are null and no flag is set |
| LightCache.LightCache.Free | source/blender/draw/engines/eevee/eevee_lightcache.c:162-170 | every atlas that exists is released, and the atlas and record fields end null; the cache is released |
| ProbeInventory.ProbesAreOfType | source/blender/draw/engines/eevee/eevee_lightcache.c:384-397 | the probes selected for a type are exactly the scan's objects that are probes of that type, and there are at most as many as objects |
| ProbeInventory.ProbesPrefix | source/blender/draw/engines/eevee/eevee_lightcache.c:384-397 | one more object extends the selection by that object exactly when it is a probe of the type |
| ProbeInventory.TotalGridSamplesPrefix | source/blender/draw/engines/eevee/eevee_lightcache.c:389-391 | one more object adds x * y * z to the sample total exactly when it is a grid probe |
| ProbeInventory.IgnoredObject | source/blender/draw/engines/eevee/eevee_lightcache.c:386-395 | inserting an object that is neither a grid nor a cube probe anywhere in the scan changes no count and no sample total |
| ProbeInventory.TotalGridSamplesAppend | source/blender/draw/engines/eevee/eevee_lightcache.c:384-398 | the sample totals of the two halves of a split scan add up to the whole |
| ProbeInventory.NoProbesNothingCounted | source/blender/draw/engines/eevee/eevee_lightcache.c:382-398 | a scene without grid or cube probes selects nothing and sums to 0 |
| ProbeInventory.OneGridOneCube | source/blender/draw/engines/eevee/eevee_lightcache.c:382-398 | a 4x4x4 grid and a cube are one grid, one cube and 64 samples |
| ContextCalls.BracketBalanced | source/blender/draw/engines/eevee/eevee_lightcache.c:309-332 | an enable followed by its disable leaves nothing current, in both modes |
| ContextCalls.TeardownBalanced | source/blender/draw/engines/eevee/eevee_lightcache.c:277-307 | the switches of the resource deletion are balanced once the companion context exists |
| ContextCalls.TeardownNeedsCompanion | source/blender/draw/engines/eevee/eevee_lightcache.c:279-298 | a teardown of a dedicated context without its companion misuses the contexts |
| ContextCalls.DoubleEnableRejected | source/blender/draw/engines/eevee/eevee_lightcache.c:309-321 | with the companion present whenever there is a dedicated context, entering the bake's context twice without leaving it is a misuse |
| ContextCalls.JobCallsBalanced | source/blender/draw/engines/eevee/eevee_lightcache.c:441-509 | the switches of a whole job are balanced and touch the draw manager's context exactly when there is no dedicated one |
| LightBake.LightBake.JobDataAlloc | source/blender/draw/engines/eevee/eevee_lightcache.c:180-195 | zeroed bake data with a fresh dependency graph for the scene and null working handles; a dedicated context exists exactly when the bake runs as a job, and the companion context starts null |
| LightBake.LightBake.JobDataFree | source/blender/draw/engines/eevee/eevee_lightcache.c:197-207 | the dependency graph is freed and both probe pointer arrays are null |
| LightBake.LightBake.CountProbes | source/blender/draw/engines/eevee/eevee_lightcache.c:377-399 | gridCount = 1 + number of grid probes, cubeCount = 1 + number of cube probes, totalIrrSamples = 1 + the sum of x * y * z over the grid probes |
| LightBake.LightBake.ContextEnable | source/blender/draw/engines/eevee/eevee_lightcache.c:309-321 | the companion context is created at most once, only when the dedicated context exists, and is kept afterwards; the trace grows by exactly the enable switches of the mode |
| LightBake.LightBake.ContextDisable | source/blender/draw/engines/eevee/eevee_lightcache.c:323-332 | the trace grows by exactly the disable switches of the mode |
| LightBake.LightBake.FreeTextures | source/blender/draw/engines/eevee/eevee_lightcache.c:287-289 | each working texture that existed is released and every texture field ends null |
| LightBake.LightBake.FreeFramebuffers | source/blender/draw/engines/eevee/eevee_lightcache.c:290-292 | each face framebuffer that existed is released and all six slots end null |
| LightBake.LightBake.DeleteResources | source/blender/draw/engines/eevee/eevee_lightcache.c:277-307 | every texture, framebuffer and context field ends null; everything that existed is released; a dedicated context is disposed and its companion discarded; the trace grows by the teardown switches |
| LightBake.LightBake.CopySettings | source/blender/draw/engines/eevee/eevee_lightcache.c:230-235 | the bounce count and the two resolutions come from the scene's settings, and the reflection resolution equals the render resolution |
| LightBake.LightBake.AllocateProbeArrays | source/blender/draw/engines/eevee/eevee_lightcache.c:237-238 | two fresh, distinct pointer arrays with one empty slot per counted probe |
| LightBake.LightBake.SetUpBakeState | source/blender/draw/engines/eevee/eevee_lightcache.c:230-238 | the settings are copied and both pointer arrays are fresh and zeroed |
| LightBake.LightBake.EnsureFramebuffers | source/blender/draw/engines/eevee/eevee_lightcache.c:244-249 | framebuffer i renders face i of the depth and colour targets; existing framebuffers are kept, missing ones are created |
| LightBake.LightBake.CreateRenderTargets | source/blender/draw/engines/eevee/eevee_lightcache.c:240-249 | fresh depth (24-bit, unfiltered) and colour (half float, filtered, mipmapped) cube targets at the render resolution, with their six face framebuffers |
| LightBake.LightBake.CreateIrradiancePool | source/blender/draw/engines/eevee/eevee_lightcache.c:251-254 | a fresh filtered pool texture in the irradiance format, shaped by PoolSizeGet for the visibility resolution and sample total |
| LightBake.LightBake.CreateTextures | source/blender/draw/engines/eevee/eevee_lightcache.c:240-254 | the render targets with their framebuffers, then the pool, all fresh and ready |
| LightBake.LightBake.CreateWorkingResources | source/blender/draw/engines/eevee/eevee_lightcache.c:230-254 | the settings, the zeroed pointer arrays, the render targets with their framebuffers and the pool, all fresh |
| LightBake.LightBake.EnsureLightCache | source/blender/draw/engines/eevee/eevee_lightcache.c:259-274 | the scene ends with a cache, shared by the evaluated scene; a valid cache is kept in exactly its former state (the same atlases, none newly released, the same record arrays and flag), a rejected one is freed, and a missing or rejected one is replaced by a fresh, unreleased placeholder |
| LightBake.LightBake.CreateResources | source/blender/draw/engines/eevee/eevee_lightcache.c:224-275 | the settings, zeroed pointer arrays, fresh targets with every face framebuffer present, and the pool; each cube face keeps the framebuffer it had or gets a fresh one; then the scene has a cache shared with the evaluated scene, an existing cache is kept in exactly its former state (atlases, their release state, record arrays, flag), and a missing one becomes a fresh placeholder |
| LightBake.LightBake.EnterAndCreate | source/blender/draw/engines/eevee/eevee_lightcache.c:457-458 | inside the bake's context: fresh zeroed pointer arrays with one slot per counted probe, fresh render targets with every face framebuffer present, a fresh pool, each face's framebuffer kept or fresh, and a cache shared with the evaluated scene (an existing one kept in exactly its former state, atlases included, a missing one a fresh placeholder); the trace grows by the enable switches |
| LightBake.LightBake.CreateResourcesInContext | source/blender/draw/engines/eevee/eevee_lightcache.c:457-459 | the same resources, framebuffers and cache (a kept cache in its former state, atlases included), with the context left again: the trace grows by one enable and its matching disable, and the companion context is kept or freshly created |
| LightBake.LightBake.Prepare | source/blender/draw/engines/eevee/eevee_lightcache.c:451-459 | the counts of CountProbes, then the resources, framebuffers and cache of CreateResourcesInContext (a kept cache in its former state, atlases included), with zeroed pointer arrays sized by those counts |
| LightBake.LightBake.GatherProbes | source/blender/draw/engines/eevee/eevee_lightcache.c:401-431 | the k-th grid probe of the scan (k >= 1) is at slot k of the grid pointers and grid records, the k-th cube probe at slot k of the cube pointers and cube records; slot 0 and every slot past the probes keep their contents (cube pointers corrected, see Findings) |
| LightBake.LightBake.GatherObject | source/blender/draw/engines/eevee/eevee_lightcache.c:415-427 | one object of the scan keeps the placement invariant of the scan and advances the matching counter |
| LightBake.LightBake.GatherGrid | source/blender/draw/engines/eevee/eevee_lightcache.c:418-421 | a grid probe goes to the next grid pointer slot and the next grid record |
| LightBake.LightBake.GatherCube | source/blender/draw/engines/eevee/eevee_lightcache.c:423-426 | a cube probe goes to the next cube pointer slot and the next cube record (corrected) |
| LightBake.PlacePointer | source/blender/draw/engines/eevee/eevee_lightcache.c:419 | writing the next probe pointer into the next slot places one more probe |
| LightBake.PlaceGridRecord | source/blender/draw/engines/eevee/eevee_lightcache.c:420-421 | converting a grid probe into the next grid record places one more record |
| LightBake.PlaceCubeRecord | source/blender/draw/engines/eevee/eevee_lightcache.c:425-426 | converting a cube probe into the next cube record places one more record |
| LightBake.LightBake.GatherProbesAsWritten | source/blender/draw/engines/eevee/eevee_lightcache.c:401-431 | as written: the grid pointer array ends as AsWrittenGridPrb of the scan (cubes written to it at the cube counter), and the records are placed as in the corrected scan |
| LightBake.LightBake.GatherObjectAsWritten | source/blender/draw/engines/eevee/eevee_lightcache.c:415-427 | one object of the scan as written applies one as-written step |
| LightBake.LightBake.GatherGridAsWritten | source/blender/draw/engines/eevee/eevee_lightcache.c:418-421 | as written, a grid probe goes to the grid counter's slot of the grid pointers |
| LightBake.LightBake.GatherCubeAsWritten | source/blender/draw/engines/eevee/eevee_lightcache.c:423-426 | as written, a cube probe goes to the cube counter's slot of the grid pointers |
| LightBake.AsWrittenGridPrbPrefix | source/blender/draw/engines/eevee/eevee_lightcache.c:413-430 | one more object of the scan applies one as-written step at the counters of the prefix |
| LightBake.AsWrittenCubeOverrunsGridSlots | source/blender/draw/engines/eevee/eevee_lightcache.c:424 | a scene whose only probe is a cube writes slot 1 of a grid pointer array that has one slot |
| LightBake.AsWrittenOverwritesGrid | source/blender/draw/engines/eevee/eevee_lightcache.c:424 | with a grid then a cube, the cube's pointer replaces the grid's at slot 1; the corrected scan keeps both |
| LightBake.LightBake.RenderWorld | source/blender/draw/engines/eevee/eevee_lightcache.c:464-472 | doUpdate is set exactly when the cache asks for a world update, and then the context is entered and left once |
| LightBake.LightBake.SetUp | source/blender/draw/engines/eevee/eevee_lightcache.c:447-462 | counting, resource creation in context, then the gather scan: the counts of the scan, the k-th grid probe at slot k of the zeroed grid pointers and the k-th cube probe at slot k of the zeroed cube pointers, the records placed in the cache, each face's framebuffer kept or fresh, and the cache installed: a kept cache in exactly its former state (atlases, their release state, record arrays, flag), a missing one a fresh placeholder |
| LightBake.PlaceholderHasNoRoom | source/blender/draw/engines/eevee/eevee_lightcache.c:147-151 | a cache as creation leaves it has no room for a single grid record or a single cube record |
| LightBake.LightBake.GatherCleared | source/blender/draw/engines/eevee/eevee_lightcache.c:401-431 | over the zeroed pointer arrays of resource creation, the probes of the scan end at slots 1 onwards and the counts are those of the scan; the installed cache is left as it was, only its record contents change |
| LightBake.LightBake.Finish | source/blender/draw/engines/eevee/eevee_lightcache.c:464-508 | the world pass, then deletion: the cube targets, the pool and the six face framebuffers that existed are all released, every handle field ends null, a dedicated context is disposed with its companion discarded, the scene's cache and its record arrays are untouched, and the job's whole trace is balanced |
| LightBake.LightBake.Job | source/blender/draw/engines/eevee/eevee_lightcache.c:441-509 | the scene ends with a shared cache holding the gathered records, the one it had or a fresh placeholder; doUpdate holds exactly when the world-update flag is set, and a kept cache's flag is the one it had before the job; the cube targets and pool the job created are released, and so are the six face framebuffers, each the one the face had before the job or a fresh one and every handle field ends null; a dedicated context is disposed with its companion discarded; the job's switches are exactly JobCalls, balanced, and use only the mode's contexts |

## Left out

- GPU work is not modelled: texture and framebuffer creation, attachment and release are handle operations only.
- The render callbacks `eevee_lightbake_render_world` and `eevee_lightbake_render_probe`, and `DRW_custom_pipeline`, are not modelled. They are sequences of foreign calls; the world pass is modelled only by its context switches.
- Dependency-graph construction, relation updates, evaluation and the evaluated view layer are not modelled, and neither is `bmain`. The evaluated scene and its object iteration are given to the job.
- `EEVEE_lightbake_update` is not modelled: it only tags the scene for re-evaluation.
- The probe-data conversion functions are not modelled: a record is an uninterpreted function of its object. The sample total that the grid conversion updates in the gather scan is therefore not tracked.
- The `#if 0` bounce and reflection loops of the job are not modelled, because they are not compiled. Nothing reads the `stop` flag or the progress.
- Float fields (sample counts, LOD factors, matrices, texel and padding sizes, roughness) are not modelled, and `vis_res` is an integer.
- `ceilf` is an exact integer ceiling: totals are assumed to stay below 2^24, where the float quotient is exact enough.
- `int` overflow of the counters and of the sample products is not modelled: all integers are unbounded.
- Thread safety under the draw manager's mutex is not modelled.
- The numeric values of the cache flag bits are not modelled: only the world-update bit is named.
- Probe pointer arrays left over from an earlier job are not freed by `create_resources`; the model overwrites the fields the same way and does not track the leak.
- `EEVEE_lightcache_create` never allocates the record arrays that the gather scan writes (PlaceholderHasNoRoom), and validation keeps any existing cache. Job and GatherProbes therefore require a cache with enough record slots, stated by `CacheRoom`, whenever the scene has grid or cube probes; the write through an absent record array that the source makes otherwise is not modelled.
- LightBake.LightBake.RenderWorld: when the world pass does not run, the source leaves `*do_update` as the caller set it; the model returns false.
- LightBake.LightBake.DeleteResources: requires the companion context whenever a dedicated context exists, because discarding a null companion is taken to be an error.
- LightBake.LightBake.GatherProbes: the scan's local counters are not returned. They end at 1 + the number of probes of each kind, which CountProbes states for gridCount and cubeCount.
- LightBake.LightBake.Job: runs the corrected gather scan (GatherProbes, cube pointers into `cube_prb`), not the scan as written at line 424. The job as written also needs at most as many cube probes as grid probes (`|Probes(objects, Cube)| <= |Probes(objects, Grid)|`); otherwise line 424 writes past the end of `grid_prb` (see Findings).
- LightBake.LightBake.Job: of a kept cache it states the flag, not that the atlases stay unreleased through teardown. SetUp and every step before it state the kept cache's whole state, and Finish leaves the cache and its record arrays untouched.
- LightBake.LightBake.Job: does not restate the counts or the pointer-array contents after the world pass and teardown. SetUp states them as `Gathered`, and Finish's modifies clause leaves the counters and the pointer arrays alone; the framebuffer and pool shapes are stated by CreateWorkingResources.
- LightBake.LightBake.SetUp: runs the corrected gather scan, like Job; the as-written scan is GatherProbesAsWritten, which requires the grid pointer array to have a slot for every cube probe.
- LightBake.LightBake.CreateResources: the render-target formats and the face attachments of the framebuffers are stated by CreateWorkingResources and CreateTextures, not repeated here.
- LightBake.LightBake.EnterAndCreate: carries the zeroed pointer arrays, the freshness of the textures and the presence of the framebuffers, but not the copied settings or the texture shapes, which CreateResources and CreateWorkingResources state.
- LightBake.LightBake.CreateResourcesInContext: carries what EnterAndCreate carries, and no more.
- LightBake.LightBake.Prepare: carries what EnterAndCreate carries, plus the counts.
- IrradiancePool.PoolSizeGet: does not promise that every sample fits, because the source does not (see PoolMayDropSamples and PoolHeightUnclamped).

## Findings

| source | as written | input that shows it | evidently intended | confidence | as-written member | corrected member |
|---|---|---|---|---|---|---|
| source/blender/draw/engines/eevee/eevee_lightcache.c:424 | a cube probe's pointer is stored in `grid_prb` at the cube counter | a scene with one grid probe then one cube probe: the cube's pointer overwrites the grid's at `grid_prb[1]`. A scene whose only probe is a cube writes `grid_prb[1]` of a one-slot array | store it in `cube_prb[cube_count]`, next to its `cube_data` record | not executed | LightBake.LightBake.GatherProbesAsWritten, LightBake.AsWrittenOverwritesGrid, LightBake.AsWrittenCubeOverrunsGridSlots | LightBake.LightBake.GatherProbes |
