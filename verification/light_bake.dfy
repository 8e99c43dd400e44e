/**
 * The light-bake job: its data, the GPU context it bakes in, the working
 * render targets it creates and deletes, the probe scans, and the order
 * in which the job runs them (EEVEE_LightBake and its functions).
 */
module LightBake {
  import opened Options
  import opened GpuHandles
  import opened ContextCalls
  import opened IrradiancePool
  import opened ProbeInventory
  import opened LightCache

  /** The bake's private dependency graph. Building, relation updates and
      evaluation are not part of this model; evaluation results are given
      to the job. */
  class Depsgraph {
    const scene: Scene
    var freed: bool

    constructor (scene: Scene)
      ensures this.scene == scene && !freed
    {
      this.scene := scene;
      freed := false;
    }

    method Free()
      modifies this
      ensures freed
    {
      freed := true;
    }
  }

  /** The elements of a possibly absent array. */
  ghost function Elements<T>(a: array?<T>): seq<T>
    reads a
  {
    if a == null then [] else a[..]
  }

  /** An array has slots 1..n, or nothing is to be placed in it. */
  predicate HasSlots<T>(a: array?<T>, n: int)
  {
    n <= 0 || (a != null && n < a.Length)
  }

  /** cur is before with slots 1..|items| holding items. */
  ghost predicate PlacedSeq<T>(cur: seq<T>, before: seq<T>, items: seq<T>)
  {
    |cur| == |before| &&
    forall k :: 0 <= k < |cur| ==> cur[k] == if 1 <= k <= |items| then items[k - 1] else before[k]
  }

  /** a holds items at slots 1..|items| and before everywhere else. */
  ghost predicate Placed<T>(a: array?<T>, before: seq<T>, items: seq<T>)
    reads a
  {
    HasSlots(a, |items|) && (a != null ==> PlacedSeq(a[..], before, items))
  }

  /** Writing the next item into the next free slot places one more. */
  lemma PlacedExtend<T>(cur: seq<T>, before: seq<T>, items: seq<T>, x: T)
    requires PlacedSeq(cur, before, items) && |items| + 1 < |cur|
    ensures PlacedSeq(cur[|items| + 1 := x], before, items + [x])
  {
  }

  /** t has the shape the irradiance pool takes for these samples. */
  predicate IsPoolFor(t: Texture, vis: int, totalSamples: int, e: Encoding)
  {
    ValidVisibility(vis, e) &&
    var size := PoolSizeGet(vis, totalSamples, e);
    t.shape == Array2D(size.width, size.height, size.layers)
  }

  class LightBake {
    const depsgraph: Depsgraph
    const scene: Scene
    const rtFb: array<Framebuffer?>    // one framebuffer per cube face
    var rtColor: Texture?
    var rtDepth: Texture?
    var rtRes: int
    var gridCount: int
    var cubeCount: int
    var totalIrrSamples: int
    var bounceCount: int
    var visRes: int
    var refCubeRes: int
    var gridPrev: Texture?
    var gridPrb: array?<Option<LightProbe>>
    var cubePrb: array?<Option<LightProbe>>
    var glContext: GlContext?
    var gwnContext: GwnContext?
    /** Every context switch this bake has issued, oldest first. */
    ghost var contextCalls: seq<ContextCall>

    ghost predicate Valid()
      reads this`gridPrb, this`cubePrb, this`glContext, this`gwnContext
    {
      && rtFb.Length == 6
      && (gridPrb != null ==> gridPrb != cubePrb)
      && (gwnContext != null ==> glContext != null)
    }

    /** No framebuffer serves two cube faces. */
    ghost predicate DistinctFramebuffers()
      reads rtFb
    {
      forall i, j :: 0 <= i < j < rtFb.Length && rtFb[i] != null ==> rtFb[i] != rtFb[j]
    }

    /** The six face framebuffers that exist. */
    ghost function Framebuffers(): set<Framebuffer>
      reads rtFb
    {
      set i | 0 <= i < rtFb.Length && rtFb[i] != null :: rtFb[i]
    }

    /** EEVEE_lightbake_job_data_alloc: zeroed bake data for the scene, a
        new dependency graph, and a dedicated context exactly when the bake
        runs as a background job. */
    constructor JobDataAlloc(scene: Scene, runAsJob: bool)
      ensures Valid() && DistinctFramebuffers()
      ensures this.scene == scene && fresh(depsgraph) && depsgraph.scene == scene && !depsgraph.freed
      ensures fresh(rtFb) && forall i :: 0 <= i < 6 ==> rtFb[i] == null
      ensures (glContext != null) == runAsJob
      ensures glContext != null ==> fresh(glContext) && !glContext.disposed
      ensures gwnContext == null
      ensures rtColor == null && rtDepth == null && gridPrev == null
      ensures gridPrb == null && cubePrb == null
      ensures gridCount == 0 && cubeCount == 0 && totalIrrSamples == 0
      ensures contextCalls == []
    {
      depsgraph := new Depsgraph(scene);
      this.scene := scene;
      rtFb := new Framebuffer?[6](_ => null);
      rtColor, rtDepth, gridPrev := null, null, null;
      rtRes, gridCount, cubeCount, totalIrrSamples := 0, 0, 0, 0;
      bounceCount, visRes, refCubeRes := 0, 0, 0;
      gridPrb, cubePrb := null, null;
      gwnContext := null;
      contextCalls := [];
      if runAsJob {
        glContext := new GlContext();
      } else {
        glContext := null;
      }
    }

    /** EEVEE_lightbake_job_data_free: the dependency graph and both probe
        pointer arrays are released. */
    method JobDataFree()
      modifies depsgraph, this`gridPrb, this`cubePrb
      ensures depsgraph.freed && gridPrb == null && cubePrb == null
    {
      depsgraph.Free();
      cubePrb := null;
      gridPrb := null;
    }

    /** eevee_lightbake_count_probes: one world slot of each kind, plus one
        per grid or cube probe, and the samples of every grid. */
    method CountProbes(objects: seq<SceneObject>)
      modifies this`gridCount, this`cubeCount, this`totalIrrSamples
      ensures gridCount == 1 + |Probes(objects, Grid)|
      ensures cubeCount == 1 + |Probes(objects, Cube)|
      ensures totalIrrSamples == 1 + TotalGridSamples(objects)
    {
      gridCount, cubeCount, totalIrrSamples := 1, 1, 1;
      for i := 0 to |objects|
        invariant gridCount == 1 + |Probes(objects[..i], Grid)|
        invariant cubeCount == 1 + |Probes(objects[..i], Cube)|
        invariant totalIrrSamples == 1 + TotalGridSamples(objects[..i])
      {
        ProbesPrefix(objects, i, Grid);
        ProbesPrefix(objects, i, Cube);
        TotalGridSamplesPrefix(objects, i);
        match objects[i]
        case LightProbeObject(_, prb) =>
          if prb.probeType == Grid {
            totalIrrSamples := totalIrrSamples + prb.resolutionX * prb.resolutionY * prb.resolutionZ;
            gridCount := gridCount + 1;
          } else if prb.probeType == Cube {
            cubeCount := cubeCount + 1;
          }
        case OtherObject(_) =>
      }
      assert objects[..|objects|] == objects;
    }

    /** eevee_lightbake_context_enable: a background bake enters its own
        context, creating the companion context on first use; otherwise
        the draw manager's context is entered. */
    method ContextEnable()
      requires Valid()
      modifies this`gwnContext, this`contextCalls
      ensures Valid()
      ensures old(gwnContext) != null ==> gwnContext == old(gwnContext)
      ensures glContext == null ==> gwnContext == old(gwnContext)
      ensures glContext != null ==> gwnContext != null
      ensures old(gwnContext) == null && glContext != null ==> fresh(gwnContext) && !gwnContext.discarded
      ensures contextCalls == old(contextCalls) + EnableCalls(glContext, gwnContext)
    {
      if glContext != null {
        contextCalls := contextCalls + [GlEnable(glContext)];
        if gwnContext == null {
          gwnContext := new GwnContext();
        }
        contextCalls := contextCalls + [GwnEnable(gwnContext)];
      } else {
        contextCalls := contextCalls + [DrwEnable];
      }
    }

    /** eevee_lightbake_context_disable: leaves what ContextEnable
        entered. */
    method ContextDisable()
      modifies this`contextCalls
      ensures contextCalls == old(contextCalls) + DisableCalls(glContext, gwnContext)
    {
      if glContext != null {
        contextCalls := contextCalls + [GlDisable(glContext), GwnDisable(gwnContext)];
      } else {
        contextCalls := contextCalls + [DrwDisable];
      }
    }

    /** The cube render targets exist at the render resolution, depth
        without filtering, colour filtered and mipmapped in half floats,
        and framebuffer i renders into face i of both. */
    ghost predicate RenderTargetsReady()
      reads this`rtDepth, this`rtColor, this`rtRes, rtFb, rtDepth, rtColor, Framebuffers()
    {
      && rtDepth != null && rtColor != null
      && rtDepth.shape == CubeMap(rtRes) && rtDepth.format == DepthComponent24
      && !rtDepth.filter && !rtDepth.mipmap && !rtDepth.freed
      && rtColor.shape == CubeMap(rtRes) && rtColor.format == Rgba16f
      && rtColor.filter && rtColor.mipmap && !rtColor.freed
      && forall i :: 0 <= i < rtFb.Length ==>
           rtFb[i] != null && rtFb[i].depth == rtDepth && rtFb[i].color == rtColor && rtFb[i].face == i
    }

    /** Frees each working texture that exists and clears its field. */
    method FreeTextures()
      modifies this`rtDepth, this`rtColor, this`gridPrev, rtDepth, rtColor, gridPrev
      ensures rtDepth == null && rtColor == null && gridPrev == null
      ensures old(rtDepth) != null ==> old(rtDepth).freed
      ensures old(rtColor) != null ==> old(rtColor).freed
      ensures old(gridPrev) != null ==> old(gridPrev).freed
    {
      if rtDepth != null {
        rtDepth.Free();
        rtDepth := null;
      }
      if rtColor != null {
        rtColor.Free();
        rtColor := null;
      }
      if gridPrev != null {
        gridPrev.Free();
        gridPrev := null;
      }
    }

    /** Frees each cube-face framebuffer that exists and clears its slot. */
    method FreeFramebuffers()
      requires Valid()
      modifies rtFb, Framebuffers()
      ensures Valid()
      ensures forall i :: 0 <= i < 6 ==> rtFb[i] == null
      ensures forall i :: 0 <= i < 6 && old(rtFb[i]) != null ==> old(rtFb[i]).freed
    {
      for i := 0 to 6
        invariant forall j :: 0 <= j < i ==> rtFb[j] == null
        invariant forall j :: i <= j < 6 ==> rtFb[j] == old(rtFb[j])
        invariant forall j :: 0 <= j < i && old(rtFb[j]) != null ==> old(rtFb[j]).freed
      {
        if rtFb[i] != null {
          rtFb[i].Free();
          rtFb[i] := null;
        }
      }
    }

    /** eevee_lightbake_delete_resources: inside the bake's context, every
        working texture and framebuffer that exists is freed and its field
        cleared; a dedicated context pair is then torn down from within and
        forgotten. */
    method DeleteResources()
      requires Valid()
      requires glContext != null ==> gwnContext != null
      modifies this`rtDepth, this`rtColor, this`gridPrev, this`glContext, this`gwnContext
      modifies this`contextCalls, rtFb, Framebuffers(), rtDepth, rtColor, gridPrev
      modifies glContext, gwnContext
      ensures Valid()
      ensures rtDepth == null && rtColor == null && gridPrev == null
      ensures forall i :: 0 <= i < 6 ==> rtFb[i] == null
      ensures glContext == null && gwnContext == null
      ensures old(rtDepth) != null ==> old(rtDepth).freed
      ensures old(rtColor) != null ==> old(rtColor).freed
      ensures old(gridPrev) != null ==> old(gridPrev).freed
      ensures forall i :: 0 <= i < 6 && old(rtFb[i]) != null ==> old(rtFb[i]).freed
      ensures old(glContext) != null ==> old(glContext).disposed && old(gwnContext).discarded
      ensures contextCalls == old(contextCalls) + TeardownCalls(old(glContext), old(gwnContext))
    {
      contextCalls := contextCalls + EnableCalls(glContext, gwnContext);

      FreeTextures();
      FreeFramebuffers();

      contextCalls := contextCalls + ReleaseCalls(glContext, gwnContext);
      if glContext != null {
        gwnContext.Discard();
        glContext.Dispose();
        gwnContext := null;
        glContext := null;
      }
    }

    /** Sets up each cube-face framebuffer, creating the missing ones, to
        render into face i of the depth and colour targets. */
    method EnsureFramebuffers()
      requires Valid() && rtDepth != null && rtColor != null
      requires DistinctFramebuffers()
      modifies rtFb, Framebuffers()
      ensures Valid()
      ensures forall i :: 0 <= i < 6 ==>
        rtFb[i] != null && rtFb[i].depth == rtDepth && rtFb[i].color == rtColor && rtFb[i].face == i
      ensures forall i :: 0 <= i < 6 ==>
        if old(rtFb[i]) != null then rtFb[i] == old(rtFb[i]) else fresh(rtFb[i]) && !rtFb[i].freed
      ensures forall f :: f in Framebuffers() ==> f in old(Framebuffers()) || fresh(f)
    {
      for i := 0 to 6
        invariant DistinctFramebuffers()
        invariant forall j :: 0 <= j < i ==>
          rtFb[j] != null && rtFb[j].depth == rtDepth && rtFb[j].color == rtColor && rtFb[j].face == j
        invariant forall j :: 0 <= j < 6 ==>
          if old(rtFb[j]) != null then rtFb[j] == old(rtFb[j]) else (j < i ==> fresh(rtFb[j]) && !rtFb[j].freed)
        invariant forall j :: i <= j < 6 ==> rtFb[j] == old(rtFb[j])
      {
        if rtFb[i] == null {
          var fb := new Framebuffer();
          rtFb[i] := fb;
        }
        rtFb[i].AttachCubeFace(rtDepth, rtColor, i);
      }
    }

    /** Takes the bounce count and the two resolutions from the scene's
        settings; the reflection cubemaps use the render resolution. */
    method CopySettings(eevee: EeveeSettings)
      modifies this`bounceCount, this`visRes, this`rtRes, this`refCubeRes
      ensures SettingsFrom(eevee)
    {
      bounceCount := eevee.giDiffuseBounces;
      visRes := eevee.giVisibilityResolution;
      rtRes := eevee.giCubemapResolution;
      refCubeRes := rtRes;
    }

    /** Zeroed probe pointer arrays, one slot per counted probe. */
    method AllocateProbeArrays()
      requires 0 <= gridCount && 0 <= cubeCount
      modifies this`cubePrb, this`gridPrb
      ensures fresh(cubePrb) && fresh(gridPrb) && ProbeArraysCleared()
    {
      cubePrb := new Option<LightProbe>[cubeCount](_ => None);
      gridPrb := new Option<LightProbe>[gridCount](_ => None);
    }

    /** The depth and colour cube targets and their six framebuffers. */
    method CreateRenderTargets()
      requires Valid()
      requires DistinctFramebuffers()
      modifies this`rtDepth, this`rtColor, rtFb, Framebuffers()
      ensures Valid()
      ensures fresh(rtDepth) && fresh(rtColor) && RenderTargetsReady()
      ensures forall f :: f in Framebuffers() ==> f in old(Framebuffers()) || fresh(f)
      ensures forall i :: 0 <= i < 6 ==> if old(rtFb[i]) != null then rtFb[i] == old(rtFb[i]) else fresh(rtFb[i])
    {
      rtDepth := new Texture(CubeMap(rtRes), DepthComponent24, false, false, NoData);
      rtColor := new Texture(CubeMap(rtRes), Rgba16f, true, true, NoData);
      EnsureFramebuffers();
    }

    /** Allocates the irradiance pool texture, sized for the bake's
        samples at its visibility resolution. */
    method CreateIrradiancePool(e: Encoding)
      requires ValidVisibility(visRes, e)
      modifies this`gridPrev
      ensures fresh(gridPrev) && PoolReady(e)
    {
      var size := PoolSizeGet(visRes, totalIrrSamples, e);
      gridPrev := new Texture(Array2D(size.width, size.height, size.layers), IrradianceFormat(e),
                              true, false, NoData);
    }

    /** The cache policy of eevee_lightbake_create_resources: a cache that
        validation rejects is freed and dropped, a missing one is created,
        and the evaluated scene is made to share the original's cache. */
    method EnsureLightCache(sceneEval: Scene, valid: bool, e: Encoding)
      modifies scene`lightCache, sceneEval`lightCache, Footprint(scene.lightCache)
      ensures CacheInstalled(scene, sceneEval, if valid then old(StateOf(scene.lightCache)) else NoCache, e)
      ensures old(scene.lightCache) != null && !valid ==> old(scene.lightCache).freed
      ensures old(scene.lightCache) == null || !valid ==> fresh(scene.lightCache)
    {
      var lcache := scene.lightCache;
      if lcache != null && !valid {
        lcache.Free();
        scene.lightCache := null;
        lcache := null;
      }
      if lcache == null {
        lcache := new LightCache.Create(e, cubeCount, totalIrrSamples);
        scene.lightCache := lcache;
      }
      sceneEval.lightCache := lcache;
    }

    /** eevee_lightbake_create_resources: copies the bake settings of the
        evaluated scene, allocates the probe pointer arrays, the cube
        render targets and their framebuffers and the irradiance pool,
        then makes sure the scene has a light cache. */
    method CreateResources(sceneEval: Scene, e: Encoding)
      requires Valid()
      requires DistinctFramebuffers()
      requires ValidVisibility(sceneEval.eevee.giVisibilityResolution, e)
      requires 0 <= gridCount && 0 <= cubeCount
      modifies this`bounceCount, this`visRes, this`rtRes, this`refCubeRes
      modifies this`cubePrb, this`gridPrb, this`rtDepth, this`rtColor, this`gridPrev
      modifies rtFb, Framebuffers(), scene`lightCache, sceneEval`lightCache, Footprint(scene.lightCache)
      ensures Valid() && SettingsFrom(sceneEval.eevee)
      ensures fresh(cubePrb) && fresh(gridPrb) && ProbeArraysCleared()
      ensures fresh(rtDepth) && fresh(rtColor) && FramebuffersCreated()
      ensures fresh(gridPrev) && PoolReady(e)
      ensures CacheInstalled(scene, sceneEval, old(StateOf(scene.lightCache)), e)
      ensures old(scene.lightCache) == null ==> fresh(scene.lightCache)
      ensures forall f :: f in Framebuffers() ==> f in old(Framebuffers()) || fresh(f)
      ensures forall i :: 0 <= i < 6 ==> if old(rtFb[i]) != null then rtFb[i] == old(rtFb[i]) else fresh(rtFb[i])
    {
      CreateWorkingResources(sceneEval.eevee, e);
      ghost var cacheObjects := Footprint(scene.lightCache);
      assert rtDepth !in cacheObjects && rtColor !in cacheObjects && gridPrev !in cacheObjects;
      assert cubePrb !in cacheObjects && gridPrb !in cacheObjects && this !in cacheObjects;
      EnsureLightCache(sceneEval, Validate(scene.lightCache, scene.eevee, cubeCount, totalIrrSamples), e);
    }

    /** Everything eevee_lightbake_create_resources allocates for the bake
        itself, in the order it does so. */
    method CreateWorkingResources(eevee: EeveeSettings, e: Encoding)
      requires Valid()
      requires DistinctFramebuffers()
      requires ValidVisibility(eevee.giVisibilityResolution, e)
      requires 0 <= gridCount && 0 <= cubeCount
      modifies this`bounceCount, this`visRes, this`rtRes, this`refCubeRes
      modifies this`cubePrb, this`gridPrb, this`rtDepth, this`rtColor, this`gridPrev
      modifies rtFb, Framebuffers()
      ensures Valid() && SettingsFrom(eevee)
      ensures fresh(cubePrb) && fresh(gridPrb) && ProbeArraysCleared()
      ensures fresh(rtDepth) && fresh(rtColor) && RenderTargetsReady()
      ensures fresh(gridPrev) && PoolReady(e)
      ensures forall f :: f in Framebuffers() ==> f in old(Framebuffers()) || fresh(f)
      ensures forall i :: 0 <= i < 6 ==> if old(rtFb[i]) != null then rtFb[i] == old(rtFb[i]) else fresh(rtFb[i])
    {
      SetUpBakeState(eevee);
      CreateTextures(e);
    }

    /** The settings copied from the scene and the zeroed probe pointer
        arrays. */
    method SetUpBakeState(eevee: EeveeSettings)
      requires 0 <= gridCount && 0 <= cubeCount
      modifies this`bounceCount, this`visRes, this`rtRes, this`refCubeRes, this`cubePrb, this`gridPrb
      ensures SettingsFrom(eevee)
      ensures fresh(cubePrb) && fresh(gridPrb) && ProbeArraysCleared()
    {
      CopySettings(eevee);
      AllocateProbeArrays();
    }

    /** The cube render targets with their framebuffers, then the
        irradiance pool. */
    method CreateTextures(e: Encoding)
      requires Valid()
      requires DistinctFramebuffers()
      requires ValidVisibility(visRes, e)
      modifies this`rtDepth, this`rtColor, this`gridPrev, rtFb, Framebuffers()
      ensures Valid()
      ensures fresh(rtDepth) && fresh(rtColor) && RenderTargetsReady()
      ensures fresh(gridPrev) && PoolReady(e)
      ensures forall f :: f in Framebuffers() ==> f in old(Framebuffers()) || fresh(f)
      ensures forall i :: 0 <= i < 6 ==> if old(rtFb[i]) != null then rtFb[i] == old(rtFb[i]) else fresh(rtFb[i])
    {
      CreateRenderTargets();
      CreateIrradiancePool(e);
    }

    /** The bake settings are those of the given scene settings; the
        reflection cubemaps use the render resolution. */
    ghost predicate SettingsFrom(eevee: EeveeSettings)
      reads this`bounceCount, this`visRes, this`rtRes, this`refCubeRes
    {
      && bounceCount == eevee.giDiffuseBounces
      && visRes == eevee.giVisibilityResolution
      && rtRes == refCubeRes == eevee.giCubemapResolution
    }

    /** One empty pointer slot per counted probe of each kind. */
    ghost predicate ProbeArraysCleared()
      reads this`cubePrb, this`gridPrb, this`cubeCount, this`gridCount, cubePrb, gridPrb
    {
      && cubePrb != null && cubePrb.Length == cubeCount && cubePrb[..] == seq(cubeCount, _ => None)
      && gridPrb != null && gridPrb.Length == gridCount && gridPrb[..] == seq(gridCount, _ => None)
      && gridPrb != cubePrb
    }

    /** The irradiance pool exists, filtered, in the encoding's format and
        sized for the counted samples at the visibility resolution. */
    ghost predicate PoolReady(e: Encoding)
      reads this`gridPrev, this`visRes, this`totalIrrSamples, gridPrev
    {
      && gridPrev != null && !gridPrev.freed && gridPrev.filter
      && gridPrev.format == IrradianceFormat(e)
      && IsPoolFor(gridPrev, visRes, totalIrrSamples, e)
    }

    /** eevee_lightbake_gather_probes, with cube probes recorded in the
        cube pointer array: the k-th grid probe of the scan goes to slot k
        of the grid pointers and of the cache's grid records, the k-th
        cube probe to slot k of the cube pointers and records; slot 0 of
        each stays the world's and every other slot keeps its content. */
    method GatherProbes(objects: seq<SceneObject>)
      requires gridPrb != null ==> gridPrb != cubePrb
      requires HasSlots(gridPrb, |Probes(objects, Grid)|) && HasSlots(cubePrb, |Probes(objects, Cube)|)
      requires CacheRoom(scene.lightCache, |Probes(objects, Grid)|, |Probes(objects, Cube)|)
      modifies gridPrb, cubePrb, RecordArrays(scene.lightCache)
      ensures Placed(gridPrb, old(Elements(gridPrb)), Pointers(Probes(objects, Grid)))
      ensures Placed(cubePrb, old(Elements(cubePrb)), Pointers(Probes(objects, Cube)))
      ensures RecordsPlaced(scene.lightCache, old(RecordsOf(scene.lightCache)),
                            Probes(objects, Grid), Probes(objects, Cube))
    {
      var lcache := scene.lightCache;
      ghost var grid0, cube0, records0 := Elements(gridPrb), Elements(cubePrb), RecordsOf(lcache);
      var gridSlot, cubeSlot := 1, 1;
      for i := 0 to |objects|
        invariant Scanned(objects, i, gridSlot, cubeSlot, grid0, cube0, lcache, records0)
      {
        gridSlot, cubeSlot := GatherObject(lcache, objects, i, gridSlot, cubeSlot, grid0, cube0, records0);
      }
      assert objects[..|objects|] == objects;
    }

    /** The first i objects of the scan are done: their grid and cube
        probes are placed in the pointer arrays and the cache's records,
        and the slots are one past the probes seen. */
    ghost predicate Scanned(objects: seq<SceneObject>, i: int, gridSlot: int, cubeSlot: int,
                            grid0: seq<Option<LightProbe>>, cube0: seq<Option<LightProbe>>,
                            lcache: LightCache?, records0: CacheRecords)
      reads this`gridPrb, this`cubePrb, gridPrb, cubePrb, lcache, RecordArrays(lcache)
    {
      && 0 <= i <= |objects|
      && (gridPrb != null ==> gridPrb != cubePrb)
      && HasSlots(gridPrb, |Probes(objects, Grid)|) && HasSlots(cubePrb, |Probes(objects, Cube)|)
      && CacheRoom(lcache, |Probes(objects, Grid)|, |Probes(objects, Cube)|)
      && |Probes(objects[..i], Grid)| <= |Probes(objects, Grid)|
      && |Probes(objects[..i], Cube)| <= |Probes(objects, Cube)|
      && gridSlot == 1 + |Probes(objects[..i], Grid)| && cubeSlot == 1 + |Probes(objects[..i], Cube)|
      && Placed(gridPrb, grid0, Pointers(Probes(objects[..i], Grid)))
      && Placed(cubePrb, cube0, Pointers(Probes(objects[..i], Cube)))
      && RecordsPlaced(lcache, records0, Probes(objects[..i], Grid), Probes(objects[..i], Cube))
    }

    /** One object of the gather scan: a grid probe goes to the next grid
        slot, a cube probe to the next cube slot, anything else is skipped. */
    method GatherObject(lcache: LightCache?, objects: seq<SceneObject>, i: int,
                        gridSlot: int, cubeSlot: int,
                        ghost grid0: seq<Option<LightProbe>>, ghost cube0: seq<Option<LightProbe>>,
                        ghost records0: CacheRecords)
      returns (nextGridSlot: int, nextCubeSlot: int)
      requires i < |objects|
      requires Scanned(objects, i, gridSlot, cubeSlot, grid0, cube0, lcache, records0)
      modifies gridPrb, cubePrb, RecordArrays(lcache)
      ensures Scanned(objects, i + 1, nextGridSlot, nextCubeSlot, grid0, cube0, lcache, records0)
    {
      ProbesPrefix(objects, i, Grid);
      ProbesPrefix(objects, i, Cube);
      ProbesPrefixCount(objects, i + 1, Grid);
      ProbesPrefixCount(objects, i + 1, Cube);
      var o := objects[i];
      nextGridSlot, nextCubeSlot := gridSlot, cubeSlot;
      if IsProbeOfType(o, Grid) {
        GatherGrid(lcache, objects, i, gridSlot, cubeSlot, grid0, cube0, records0);
        nextGridSlot := gridSlot + 1;
      } else if IsProbeOfType(o, Cube) {
        GatherCube(lcache, objects, i, gridSlot, cubeSlot, grid0, cube0, records0);
        nextCubeSlot := cubeSlot + 1;
      }
    }

    /** A grid probe of the scan: its pointer and its record go to the next
        grid slot. */
    method GatherGrid(lcache: LightCache?, objects: seq<SceneObject>, i: int,
                      gridSlot: int, cubeSlot: int,
                      ghost grid0: seq<Option<LightProbe>>, ghost cube0: seq<Option<LightProbe>>,
                      ghost records0: CacheRecords)
      requires 0 <= i < |objects| && IsProbeOfType(objects[i], Grid)
      requires Probes(objects[..i + 1], Grid) == Probes(objects[..i], Grid) + [objects[i]]
      requires Probes(objects[..i + 1], Cube) == Probes(objects[..i], Cube)
      requires |Probes(objects[..i + 1], Grid)| <= |Probes(objects, Grid)|
      requires Scanned(objects, i, gridSlot, cubeSlot, grid0, cube0, lcache, records0)
      modifies gridPrb, RecordArrays(lcache)
      ensures Scanned(objects, i + 1, gridSlot + 1, cubeSlot, grid0, cube0, lcache, records0)
    {
      ghost var grids, cubes := Probes(objects[..i], Grid), Probes(objects[..i], Cube);
      PlacePointer(gridPrb, objects[i], gridSlot, grids, grid0);
      PlaceGridRecord(lcache, objects[i], gridSlot, grids, cubes, records0);
    }

    /** A cube probe of the scan: its pointer and its record go to the next
        cube slot. */
    method GatherCube(lcache: LightCache?, objects: seq<SceneObject>, i: int,
                      gridSlot: int, cubeSlot: int,
                      ghost grid0: seq<Option<LightProbe>>, ghost cube0: seq<Option<LightProbe>>,
                      ghost records0: CacheRecords)
      requires 0 <= i < |objects| && IsProbeOfType(objects[i], Cube)
      requires Probes(objects[..i + 1], Cube) == Probes(objects[..i], Cube) + [objects[i]]
      requires Probes(objects[..i + 1], Grid) == Probes(objects[..i], Grid)
      requires |Probes(objects[..i + 1], Cube)| <= |Probes(objects, Cube)|
      requires Scanned(objects, i, gridSlot, cubeSlot, grid0, cube0, lcache, records0)
      modifies cubePrb, RecordArrays(lcache)
      ensures Scanned(objects, i + 1, gridSlot, cubeSlot + 1, grid0, cube0, lcache, records0)
    {
      ghost var grids, cubes := Probes(objects[..i], Grid), Probes(objects[..i], Cube);
      PlacePointer(cubePrb, objects[i], cubeSlot, cubes, cube0);
      PlaceCubeRecord(lcache, objects[i], cubeSlot, grids, cubes, records0);
    }

    /** eevee_lightbake_gather_probes as written: a cube probe's pointer is
        stored in the grid pointer array, at the cube's own slot. */
    method GatherProbesAsWritten(objects: seq<SceneObject>)
      requires gridPrb != null
      requires |Probes(objects, Grid)| < gridPrb.Length && |Probes(objects, Cube)| < gridPrb.Length
      requires CacheRoom(scene.lightCache, |Probes(objects, Grid)|, |Probes(objects, Cube)|)
      modifies gridPrb, RecordArrays(scene.lightCache)
      ensures gridPrb[..] == AsWrittenGridPrb(old(gridPrb[..]), objects)
      ensures RecordsPlaced(scene.lightCache, old(RecordsOf(scene.lightCache)),
                            Probes(objects, Grid), Probes(objects, Cube))
    {
      var lcache := scene.lightCache;
      ghost var grid0, records0 := gridPrb[..], RecordsOf(lcache);
      var gridSlot, cubeSlot := 1, 1;
      for i := 0 to |objects|
        invariant ScannedAsWritten(objects, i, gridSlot, cubeSlot, grid0, lcache, records0)
      {
        gridSlot, cubeSlot := GatherObjectAsWritten(lcache, objects, i, gridSlot, cubeSlot, grid0, records0);
      }
      assert objects[..|objects|] == objects;
    }

    /** The first i objects of the scan as written are done: the grid
        pointers are the as-written array for them, the records are placed
        and the slots are one past the probes seen. */
    ghost predicate ScannedAsWritten(objects: seq<SceneObject>, i: int, gridSlot: int, cubeSlot: int,
                                     grid0: seq<Option<LightProbe>>, lcache: LightCache?, records0: CacheRecords)
      reads this`gridPrb, gridPrb, lcache, RecordArrays(lcache)
    {
      && 0 <= i <= |objects| && gridPrb != null
      && |Probes(objects, Grid)| < |grid0| && |Probes(objects, Cube)| < |grid0|
      && CacheRoom(lcache, |Probes(objects, Grid)|, |Probes(objects, Cube)|)
      && |Probes(objects[..i], Grid)| <= |Probes(objects, Grid)|
      && |Probes(objects[..i], Cube)| <= |Probes(objects, Cube)|
      && gridSlot == 1 + |Probes(objects[..i], Grid)| && cubeSlot == 1 + |Probes(objects[..i], Cube)|
      && gridPrb[..] == AsWrittenGridPrb(grid0, objects[..i])
      && RecordsPlaced(lcache, records0, Probes(objects[..i], Grid), Probes(objects[..i], Cube))
    }

    /** One object of the gather scan as written: a cube goes to the grid
        pointer array at the cube slot. */
    method GatherObjectAsWritten(lcache: LightCache?, objects: seq<SceneObject>, i: int,
                                 gridSlot: int, cubeSlot: int,
                                 ghost grid0: seq<Option<LightProbe>>, ghost records0: CacheRecords)
      returns (nextGridSlot: int, nextCubeSlot: int)
      requires i < |objects|
      requires ScannedAsWritten(objects, i, gridSlot, cubeSlot, grid0, lcache, records0)
      modifies gridPrb, RecordArrays(lcache)
      ensures ScannedAsWritten(objects, i + 1, nextGridSlot, nextCubeSlot, grid0, lcache, records0)
    {
      AsWrittenGridPrbPrefix(grid0, objects, i);
      var o := objects[i];
      nextGridSlot, nextCubeSlot := gridSlot, cubeSlot;
      if IsProbeOfType(o, Grid) {
        GatherGridAsWritten(lcache, objects, i, gridSlot, cubeSlot, grid0, records0);
        nextGridSlot := gridSlot + 1;
      } else if IsProbeOfType(o, Cube) {
        GatherCubeAsWritten(lcache, objects, i, gridSlot, cubeSlot, grid0, records0);
        nextCubeSlot := cubeSlot + 1;
      }
    }

    /** A grid probe of the scan as written: its pointer goes to the grid
        slot of the grid pointer array, its record to the next grid record. */
    method GatherGridAsWritten(lcache: LightCache?, objects: seq<SceneObject>, i: int,
                               gridSlot: int, cubeSlot: int,
                               ghost grid0: seq<Option<LightProbe>>, ghost records0: CacheRecords)
      requires 0 <= i < |objects| && IsProbeOfType(objects[i], Grid)
      requires Probes(objects[..i + 1], Grid) == Probes(objects[..i], Grid) + [objects[i]]
      requires Probes(objects[..i + 1], Cube) == Probes(objects[..i], Cube)
      requires |Probes(objects[..i + 1], Grid)| <= |Probes(objects, Grid)|
      requires ScannedAsWritten(objects, i, gridSlot, cubeSlot, grid0, lcache, records0)
      requires AsWrittenGridPrb(grid0, objects[..i + 1]) ==
               AsWrittenStep(AsWrittenGridPrb(grid0, objects[..i]), objects[i], gridSlot, cubeSlot)
      modifies gridPrb, RecordArrays(lcache)
      ensures ScannedAsWritten(objects, i + 1, gridSlot + 1, cubeSlot, grid0, lcache, records0)
    {
      ghost var grids, cubes := Probes(objects[..i], Grid), Probes(objects[..i], Cube);
      gridPrb[gridSlot] := ProbeData(objects[i]);
      PlaceGridRecord(lcache, objects[i], gridSlot, grids, cubes, records0);
    }

    /** A cube probe of the scan as written: its pointer goes to the cube
        slot of the grid pointer array, its record to the next cube record. */
    method GatherCubeAsWritten(lcache: LightCache?, objects: seq<SceneObject>, i: int,
                               gridSlot: int, cubeSlot: int,
                               ghost grid0: seq<Option<LightProbe>>, ghost records0: CacheRecords)
      requires 0 <= i < |objects| && IsProbeOfType(objects[i], Cube)
      requires Probes(objects[..i + 1], Cube) == Probes(objects[..i], Cube) + [objects[i]]
      requires Probes(objects[..i + 1], Grid) == Probes(objects[..i], Grid)
      requires |Probes(objects[..i + 1], Cube)| <= |Probes(objects, Cube)|
      requires ScannedAsWritten(objects, i, gridSlot, cubeSlot, grid0, lcache, records0)
      requires AsWrittenGridPrb(grid0, objects[..i + 1]) ==
               AsWrittenStep(AsWrittenGridPrb(grid0, objects[..i]), objects[i], gridSlot, cubeSlot)
      modifies gridPrb, RecordArrays(lcache)
      ensures ScannedAsWritten(objects, i + 1, gridSlot, cubeSlot + 1, grid0, lcache, records0)
    {
      ghost var grids, cubes := Probes(objects[..i], Grid), Probes(objects[..i], Cube);
      gridPrb[cubeSlot] := ProbeData(objects[i]);
      PlaceCubeRecord(lcache, objects[i], cubeSlot, grids, cubes, records0);
    }

    /** EEVEE_lightbake_job: counts the probes, creates the resources inside
        the bake's context, gathers the probes, renders the world when the
        cache asks for it, and deletes the resources. The world pass is
        what sets doUpdate; gwn is the companion context the job used, and
        depth, color, pool and fbs are the working resources it baked with. */
    method Job(objects: seq<SceneObject>, sceneEval: Scene, e: Encoding)
      returns (doUpdate: bool, ghost gwn: GwnContext?,
               ghost depth: Texture?, ghost color: Texture?, ghost pool: Texture?, ghost fbs: seq<Framebuffer?>)
      requires Valid()
      requires DistinctFramebuffers()
      requires ValidVisibility(sceneEval.eevee.giVisibilityResolution, e)
      requires CacheRoom(scene.lightCache, |Probes(objects, Grid)|, |Probes(objects, Cube)|)
      modifies this, rtFb, Framebuffers(), glContext, gwnContext
      modifies scene`lightCache, sceneEval`lightCache, Footprint(scene.lightCache), RecordArrays(scene.lightCache)
      ensures scene.lightCache != null && sceneEval.lightCache == scene.lightCache
      ensures old(scene.lightCache) != null ==>
        scene.lightCache == old(scene.lightCache) && scene.lightCache.flag == old(scene.lightCache.flag)
      ensures old(scene.lightCache) == null ==> fresh(scene.lightCache) && IsPlaceholder(scene.lightCache, e)
      ensures RecordsPlaced(scene.lightCache, old(RecordsOf(scene.lightCache)),
                            Probes(objects, Grid), Probes(objects, Cube))
      ensures doUpdate <==> UpdateWorld in scene.lightCache.flag
      ensures TornDown()
      ensures depth != null && color != null && pool != null && fresh(depth) && fresh(color) && fresh(pool)
      ensures Released(depth, color, pool, fbs)
      ensures forall i :: 0 <= i < 6 ==> if old(rtFb[i]) != null then fbs[i] == old(rtFb[i]) else fresh(fbs[i])
      ensures old(glContext) != null ==> old(glContext).disposed && gwn != null && gwn.discarded
      ensures contextCalls == old(contextCalls) + JobCalls(old(glContext), gwn, doUpdate)
      ensures Balanced(contextCalls[|old(contextCalls)|..])
      ensures UsesOnlyOwnContext(contextCalls[|old(contextCalls)|..], old(glContext))
    {
      ghost var calls0 := contextCalls;
      gwn := SetUp(objects, sceneEval, e);
      depth, color, pool, fbs := rtDepth, rtColor, gridPrev, rtFb[..];
      doUpdate := Finish(old(glContext), gwn, calls0);
    }

    /** The second half of EEVEE_lightbake_job: the world pass, then the
        deletion of every working resource and of the bake's context. */
    method Finish(ghost gl: GlContext?, ghost gwn: GwnContext?, ghost calls0: seq<ContextCall>)
      returns (doUpdate: bool)
      requires Valid() && scene.lightCache != null
      requires rtDepth != null && rtColor != null && gridPrev != null && FramebuffersCreated()
      requires glContext == gl && gwnContext == gwn
      requires gl != null ==> gwn != null
      requires contextCalls == calls0 + EnableCalls(gl, gwn) + DisableCalls(gl, gwn)
      modifies this`gwnContext, this`contextCalls, this`rtDepth, this`rtColor, this`gridPrev, this`glContext
      modifies rtFb, Framebuffers(), rtDepth, rtColor, gridPrev, glContext, gwnContext
      ensures Valid() && TornDown()
      ensures doUpdate <==> UpdateWorld in scene.lightCache.flag
      ensures Released(old(rtDepth), old(rtColor), old(gridPrev), old(rtFb[..]))
      ensures unchanged(scene`lightCache, scene.lightCache) && unchanged(RecordArrays(scene.lightCache))
      ensures gl != null ==> gl.disposed && gwn.discarded
      ensures contextCalls == calls0 + JobCalls(gl, gwn, doUpdate)
      ensures Balanced(contextCalls[|calls0|..]) && UsesOnlyOwnContext(contextCalls[|calls0|..], gl)
    {
      doUpdate := RenderWorld();
      DeleteResources();
      JobCallsBalanced(gl, gwn, doUpdate);
      JobCallsInOrder(calls0, gl, gwn, doUpdate);
    }

    /** The world pass of EEVEE_lightbake_job: when the cache asks for its
        world to be updated, the job enters the bake's context, renders the
        world and reports an update; otherwise it does nothing. */
    method RenderWorld() returns (doUpdate: bool)
      requires Valid() && scene.lightCache != null
      requires glContext != null ==> gwnContext != null
      modifies this`gwnContext, this`contextCalls
      ensures Valid() && gwnContext == old(gwnContext)
      ensures doUpdate <==> UpdateWorld in scene.lightCache.flag
      ensures contextCalls == old(contextCalls) + WorldCalls(glContext, gwnContext, doUpdate)
    {
      var lcache := scene.lightCache;
      doUpdate := false;
      if UpdateWorld in lcache.flag {
        ContextEnable();
        doUpdate := true;
        ContextDisable();
      }
    }

    /** The first half of EEVEE_lightbake_job: counting, resource creation
        inside the bake's context, and the gather scan. */
    method SetUp(objects: seq<SceneObject>, sceneEval: Scene, e: Encoding) returns (ghost gwn: GwnContext?)
      requires Valid()
      requires DistinctFramebuffers()
      requires ValidVisibility(sceneEval.eevee.giVisibilityResolution, e)
      requires CacheRoom(scene.lightCache, |Probes(objects, Grid)|, |Probes(objects, Cube)|)
      modifies this, rtFb, Framebuffers()
      modifies scene`lightCache, sceneEval`lightCache, Footprint(scene.lightCache), RecordArrays(scene.lightCache)
      ensures Valid() && Gathered(objects)
      ensures fresh(cubePrb) && fresh(gridPrb)
      ensures fresh(rtDepth) && fresh(rtColor) && fresh(gridPrev) && FramebuffersCreated()
      ensures forall f :: f in Framebuffers() ==> f in old(Framebuffers()) || fresh(f)
      ensures forall i :: 0 <= i < 6 ==> if old(rtFb[i]) != null then rtFb[i] == old(rtFb[i]) else fresh(rtFb[i])
      ensures CacheInstalled(scene, sceneEval, old(StateOf(scene.lightCache)), e)
      ensures old(scene.lightCache) == null ==> fresh(scene.lightCache)
      ensures RecordsPlaced(scene.lightCache, old(RecordsOf(scene.lightCache)),
                            Probes(objects, Grid), Probes(objects, Cube))
      ensures glContext == old(glContext) && gwnContext == gwn
      ensures glContext != null ==> gwn != null
      ensures gwn != null && gwn != old(gwnContext) ==> fresh(gwn)
      ensures contextCalls == old(contextCalls) + EnableCalls(glContext, gwn) + DisableCalls(glContext, gwn)
    {
      ghost var records0 := RecordsOf(scene.lightCache);
      gwn := Prepare(objects, sceneEval, e);
      assert RecordsOf(scene.lightCache) == records0;
      ghost var fbs := rtFb[..];
      GatherCleared(objects, sceneEval, old(StateOf(scene.lightCache)), e);
      assert rtFb[..] == fbs;
    }

    /** The gather scan over the zeroed pointer arrays that resource
        creation made for the counted probes. */
    method GatherCleared(objects: seq<SceneObject>, ghost sceneEval: Scene, ghost before: CacheState, e: Encoding)
      requires Counted(objects) && ProbeArraysCleared()
      requires CacheRoom(scene.lightCache, |Probes(objects, Grid)|, |Probes(objects, Cube)|)
      requires CacheInstalled(scene, sceneEval, before, e)
      modifies gridPrb, cubePrb, RecordArrays(scene.lightCache)
      ensures Gathered(objects)
      ensures RecordsPlaced(scene.lightCache, old(RecordsOf(scene.lightCache)),
                            Probes(objects, Grid), Probes(objects, Cube))
      ensures CacheInstalled(scene, sceneEval, before, e)
    {
      assert Elements(gridPrb) == seq(gridCount, _ => None) && Elements(cubePrb) == seq(cubeCount, _ => None);
      assert Footprint(scene.lightCache) + {scene, sceneEval} !! RecordArrays(scene.lightCache) + {gridPrb, cubePrb};
      GatherProbes(objects);
    }

    /** Counting and resource creation: the part of EEVEE_lightbake_job
        before the gather scan. */
    method Prepare(objects: seq<SceneObject>, sceneEval: Scene, e: Encoding) returns (ghost gwn: GwnContext?)
      requires Valid()
      requires DistinctFramebuffers()
      requires ValidVisibility(sceneEval.eevee.giVisibilityResolution, e)
      modifies this`gridCount, this`cubeCount, this`totalIrrSamples, this`gwnContext, this`contextCalls
      modifies this`bounceCount, this`visRes, this`rtRes, this`refCubeRes
      modifies this`cubePrb, this`gridPrb, this`rtDepth, this`rtColor, this`gridPrev
      modifies rtFb, Framebuffers(), scene`lightCache, sceneEval`lightCache, Footprint(scene.lightCache)
      ensures Valid() && Counted(objects)
      ensures fresh(cubePrb) && fresh(gridPrb) && ProbeArraysCleared()
      ensures fresh(rtDepth) && fresh(rtColor) && fresh(gridPrev) && FramebuffersCreated()
      ensures forall f :: f in Framebuffers() ==> f in old(Framebuffers()) || fresh(f)
      ensures forall i :: 0 <= i < 6 ==> if old(rtFb[i]) != null then rtFb[i] == old(rtFb[i]) else fresh(rtFb[i])
      ensures CacheInstalled(scene, sceneEval, old(StateOf(scene.lightCache)), e)
      ensures old(scene.lightCache) == null ==> fresh(scene.lightCache)
      ensures glContext == old(glContext) && gwnContext == gwn
      ensures glContext != null ==> gwn != null
      ensures gwn != null && gwn != old(gwnContext) ==> fresh(gwn)
      ensures contextCalls == old(contextCalls) + EnableCalls(glContext, gwn) + DisableCalls(glContext, gwn)
    {
      CountProbes(objects);
      gwn := CreateResourcesInContext(sceneEval, e);
    }

    /** Resource creation bracketed by the bake's context, as
        EEVEE_lightbake_job does it. */
    method CreateResourcesInContext(sceneEval: Scene, e: Encoding) returns (ghost gwn: GwnContext?)
      requires Valid()
      requires DistinctFramebuffers()
      requires ValidVisibility(sceneEval.eevee.giVisibilityResolution, e)
      requires 0 <= gridCount && 0 <= cubeCount
      modifies this`gwnContext, this`contextCalls
      modifies this`bounceCount, this`visRes, this`rtRes, this`refCubeRes
      modifies this`cubePrb, this`gridPrb, this`rtDepth, this`rtColor, this`gridPrev
      modifies rtFb, Framebuffers(), scene`lightCache, sceneEval`lightCache, Footprint(scene.lightCache)
      ensures Valid()
      ensures fresh(cubePrb) && fresh(gridPrb) && ProbeArraysCleared()
      ensures fresh(rtDepth) && fresh(rtColor) && fresh(gridPrev) && FramebuffersCreated()
      ensures forall f :: f in Framebuffers() ==> f in old(Framebuffers()) || fresh(f)
      ensures forall i :: 0 <= i < 6 ==> if old(rtFb[i]) != null then rtFb[i] == old(rtFb[i]) else fresh(rtFb[i])
      ensures CacheInstalled(scene, sceneEval, old(StateOf(scene.lightCache)), e)
      ensures old(scene.lightCache) == null ==> fresh(scene.lightCache)
      ensures glContext == old(glContext) && gwnContext == gwn
      ensures glContext != null ==> gwn != null
      ensures gwn != null && gwn != old(gwnContext) ==> fresh(gwn)
      ensures contextCalls == old(contextCalls) + EnableCalls(glContext, gwn) + DisableCalls(glContext, gwn)
    {
      gwn := EnterAndCreate(sceneEval, e);
      ContextDisable();
    }

    /** The bake's context is entered and the resources are created in it. */
    method EnterAndCreate(sceneEval: Scene, e: Encoding) returns (ghost gwn: GwnContext?)
      requires Valid()
      requires DistinctFramebuffers()
      requires ValidVisibility(sceneEval.eevee.giVisibilityResolution, e)
      requires 0 <= gridCount && 0 <= cubeCount
      modifies this`gwnContext, this`contextCalls
      modifies this`bounceCount, this`visRes, this`rtRes, this`refCubeRes
      modifies this`cubePrb, this`gridPrb, this`rtDepth, this`rtColor, this`gridPrev
      modifies rtFb, Framebuffers(), scene`lightCache, sceneEval`lightCache, Footprint(scene.lightCache)
      ensures Valid()
      ensures fresh(cubePrb) && fresh(gridPrb) && ProbeArraysCleared()
      ensures fresh(rtDepth) && fresh(rtColor) && fresh(gridPrev) && FramebuffersCreated()
      ensures forall f :: f in Framebuffers() ==> f in old(Framebuffers()) || fresh(f)
      ensures forall i :: 0 <= i < 6 ==> if old(rtFb[i]) != null then rtFb[i] == old(rtFb[i]) else fresh(rtFb[i])
      ensures CacheInstalled(scene, sceneEval, old(StateOf(scene.lightCache)), e)
      ensures old(scene.lightCache) == null ==> fresh(scene.lightCache)
      ensures glContext == old(glContext) && gwnContext == gwn
      ensures glContext != null ==> gwn != null
      ensures gwn != null && gwn != old(gwnContext) ==> fresh(gwn)
      ensures contextCalls == old(contextCalls) + EnableCalls(glContext, gwn)
    {
      ContextEnable();
      gwn := gwnContext;
      CreateResources(sceneEval, e);
    }

    /** The probe counts of the scan, each with one extra world slot. */
    ghost predicate Counted(objects: seq<SceneObject>)
      reads this`gridCount, this`cubeCount, this`totalIrrSamples
    {
      && gridCount == 1 + |Probes(objects, Grid)|
      && cubeCount == 1 + |Probes(objects, Cube)|
      && totalIrrSamples == 1 + TotalGridSamples(objects)
    }

    /** The counts of the scan, and its grid and cube probes at slots 1
        onwards of pointer arrays that were zeroed. */
    ghost predicate Gathered(objects: seq<SceneObject>)
      reads this`gridCount, this`cubeCount, this`totalIrrSamples, this`gridPrb, this`cubePrb, gridPrb, cubePrb
    {
      && Counted(objects)
      && Placed(gridPrb, seq(gridCount, _ => None), Pointers(Probes(objects, Grid)))
      && Placed(cubePrb, seq(cubeCount, _ => None), Pointers(Probes(objects, Cube)))
    }

    /** Every cube face has its framebuffer. */
    ghost predicate FramebuffersCreated()
      reads rtFb
    {
      forall i :: 0 <= i < rtFb.Length ==> rtFb[i] != null
    }

    /** No working texture, framebuffer or dedicated context is left. */
    ghost predicate TornDown()
      reads this`rtDepth, this`rtColor, this`gridPrev, this`glContext, this`gwnContext, rtFb
    {
      && rtDepth == null && rtColor == null && gridPrev == null
      && (forall i :: 0 <= i < rtFb.Length ==> rtFb[i] == null)
      && glContext == null && gwnContext == null
    }
  }

  /** The two cube targets, the pool and the six face framebuffers have
      all been released. */
  ghost predicate Released(depth: Texture?, color: Texture?, pool: Texture?, fbs: seq<Framebuffer?>)
    reads depth, color, pool, set i | 0 <= i < |fbs| && fbs[i] != null :: fbs[i]
  {
    && depth != null && depth.freed && color != null && color.freed && pool != null && pool.freed
    && |fbs| == 6 && forall i :: 0 <= i < 6 ==> fbs[i] != null && fbs[i].freed
  }

  /** The outcome of the cache policy: the scene has a cache, shared with
      the evaluated scene, which is the kept cache in exactly the state
      before records (the same atlases, each released or not as before,
      the same record arrays and flag) or, when no cache is kept, an
      unreleased placeholder. */
  ghost predicate CacheInstalled(scene: Scene, sceneEval: Scene, before: CacheState, e: Encoding)
    reads scene`lightCache, sceneEval`lightCache, scene.lightCache, Footprint(scene.lightCache)
  {
    && scene.lightCache != null && sceneEval.lightCache == scene.lightCache
    && (before.CacheState? ==> StateOf(scene.lightCache) == before)
    && (before.NoCache? ==> IsPlaceholder(scene.lightCache, e) && !scene.lightCache.freed)
  }

  /** What a cache's record arrays hold. */
  datatype CacheRecords = CacheRecords(gridData: seq<GridData>, cubeData: seq<CubeData>)

  ghost function RecordsOf(lcache: LightCache?): CacheRecords
    reads lcache, RecordArrays(lcache)
  {
    if lcache == null then CacheRecords([], [])
    else CacheRecords(Elements(lcache.gridData), Elements(lcache.cubeData))
  }

  /** The cache has record slots for gridTotal grids and cubeTotal cubes;
      with neither, it may be absent. */
  ghost predicate CacheRoom(lcache: LightCache?, gridTotal: int, cubeTotal: int)
    reads lcache
  {
    && (gridTotal > 0 ==> lcache != null && HasSlots(lcache.gridData, gridTotal))
    && (cubeTotal > 0 ==> lcache != null && HasSlots(lcache.cubeData, cubeTotal))
  }

  /** A cache as creation leaves it has no record arrays, so it has no room
      for a single grid or cube record: the gather scan of a scene with a
      probe over a freshly created cache writes through an absent array. */
  lemma PlaceholderHasNoRoom(c: LightCache, e: Encoding)
    requires IsPlaceholder(c, e)
    ensures !CacheRoom(c, 1, 0) && !CacheRoom(c, 0, 1)
  {
  }

  /** The cache's records of grids and cubes sit at slots 1 onwards over
      the contents of records0. */
  ghost predicate RecordsPlaced(lcache: LightCache?, records0: CacheRecords,
                                grids: seq<SceneObject>, cubes: seq<SceneObject>)
    reads lcache, RecordArrays(lcache)
  {
    if lcache == null then grids == [] && cubes == []
    else
      && Placed(lcache.gridData, records0.gridData, GridRecords(grids))
      && Placed(lcache.cubeData, records0.cubeData, CubeRecords(cubes))
  }

  /** Stores the pointer of probe o after the probes already placed in a. */
  method PlacePointer(a: array?<Option<LightProbe>>, o: SceneObject, slot: int,
                      ghost placed: seq<SceneObject>, ghost a0: seq<Option<LightProbe>>)
    requires slot == |placed| + 1 && HasSlots(a, slot)
    requires Placed(a, a0, Pointers(placed))
    modifies a
    ensures Placed(a, a0, Pointers(placed + [o]))
  {
    RecordsSnoc(placed, o);
    PlacedExtend(a[..], a0, Pointers(placed), ProbeData(o));
    a[slot] := ProbeData(o);
  }

  /** Converts grid probe o into the cache's next grid record. */
  method PlaceGridRecord(lcache: LightCache?, o: SceneObject, slot: int,
                         ghost grids: seq<SceneObject>, ghost cubes: seq<SceneObject>,
                         ghost records0: CacheRecords)
    requires slot == |grids| + 1
    requires lcache != null && HasSlots(lcache.gridData, slot)
    requires RecordsPlaced(lcache, records0, grids, cubes)
    modifies lcache.gridData
    ensures RecordsPlaced(lcache, records0, grids + [o], cubes)
  {
    RecordsSnoc(grids, o);
    PlacedExtend(lcache.gridData[..], records0.gridData, GridRecords(grids), GridDataOf(o));
    lcache.gridData[slot] := GridDataOf(o);
  }

  /** Converts cube probe o into the cache's next cube record. */
  method PlaceCubeRecord(lcache: LightCache?, o: SceneObject, slot: int,
                         ghost grids: seq<SceneObject>, ghost cubes: seq<SceneObject>,
                         ghost records0: CacheRecords)
    requires slot == |cubes| + 1
    requires lcache != null && HasSlots(lcache.cubeData, slot)
    requires RecordsPlaced(lcache, records0, grids, cubes)
    modifies lcache.cubeData
    ensures RecordsPlaced(lcache, records0, grids, cubes + [o])
  {
    RecordsSnoc(cubes, o);
    PlacedExtend(lcache.cubeData[..], records0.cubeData, CubeRecords(cubes), CubeDataOf(o));
    lcache.cubeData[slot] := CubeDataOf(o);
  }

  /** The grid pointer array after one object of the scan as written: a
      grid probe at the grid slot, a cube probe at the cube slot. */
  function AsWrittenStep(r: seq<Option<LightProbe>>, o: SceneObject, gridSlot: int, cubeSlot: int)
    : (r': seq<Option<LightProbe>>)
    requires IsProbeOfType(o, Grid) ==> 0 <= gridSlot < |r|
    requires IsProbeOfType(o, Cube) ==> 0 <= cubeSlot < |r|
    ensures |r'| == |r|
  {
    if IsProbeOfType(o, Grid) then r[gridSlot := ProbeData(o)]
    else if IsProbeOfType(o, Cube) then r[cubeSlot := ProbeData(o)]
    else r
  }

  /** The grid pointer array after the whole scan as written. */
  function AsWrittenGridPrb(before: seq<Option<LightProbe>>, s: seq<SceneObject>)
    : (r: seq<Option<LightProbe>>)
    requires |Probes(s, Grid)| < |before| && |Probes(s, Cube)| < |before|
    ensures |r| == |before|
    decreases |s|
  {
    if s == [] then before
    else
      var init := s[..|s| - 1];
      AsWrittenStep(AsWrittenGridPrb(before, init), s[|s| - 1],
                    1 + |Probes(init, Grid)|, 1 + |Probes(init, Cube)|)
  }

  /** Extending the scan by one object applies one as-written step. */
  lemma AsWrittenGridPrbPrefix(before: seq<Option<LightProbe>>, s: seq<SceneObject>, i: nat)
    requires i < |s|
    requires |Probes(s, Grid)| < |before| && |Probes(s, Cube)| < |before|
    ensures |Probes(s[..i + 1], Grid)| <= |Probes(s, Grid)|
    ensures |Probes(s[..i + 1], Cube)| <= |Probes(s, Cube)|
    ensures Probes(s[..i + 1], Grid) ==
            Probes(s[..i], Grid) + (if IsProbeOfType(s[i], Grid) then [s[i]] else [])
    ensures Probes(s[..i + 1], Cube) ==
            Probes(s[..i], Cube) + (if IsProbeOfType(s[i], Cube) then [s[i]] else [])
    ensures AsWrittenGridPrb(before, s[..i + 1]) ==
            AsWrittenStep(AsWrittenGridPrb(before, s[..i]), s[i],
                          1 + |Probes(s[..i], Grid)|, 1 + |Probes(s[..i], Cube)|)
  {
    ProbesPrefixCount(s, i + 1, Grid);
    ProbesPrefixCount(s, i + 1, Cube);
    ProbesPrefix(s, i, Grid);
    ProbesPrefix(s, i, Cube);
    assert s[..i + 1][..i] == s[..i];
  }

  /** As written, a scene whose only probe is a cube makes the scan store
      that cube at slot 1 of a grid pointer array sized for the world
      grid alone: one slot. */
  lemma AsWrittenCubeOverrunsGridSlots(n: nat, c: LightProbe)
    requires c.probeType == Cube
    ensures var s := [LightProbeObject(n, c)];
            && 1 + |Probes(s, Grid)| == 1
            && 1 + |Probes(s, Cube)| == 2
            && !(|Probes(s, Cube)| < 1 + |Probes(s, Grid)|)
  {
    var s := [LightProbeObject(n, c)];
    assert s[..0] == [];
    assert Probes(s, Grid) == Probes([], Grid);
    assert Probes(s, Cube) == Probes([], Cube) + [s[0]];
  }

  /** As written, with one grid then one cube the cube's pointer replaces
      the grid's at slot 1 of the grid pointers, where the corrected scan
      keeps the grid. */
  lemma AsWrittenOverwritesGrid(n: nat, g: LightProbe, m: nat, c: LightProbe)
    requires g.probeType == Grid && c.probeType == Cube
    ensures var s := [LightProbeObject(n, g), LightProbeObject(m, c)];
            && Probes(s, Grid) == [s[0]] && Probes(s, Cube) == [s[1]]
            && AsWrittenGridPrb([None, None], s) == [None, Some(c)]
            && PlacedSeq([None, Some(g)], [None, None], Pointers(Probes(s, Grid)))
            && PlacedSeq([None, Some(c)], [None, None], Pointers(Probes(s, Cube)))
  {
    var s := [LightProbeObject(n, g), LightProbeObject(m, c)];
    var s1 := s[..1];
    assert s1 == [s[0]] && s1[..0] == [];
    assert Probes(s1, Grid) == [s[0]] && Probes(s1, Cube) == [];
    assert AsWrittenGridPrb([None, None], s1) == [None, Some(g)];
    assert Probes(s, Grid) == [s[0]] && Probes(s, Cube) == [s[1]];
  }
}
