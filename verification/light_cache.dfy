/**
 * The light cache: the baked irradiance and reflection atlases and the
 * per-probe records, owned by the scene (EEVEE_lightcache_validate,
 * EEVEE_lightcache_create, EEVEE_lightcache_free).
 */
module LightCache {
  import opened GpuHandles
  import opened IrradiancePool
  import opened ProbeInventory

  /** Status bits of a light cache; only the world-update bit is read by
      the bake. */
  datatype CacheFlag = UpdateWorld | OtherFlag(bit: nat)

  /** Texel format of the irradiance atlas: signed half floats for
      spherical harmonics, bytes otherwise. */
  function IrradianceFormat(e: Encoding): TextureFormat
  {
    if e == ShL2 then Rgba16f else Rgba8
  }

  class LightCache {
    var gridTx: Texture?
    var cubeTx: Texture?
    var gridData: array?<GridData>
    var cubeData: array?<CubeData>
    var flag: set<CacheFlag>
    var freed: bool

    /** A cache of 1x1x1 red placeholder atlases, readable before any bake;
        its record arrays stay unallocated and no flag is set. */
    constructor Create(e: Encoding, cubeCount: int, irrSamples: int)
      ensures fresh(gridTx) && fresh(cubeTx)
      ensures IsPlaceholder(this, e)
      ensures !freed && !gridTx.freed && !cubeTx.freed
    {
      gridTx := new Texture(Array2D(1, 1, 1), IrradianceFormat(e), true, false, UnbakedRed);
      cubeTx := new Texture(Array2D(1, 1, 1), Rgba8, true, false, UnbakedRed);
      gridData, cubeData := null, null;
      flag := {};
      freed := false;
    }

    /** Everything the cache owns. */
    ghost function Repr(): set<object>
      reads this
    {
      {this} + (if gridTx != null then {gridTx} else {})
             + (if cubeTx != null then {cubeTx} else {})
    }

    /** Releases the atlases that exist and forgets the record arrays; the
        cache itself is released too. */
    method Free()
      modifies Repr()
      ensures old(gridTx) != null ==> old(gridTx).freed
      ensures old(cubeTx) != null ==> old(cubeTx).freed
      ensures gridTx == null && cubeTx == null && gridData == null && cubeData == null
      ensures freed && flag == old(flag)
    {
      if cubeTx != null {
        cubeTx.Free();
        cubeTx := null;
      }
      if gridTx != null {
        gridTx.Free();
        gridTx := null;
      }
      cubeData := null;
      gridData := null;
      freed := true;
    }
  }

  /** Everything a possibly absent cache owns. */
  ghost function Footprint(c: LightCache?): set<object>
    reads c
  {
    if c == null then {} else c.Repr()
  }

  /** Everything about a possibly absent cache that can change: which
      cache it is, its atlases and whether they were released, its record
      arrays, its flag and whether it was released itself. */
  datatype CacheState =
    | NoCache
    | CacheState(cache: LightCache, gridTx: Texture?, gridTxFreed: bool, cubeTx: Texture?, cubeTxFreed: bool,
                 gridData: array?<GridData>, cubeData: array?<CubeData>, flag: set<CacheFlag>, freed: bool)

  ghost function StateOf(c: LightCache?): (s: CacheState)
    reads c, Footprint(c)
    ensures s.NoCache? <==> c == null
    ensures s.CacheState? ==> s.cache == c && s.flag == c.flag
  {
    if c == null then NoCache
    else CacheState(c, c.gridTx, c.gridTx != null && c.gridTx.freed, c.cubeTx, c.cubeTx != null && c.cubeTx.freed,
                    c.gridData, c.cubeData, c.flag, c.freed)
  }

  /** The record arrays of a possibly absent cache. */
  ghost function RecordArrays(c: LightCache?): set<object>
    reads c
  {
    var grids: set<object> := if c != null && c.gridData != null then {c.gridData} else {};
    var cubes: set<object> := if c != null && c.cubeData != null then {c.cubeData} else {};
    grids + cubes
  }

  /** The fresh cache that creation installs: filtered 1x1x1 atlases
      without mipmaps, filled with unbaked red. */
  ghost predicate IsPlaceholder(c: LightCache, e: Encoding)
    reads c
  {
    && c.gridTx != null && c.cubeTx != null
    && c.gridTx.shape == Array2D(1, 1, 1) && c.cubeTx.shape == Array2D(1, 1, 1)
    && c.gridTx.format == IrradianceFormat(e) && c.cubeTx.format == Rgba8
    && c.gridTx.initial == UnbakedRed && c.cubeTx.initial == UnbakedRed
    && c.gridTx.filter && c.cubeTx.filter && !c.gridTx.mipmap && !c.cubeTx.mipmap
    && c.gridData == null && c.cubeData == null
    && c.flag == {}
  }

  /** The render settings of a scene that the bake reads. */
  datatype EeveeSettings = EeveeSettings(giDiffuseBounces: int,
                                         giCubemapResolution: int,
                                         giVisibilityResolution: int)

  /** A scene, original or evaluated; it refers to its light cache. */
  class Scene {
    const eevee: EeveeSettings
    var lightCache: LightCache?

    constructor (eevee: EeveeSettings, lightCache: LightCache?)
      ensures this.eevee == eevee && this.lightCache == lightCache
    {
      this.eevee, this.lightCache := eevee, lightCache;
    }
  }

  /**
   * Whether a cache can take the bake's data. Only its presence is
   * checked: the settings and probe counts are not compared.
   */
  function Validate(lightCache: LightCache?, eevee: EeveeSettings,
                    cubeCount: int, irrSamples: int): (valid: bool)
    ensures valid <==> lightCache != null
  {
    if lightCache != null then true else false
  }

  /** The verdict depends on the cache alone: neither the settings nor the
      probe and sample counts change it. */
  lemma ValidateIgnoresCounts(c: LightCache?, eevee: EeveeSettings, eevee': EeveeSettings,
                              cubeCount: int, cubeCount': int, irr: int, irr': int)
    ensures Validate(c, eevee, cubeCount, irr) == Validate(c, eevee', cubeCount', irr')
  {
  }
}
