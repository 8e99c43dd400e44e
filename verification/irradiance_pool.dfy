/**
 * Sizing of the irradiance pool: the 2D-array texture into which the
 * samples of every irradiance grid are packed (irradiance_pool_size_get).
 * All arithmetic is on C `int`; the float ceiling of the source is
 * modelled as an exact integer ceiling.
 */
module IrradiancePool {

  /** Most layers the pool may have (the OpenGL 3.3 core minimum). */
  const MaxPoolLayer: int := 256
  /** Largest width, in texels, the pool is packed to. */
  const MaxPoolSize: int := 1024

  /** The irradiance encoding chosen at compile time; each fixes the texel
      block that one irradiance sample occupies. */
  datatype Encoding = ShL2 | Cubemap | Hl2

  function SampleSizeX(e: Encoding): int
  {
    match e
    case ShL2 => 4
    case Cubemap => 8
    case Hl2 => 4
  }

  function SampleSizeY(e: Encoding): int
  {
    match e
    case ShL2 => 4
    case Cubemap => 8
    case Hl2 => 2
  }

  function Min(a: int, b: int): int { if a < b then a else b }
  function Max(a: int, b: int): int { if a < b then b else a }

  /** C's `/` on `int`, which rounds toward zero. */
  function CDiv(a: int, b: int): (q: int)
    requires b > 0
    ensures 0 <= a ==> 0 <= a - q * b < b
    ensures a < 0 ==> -b < a - q * b <= 0
  {
    if 0 <= a then a / b else -((-a) / b)
  }

  /** The smallest integer not below a / b. */
  function CeilDiv(a: int, b: int): (q: int)
    requires b > 0
    ensures (q - 1) * b < a <= q * b
  {
    var k := (-a) / b;
    assert k * b <= -a < k * b + b;
    -k
  }

  /** The visibility resolutions the sizing is defined for: below a sample
      block the layer count degenerates to 1 and the ceiling divides by
      zero; above MaxPoolSize no tile fits in a row. */
  predicate ValidVisibility(vis: int, e: Encoding)
  {
    SampleSizeX(e) <= vis && SampleSizeY(e) <= vis && vis <= MaxPoolSize
  }

  /** How many irradiance samples fit in one visibility tile. */
  function IrradiancePerVisibility(vis: int, e: Encoding): int
    requires ValidVisibility(vis, e)
  {
    (vis / SampleSizeX(e)) * (vis / SampleSizeY(e))
  }

  /** Dimensions of a 2D-array texture: width, height and layer count. */
  datatype PoolSize = PoolSize(width: int, height: int, layers: int)

  /** Columns of visibility tiles in one row of the pool. */
  function Columns(vis: int): int
    requires 0 < vis
  {
    MaxPoolSize / vis
  }

  /** Texel cells (columns x rows of tiles, one sample per data layer)
      the pool offers. */
  function Capacity(vis: int, r: PoolSize): int
    requires 0 < vis
  {
    (r.width / vis) * (r.height / vis) * (r.layers - 1)
  }

  /** A multiple of a positive b divides back exactly. */
  lemma {:induction false} MultipleOf(b: int, m: int)
    requires 0 < b
    ensures (b * m) / b == m && (b * m) % b == 0
  {
    var q, r := (b * m) / b, (b * m) % b;
    assert b * m == b * q + r && 0 <= r < b;
    assert b * (m - q) == r;
    if m - q >= 1 {
      assert false;
    } else if m - q <= -1 {
      assert false;
    }
  }

  /** Scaling by a positive factor keeps order. */
  lemma {:induction false} ScaleMonotone(b: int, m: int, n: int)
    requires 0 < b && m <= n
    ensures b * m <= b * n
  {
    assert b * n - b * m == b * (n - m);
  }

  /** A row of Columns(vis) tiles is at most MaxPoolSize wide. */
  lemma ColumnsFit(vis: int)
    requires 0 < vis <= MaxPoolSize
    ensures 1 <= Columns(vis) && vis * Columns(vis) <= MaxPoolSize
  {
    var c, m := MaxPoolSize / vis, MaxPoolSize % vis;
    assert vis * c + m == MaxPoolSize && 0 <= m;
  }

  /** The tile dimension in tiles, as the source computes it. */
  function TilesAcross(vis: int, texels: int): int
    requires 0 < vis
  {
    Max(1, Min(texels, Columns(vis)))
  }

  /** The tile rows, as the source computes them. */
  function TilesDown(vis: int, texels: int): int
    requires 0 < vis <= MaxPoolSize
  {
    ColumnsFit(vis);
    Max(1, CDiv(texels, Columns(vis)))
  }

  /** Data layers: one per irradiance sample a tile holds, capped so that
      the layer count stays within MaxPoolLayer. */
  function PoolLayers(vis: int, e: Encoding): (layers: int)
    requires ValidVisibility(vis, e)
    ensures layers == Min(IrradiancePerVisibility(vis, e) + 1, MaxPoolLayer)
    ensures 2 <= layers <= MaxPoolLayer
  {
    assert vis / SampleSizeX(e) >= 1 && vis / SampleSizeY(e) >= 1;
    ScaleMonotone(vis / SampleSizeX(e), 1, vis / SampleSizeY(e));
    Min(IrradiancePerVisibility(vis, e) + 1, MaxPoolLayer)
  }

  /**
   * The packed size of the pool for totalSamples irradiance samples.
   * One layer per sample that fits in a visibility tile plus one for the
   * irradiance itself, capped at MaxPoolLayer; the samples are spread as
   * texels over the data layers, placed in rows of at most Columns(vis)
   * tiles. The row count is a floor and the height is not clamped.
   */
  function PoolSizeGet(vis: int, totalSamples: int, e: Encoding): (r: PoolSize)
    requires ValidVisibility(vis, e)
    ensures r.layers == PoolLayers(vis, e)
    ensures r.width % vis == 0 && vis <= r.width <= vis * Columns(vis) <= MaxPoolSize
    ensures r.height % vis == 0 && vis <= r.height
  {
    var layers := PoolLayers(vis, e);
    var texels := CeilDiv(totalSamples, layers - 1);
    var across := TilesAcross(vis, texels);
    var down := TilesDown(vis, texels);
    ColumnsFit(vis);
    MultipleOf(vis, across);
    MultipleOf(vis, down);
    ScaleMonotone(vis, 1, across);
    ScaleMonotone(vis, 1, down);
    ScaleMonotone(vis, across, Columns(vis));
    assert vis * Columns(vis) <= MaxPoolSize;
    assert (vis * across) % vis == 0 && vis <= vis * across <= vis * Columns(vis);
    assert (vis * down) % vis == 0 && vis <= vis * down;
    PoolSize(vis * across, vis * down, layers)
  }

  /** With no samples at all the pool is a single tile. */
  lemma PoolSizeOfNoSamples(vis: int, e: Encoding)
    requires ValidVisibility(vis, e)
    ensures PoolSizeGet(vis, 0, e) == PoolSize(vis, vis, PoolLayers(vis, e))
  {
  }

  /** Samples that fit in n cells of d layers take at most n texels. */
  lemma {:induction false} CeilWithin(total: int, d: int, n: int)
    requires 1 <= d && total <= n * d
    ensures CeilDiv(total, d) <= n
  {
    var texels := CeilDiv(total, d);
    assert (texels - 1) * d < n * d;
    if texels - 1 >= n {
      ScaleMonotone(d, n, texels - 1);
      assert false;
    }
  }

  /** Extra rows only add cells. */
  lemma {:induction false} MoreRowsMoreCells(total: int, across: int, down: int, d: int)
    requires total <= across * d && 1 <= across && 1 <= down && 1 <= d
    ensures total <= across * down * d
  {
    ScaleMonotone(across, 1, d);
    ScaleMonotone(across * d, 1, down);
    assert across * down * d == (across * d) * down;
  }

  /** When the samples fit in a single row of tiles, the pool holds them
      all. */
  lemma PoolHoldsSingleRow(vis: int, totalSamples: int, e: Encoding)
    requires ValidVisibility(vis, e)
    requires 0 <= totalSamples <= Columns(vis) * (PoolLayers(vis, e) - 1)
    ensures totalSamples <= Capacity(vis, PoolSizeGet(vis, totalSamples, e))
  {
    ColumnsFit(vis);
    var r := PoolSizeGet(vis, totalSamples, e);
    var d := PoolLayers(vis, e) - 1;
    var texels := CeilDiv(totalSamples, d);
    CeilWithin(totalSamples, d, Columns(vis));
    var across := TilesAcross(vis, texels);
    var down := TilesDown(vis, texels);
    MultipleOf(vis, across);
    MultipleOf(vis, down);
    assert r.width / vis == across && r.height / vis == down;
    ScaleMonotone(d, texels, across);
    MoreRowsMoreCells(totalSamples, across, down, d);
  }

  /** The height is not clamped: enough samples push it past MaxPoolSize. */
  lemma PoolHeightUnclamped()
    ensures PoolSizeGet(32, 131072, ShL2).height == 2048 > MaxPoolSize
  {
    assert IrradiancePerVisibility(32, ShL2) == 64;
    assert PoolLayers(32, ShL2) == 65;
    assert CeilDiv(131072, 64) == 2048;
    assert Columns(32) == 32;
    assert TilesDown(32, 2048) == 64;
  }

  /** The rows are a floor: a texel more than one full row still gets a
      single row, and samples are left without a cell. */
  lemma PoolMayDropSamples()
    ensures Capacity(32, PoolSizeGet(32, 2112, ShL2)) == 2048 < 2112
  {
    assert IrradiancePerVisibility(32, ShL2) == 64;
    assert PoolLayers(32, ShL2) == 65;
    assert CeilDiv(2112, 64) == 33;
    assert Columns(32) == 32;
    assert TilesAcross(32, 33) == 32;
    assert TilesDown(32, 33) == 1;
    var r := PoolSizeGet(32, 2112, ShL2);
    assert r == PoolSize(1024, 32, 65);
  }
}
