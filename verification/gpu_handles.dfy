/**
 * Opaque GPU objects the bake creates and releases: textures,
 * framebuffers and the two rendering contexts of a background bake.
 * Only their creation parameters and whether they were released are
 * modelled; the GPU work behind them is not.
 */
module GpuHandles {

  datatype TextureFormat = Rgba8 | Rgba16f | DepthComponent24

  datatype TextureShape =
    | Array2D(width: int, height: int, layers: int)
    | CubeMap(resolution: int)

  /** What a texture holds when created: nothing defined, or the opaque
      red that marks data not yet baked. */
  datatype InitialData = NoData | UnbakedRed

  class Texture {
    const shape: TextureShape
    const format: TextureFormat
    const filter: bool
    const mipmap: bool
    const initial: InitialData
    var freed: bool

    constructor (shape: TextureShape, format: TextureFormat, filter: bool, mipmap: bool, initial: InitialData)
      ensures this.shape == shape && this.format == format
      ensures this.filter == filter && this.mipmap == mipmap && this.initial == initial
      ensures !freed
    {
      this.shape, this.format := shape, format;
      this.filter, this.mipmap, this.initial := filter, mipmap, initial;
      freed := false;
    }

    method Free()
      modifies this
      ensures freed
    {
      freed := true;
    }
  }

  /** A framebuffer rendering into one face of a depth and a colour cube
      texture. */
  class Framebuffer {
    var depth: Texture?
    var color: Texture?
    var face: int
    var freed: bool

    constructor ()
      ensures depth == null && color == null && !freed
    {
      depth, color, face, freed := null, null, 0, false;
    }

    /** Attaches the given face of both cube textures. */
    method AttachCubeFace(depth: Texture, color: Texture, face: int)
      modifies this
      ensures this.depth == depth && this.color == color && this.face == face
      ensures freed == old(freed)
    {
      this.depth, this.color, this.face := depth, color, face;
    }

    method Free()
      modifies this
      ensures freed
    {
      freed := true;
    }
  }

  /** A dedicated OpenGL context for baking off the interactive thread. */
  class GlContext {
    var disposed: bool

    constructor ()
      ensures !disposed
    {
      disposed := false;
    }

    method Dispose()
      modifies this
      ensures disposed
    {
      disposed := true;
    }
  }

  /** The lightweight drawing context that accompanies a GlContext. */
  class GwnContext {
    var discarded: bool

    constructor ()
      ensures !discarded
    {
      discarded := false;
    }

    method Discard()
      modifies this
      ensures discarded
    {
      discarded := true;
    }
  }
}
