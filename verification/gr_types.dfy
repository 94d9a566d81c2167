/** Scalar widths, opaque resource handles and the small enumerations the
    command-buffer interface passes around.

    Resource objects (buffers, texture views, programs, ...) are opaque to the
    recording interface: they are modelled as identities. A buffer also carries
    its size in bytes, because the "to the end of the buffer" sentinel is
    resolved against it. The enumerations below are declared in graphics
    headers that are not part of this model; each datatype lists the
    enumerators that the command-buffer header names and folds the rest into
    one `Other...` constructor carrying the enumerator's code. */
module GrTypes {

  datatype Option<+T> = None | Some(value: T)

  /** Unsigned 32-bit integer (`U32`). */
  type U32 = x: nat | x < 0x1_0000_0000

  /** Unsigned address-width integer (`PtrSize`), taken to be 64 bits wide. */
  type PtrSize = x: nat | x < 0x1_0000_0000_0000_0000

  /** Largest `U32`; the default render-pass width and height. */
  const kMaxU32: U32 := 0xFFFF_FFFF

  /** Largest `PtrSize`; used as a "whole buffer" sentinel for sizes and ranges. */
  const kMaxPtrSize: PtrSize := 0xFFFF_FFFF_FFFF_FFFF

  // Opaque resource handles.
  datatype Buffer = Buffer(id: nat, size: PtrSize)
  datatype TextureView = TextureView(id: nat)
  datatype Texture = Texture(id: nat)
  datatype ClearValue = ClearValue(raw: seq<bv32>)
  datatype Sampler = Sampler(id: nat)
  datatype ShaderProgram = ShaderProgram(id: nat)
  datatype AccelerationStructure = AccelerationStructure(id: nat)
  datatype Framebuffer = Framebuffer(id: nat)
  datatype OcclusionQuery = OcclusionQuery(id: nat)
  datatype TimestampQuery = TimestampQuery(id: nat)
  datatype Fence = Fence(id: nat)
  datatype GrUpscaler = GrUpscaler(id: nat)

  /** Usage bitmasks of textures, buffers and acceleration structures. Their
      bits are defined elsewhere; only `kNone == 0` is relied on here. */
  type UsageMask = nat
  const kUsageNone: UsageMask := 0

  /** A texture subresource (mips, layers, faces), opaque here. */
  datatype TextureSubresourceInfo = TextureSubresourceInfo(id: nat)

  datatype CompareOperation = kLess | kAlways | OtherCompareOperation(code: nat)
  datatype StencilOperation = kKeep | OtherStencilOperation(code: nat)
  datatype BlendFactor = kZero | kOne | OtherBlendFactor(code: nat)
  datatype BlendOperation = kAdd | OtherBlendOperation(code: nat)
  datatype RasterizationOrder = kOrdered | OtherRasterizationOrder(code: nat)
  datatype VrsRate = k1x1 | OtherVrsRate(code: nat)
  datatype VertexStepRate = kVertex | OtherVertexStepRate(code: nat)
  datatype FillMode = FillMode(code: nat)
  datatype IndexType = IndexType(code: nat)
  datatype PrimitiveTopology = PrimitiveTopology(code: nat)
  /** Texel and vertex formats; named here are the ones the vertex-stream
      tables use. */
  datatype Format =
    | kR16G16B16A16_Unorm
    | kR8G8B8A8_Snorm
    | kR8G8B8A8_Uint
    | kR32_Sfloat
    | kR32G32_Sfloat
    | kR32G32B32_Sfloat
    | kR32G32B32A32_Sfloat
    | OtherFormat(code: nat)

  /** Colour channel write mask (`ColorBit`), a bitmask. */
  type ColorBit = nat

  /** One face of a primitive, as addressed by per-face stencil state. */
  datatype Face = Front | Back

  /** `FaceSelectionBit`: a bitmask naming the front face, the back face, both
      or neither. */
  datatype FaceSelection = FaceSelection(front: bool, back: bool)
  {
    predicate Selects(f: Face) {
      match f
      case Front => front
      case Back => back
    }
  }

  const kFaceBack := FaceSelection(false, true)

  /** An axis-aligned pixel rectangle as passed to viewport, scissor and
      render-area parameters. */
  datatype Rect = Rect(minx: U32, miny: U32, width: U32, height: U32)
  {
    /** True when `inner` lies entirely within this rectangle. */
    predicate Contains(inner: Rect) {
      && minx <= inner.minx
      && miny <= inner.miny
      && inner.minx + inner.width <= minx + width
      && inner.miny + inner.height <= miny + height
    }
  }
}
