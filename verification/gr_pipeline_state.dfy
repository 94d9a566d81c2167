/** The pipeline state a command buffer latches between draws.

    Every state-setting call of the command-buffer interface writes one or
    more named slots of this record; the most recent write to a slot wins and
    every other slot is left alone. Slots whose default the interface documents
    (cull mode, depth compare, blend factors and operations, rasterization
    order, VRS rate, scissor) start at that default; the remaining slots start
    undefined (`None` through `Get`). Float-valued state (polygon offset, line
    width) is not part of this model. */
module GrPipelineState {
  import opened GrTypes

  datatype VertexBufferBinding = VertexBufferBinding(buffer: Buffer, offset: PtrSize, stride: PtrSize, stepRate: VertexStepRate)
  datatype VertexAttribute = VertexAttribute(buffBinding: U32, format: Format, relativeOffset: PtrSize)
  datatype IndexBinding = IndexBinding(buffer: Buffer, offset: PtrSize, indexType: IndexType)
  datatype StencilOperations = StencilOperations(stencilFail: StencilOperation, stencilPassDepthFail: StencilOperation, stencilPassDepthPass: StencilOperation)
  datatype BlendFactors = BlendFactors(srcRgb: BlendFactor, dstRgb: BlendFactor, srcA: BlendFactor, dstA: BlendFactor)
  datatype BlendOperations = BlendOperations(funcRgb: BlendOperation, funcA: BlendOperation)

  /** Scissor: disabled, or a rectangle. */
  datatype Scissor = ScissorDisabled | ScissorRect(rect: Rect)

  /** Per-face stencil state; every field starts undefined. */
  datatype StencilFace = StencilFace(
    operations: Option<StencilOperations>,
    compareOperation: Option<CompareOperation>,
    compareMask: Option<U32>,
    writeMask: Option<U32>,
    reference: Option<U32>)

  const kUndefinedStencilFace := StencilFace(None, None, None, None, None)

  /** Documented per-attachment defaults: ONE, ZERO, ONE, ZERO and ADD, ADD. */
  const kDefaultBlendFactors := BlendFactors(kOne, kZero, kOne, kZero)
  const kDefaultBlendOperations := BlendOperations(kAdd, kAdd)

  /** Address of one descriptor: (descriptor set, binding, array index). */
  datatype DescriptorSlot = DescriptorSlot(descriptorSet: U32, binding: U32, arrayIdx: U32)

  /** What a descriptor-binding call puts in a descriptor slot. A range equal
      to `kMaxPtrSize` is kept as given: it is resolved against the buffer
      size only when the range is consumed. */
  datatype Descriptor =
    | TextureAndSamplerDescriptor(view: TextureView, sampler: Sampler)
    | SamplerDescriptor(sampler: Sampler)
    | TextureDescriptor(view: TextureView)
    | ConstantBufferDescriptor(buffer: Buffer, offset: PtrSize, range: PtrSize)
    | UavBufferDescriptor(buffer: Buffer, offset: PtrSize, range: PtrSize)
    | UavTextureDescriptor(view: TextureView)
    | ReadOnlyTextureBufferDescriptor(buffer: Buffer, offset: PtrSize, range: PtrSize, format: Format)
    | AccelerationStructureDescriptor(accelerationStructure: AccelerationStructure)

  /** Vertex input: vertex buffers, attributes, index buffer, primitive restart. */
  datatype InputState = InputState(
    vertexBuffers: map<U32, VertexBufferBinding>,
    vertexAttributes: map<U32, VertexAttribute>,
    indexBuffer: Option<IndexBinding>,
    primitiveRestart: Option<bool>)

  /** Fixed-function rasterization and depth state. */
  datatype RasterState = RasterState(
    viewport: Option<Rect>,
    scissor: Scissor,
    fillMode: Option<FillMode>,
    cullMode: FaceSelection,
    depthWrite: Option<bool>,
    depthCompare: CompareOperation,
    alphaToCoverage: Option<bool>,
    rasterizationOrder: RasterizationOrder,
    vrsRate: VrsRate)

  /** Per-colour-attachment state; an attachment missing from a map holds the
      default (blend) or is undefined (write mask). */
  datatype BlendState = BlendState(
    colorWriteMasks: map<U32, ColorBit>,
    blendFactors: map<U32, BlendFactors>,
    blendOperations: map<U32, BlendOperations>)

  /** Bound program, descriptors, bindless sets and push constants. */
  datatype ResourceState = ResourceState(
    descriptors: map<DescriptorSlot, Descriptor>,
    bindlessSets: set<U32>,
    pushConstants: Option<seq<bv8>>,
    program: Option<ShaderProgram>)

  datatype PipelineState = PipelineState(
    input: InputState,
    raster: RasterState,
    stencilFront: StencilFace,
    stencilBack: StencilFace,
    blend: BlendState,
    resources: ResourceState)

  datatype InputSlot = VertexBufferSlot(binding: U32) | VertexAttributeSlot(location: U32) | IndexBufferSlot | PrimitiveRestartSlot
  datatype RasterSlot =
    | ViewportSlot | ScissorSlot | FillModeSlot | CullModeSlot | DepthWriteSlot | DepthCompareSlot
    | AlphaToCoverageSlot | RasterizationOrderSlot | VrsRateSlot
  datatype StencilField = OperationsField | CompareOperationField | CompareMaskField | WriteMaskField | ReferenceField
  datatype AttachmentField = ColorWriteMaskField | BlendFactorsField | BlendOperationsField
  datatype ResourceSlot = DescriptorAt(at: DescriptorSlot) | BindlessSlot(descriptorSet: U32) | PushConstantsSlot | ProgramSlot

  /** One observable state slot. */
  datatype Slot =
    | Input(inputSlot: InputSlot)
    | Raster(rasterSlot: RasterSlot)
    | Stencil(stencilField: StencilField, face: Face)
    | Attachment(attachmentField: AttachmentField, attachment: U32)
    | Resource(resourceSlot: ResourceSlot)

  /** The value held by a slot. */
  datatype Value =
    | VertexBufferValue(vb: VertexBufferBinding)
    | VertexAttributeValue(attribute: VertexAttribute)
    | IndexBufferValue(ib: IndexBinding)
    | BoolValue(b: bool)
    | RectValue(rect: Rect)
    | ScissorValue(scissor: Scissor)
    | FillModeValue(fillMode: FillMode)
    | FaceSelectionValue(faces: FaceSelection)
    | StencilOperationsValue(ops: StencilOperations)
    | CompareValue(compare: CompareOperation)
    | U32Value(u: U32)
    | ColorBitValue(mask: ColorBit)
    | BlendFactorsValue(factors: BlendFactors)
    | BlendOperationsValue(operations: BlendOperations)
    | RasterizationOrderValue(order: RasterizationOrder)
    | DescriptorValue(descriptor: Descriptor)
    | BindlessValue
    | PushConstantsValue(data: seq<bv8>)
    | ProgramValue(program: ShaderProgram)
    | VrsRateValue(rate: VrsRate)

  /** A state-setting call of the command-buffer interface, with every
      argument except float-valued ones. */
  datatype Call =
    | BindVertexBuffer(binding: U32, buffer: Buffer, offset: PtrSize, stride: PtrSize, stepRate: VertexStepRate)
    | SetVertexAttribute(location: U32, buffBinding: U32, format: Format, relativeOffset: PtrSize)
    | BindIndexBuffer(buffer: Buffer, offset: PtrSize, indexType: IndexType)
    | SetPrimitiveRestart(enable: bool)
    | SetViewport(viewport: Rect)
    | SetScissor(scissorRect: Rect)
    | SetFillMode(mode: FillMode)
    | SetCullMode(cull: FaceSelection)
    | SetStencilOperations(faces: FaceSelection, stencilFail: StencilOperation, stencilPassDepthFail: StencilOperation, stencilPassDepthPass: StencilOperation)
    | SetStencilCompareOperation(faces: FaceSelection, comp: CompareOperation)
    | SetStencilCompareMask(faces: FaceSelection, mask: U32)
    | SetStencilWriteMask(faces: FaceSelection, mask: U32)
    | SetStencilReference(faces: FaceSelection, ref: U32)
    | SetDepthWrite(enable: bool)
    | SetDepthCompareOperation(op: CompareOperation)
    | SetAlphaToCoverage(enable: bool)
    | SetColorChannelWriteMask(attachment: U32, colorMask: ColorBit)
    | SetBlendFactors(attachment: U32, srcRgb: BlendFactor, dstRgb: BlendFactor, srcA: BlendFactor, dstA: BlendFactor)
    | SetBlendOperation(attachment: U32, funcRgb: BlendOperation, funcA: BlendOperation)
    | SetRasterizationOrder(order: RasterizationOrder)
    | BindTextureAndSampler(descriptorSet: U32, binding: U32, view: TextureView, sampler: Sampler, arrayIdx: U32)
    | BindSampler(descriptorSet: U32, binding: U32, sampler: Sampler, arrayIdx: U32)
    | BindTexture(descriptorSet: U32, binding: U32, view: TextureView, arrayIdx: U32)
    | BindConstantBuffer(descriptorSet: U32, binding: U32, buffer: Buffer, offset: PtrSize, range: PtrSize, arrayIdx: U32)
    | BindUavBuffer(descriptorSet: U32, binding: U32, buffer: Buffer, offset: PtrSize, range: PtrSize, arrayIdx: U32)
    | BindUavTexture(descriptorSet: U32, binding: U32, view: TextureView, arrayIdx: U32)
    | BindReadOnlyTextureBuffer(descriptorSet: U32, binding: U32, buffer: Buffer, offset: PtrSize, range: PtrSize, format: Format, arrayIdx: U32)
    | BindAccelerationStructure(descriptorSet: U32, binding: U32, accelerationStructure: AccelerationStructure, arrayIdx: U32)
    | BindAllBindless(descriptorSet: U32)
    | SetPushConstants(data: seq<bv8>)
    | BindShaderProgram(program: ShaderProgram)
    | SetVrsRate(rate: VrsRate)

  /** `w` when a write happened, otherwise the previous value `prev`. */
  function Overlay(w: Option<Value>, prev: Option<Value>): Option<Value> {
    if w.Some? then w else prev
  }

  /** The value a slot holds, `None` when undefined. */
  function Get(s: PipelineState, slot: Slot): Option<Value> {
    match slot
    case Input(i) => GetInput(s.input, i)
    case Raster(r) => GetRaster(s.raster, r)
    case Stencil(field, f) => GetStencil(match f case Front => s.stencilFront case Back => s.stencilBack, field)
    case Attachment(field, a) => GetAttachment(s.blend, field, a)
    case Resource(r) => GetResource(s.resources, r)
  }

  function GetInput(s: InputState, slot: InputSlot): Option<Value> {
    match slot
    case VertexBufferSlot(b) => if b in s.vertexBuffers then Some(VertexBufferValue(s.vertexBuffers[b])) else None
    case VertexAttributeSlot(l) => if l in s.vertexAttributes then Some(VertexAttributeValue(s.vertexAttributes[l])) else None
    case IndexBufferSlot => if s.indexBuffer.Some? then Some(IndexBufferValue(s.indexBuffer.value)) else None
    case PrimitiveRestartSlot => if s.primitiveRestart.Some? then Some(BoolValue(s.primitiveRestart.value)) else None
  }

  function GetRaster(s: RasterState, slot: RasterSlot): Option<Value> {
    match slot
    case ViewportSlot => if s.viewport.Some? then Some(RectValue(s.viewport.value)) else None
    case ScissorSlot => Some(ScissorValue(s.scissor))
    case FillModeSlot => if s.fillMode.Some? then Some(FillModeValue(s.fillMode.value)) else None
    case CullModeSlot => Some(FaceSelectionValue(s.cullMode))
    case DepthWriteSlot => if s.depthWrite.Some? then Some(BoolValue(s.depthWrite.value)) else None
    case DepthCompareSlot => Some(CompareValue(s.depthCompare))
    case AlphaToCoverageSlot => if s.alphaToCoverage.Some? then Some(BoolValue(s.alphaToCoverage.value)) else None
    case RasterizationOrderSlot => Some(RasterizationOrderValue(s.rasterizationOrder))
    case VrsRateSlot => Some(VrsRateValue(s.vrsRate))
  }

  function GetStencil(s: StencilFace, field: StencilField): Option<Value> {
    match field
    case OperationsField => if s.operations.Some? then Some(StencilOperationsValue(s.operations.value)) else None
    case CompareOperationField => if s.compareOperation.Some? then Some(CompareValue(s.compareOperation.value)) else None
    case CompareMaskField => if s.compareMask.Some? then Some(U32Value(s.compareMask.value)) else None
    case WriteMaskField => if s.writeMask.Some? then Some(U32Value(s.writeMask.value)) else None
    case ReferenceField => if s.reference.Some? then Some(U32Value(s.reference.value)) else None
  }

  function GetAttachment(s: BlendState, field: AttachmentField, a: U32): Option<Value> {
    match field
    case ColorWriteMaskField => if a in s.colorWriteMasks then Some(ColorBitValue(s.colorWriteMasks[a])) else None
    case BlendFactorsField =>
      Some(BlendFactorsValue(if a in s.blendFactors then s.blendFactors[a] else kDefaultBlendFactors))
    case BlendOperationsField =>
      Some(BlendOperationsValue(if a in s.blendOperations then s.blendOperations[a] else kDefaultBlendOperations))
  }

  function GetResource(s: ResourceState, slot: ResourceSlot): Option<Value> {
    match slot
    case DescriptorAt(d) => if d in s.descriptors then Some(DescriptorValue(s.descriptors[d])) else None
    case BindlessSlot(ds) => if ds in s.bindlessSets then Some(BindlessValue) else None
    case PushConstantsSlot => if s.pushConstants.Some? then Some(PushConstantsValue(s.pushConstants.value)) else None
    case ProgramSlot => if s.program.Some? then Some(ProgramValue(s.program.value)) else None
  }

  /** The documented default of a slot; `None` where the interface documents
      none (the slot is undefined until set). */
  function Default(slot: Slot): Option<Value> {
    match slot
    case Raster(ScissorSlot) => Some(ScissorValue(ScissorDisabled))
    case Raster(CullModeSlot) => Some(FaceSelectionValue(kFaceBack))
    case Raster(DepthCompareSlot) => Some(CompareValue(kLess))
    case Raster(RasterizationOrderSlot) => Some(RasterizationOrderValue(kOrdered))
    case Raster(VrsRateSlot) => Some(VrsRateValue(k1x1))
    case Attachment(BlendFactorsField, _) => Some(BlendFactorsValue(kDefaultBlendFactors))
    case Attachment(BlendOperationsField, _) => Some(BlendOperationsValue(kDefaultBlendOperations))
    case _ => None
  }

  /** The state of a freshly created command buffer: every slot holds its
      documented default, or is undefined where none is documented. */
  function Initial(): (s: PipelineState)
    ensures forall slot :: Get(s, slot) == Default(slot)
  {
    PipelineState(
      InputState(map[], map[], None, None),
      RasterState(None, ScissorDisabled, None, kFaceBack, None, kLess, None, kOrdered, k1x1),
      kUndefinedStencilFace, kUndefinedStencilFace,
      BlendState(map[], map[], map[]),
      ResourceState(map[], {}, None, None))
  }

  function WriteIf(cond: bool, v: Value): Option<Value> {
    if cond then Some(v) else None
  }

  /** What a call writes into `slot`: `Some(v)` when it overwrites the slot
      with `v`, `None` when it leaves the slot alone. This is the reference
      description of each setter; `Apply` is proved to agree with it. */
  function Writes(c: Call, slot: Slot): Option<Value> {
    match c
    case BindVertexBuffer(b, buf, off, stride, rate) =>
      WriteIf(slot == Input(VertexBufferSlot(b)), VertexBufferValue(VertexBufferBinding(buf, off, stride, rate)))
    case SetVertexAttribute(l, bb, fmt, rel) =>
      WriteIf(slot == Input(VertexAttributeSlot(l)), VertexAttributeValue(VertexAttribute(bb, fmt, rel)))
    case BindIndexBuffer(buf, off, t) => WriteIf(slot == Input(IndexBufferSlot), IndexBufferValue(IndexBinding(buf, off, t)))
    case SetPrimitiveRestart(e) => WriteIf(slot == Input(PrimitiveRestartSlot), BoolValue(e))
    case SetViewport(r) => WriteIf(slot == Raster(ViewportSlot), RectValue(r))
    case SetScissor(r) => WriteIf(slot == Raster(ScissorSlot), ScissorValue(ScissorRect(r)))
    case SetFillMode(m) => WriteIf(slot == Raster(FillModeSlot), FillModeValue(m))
    case SetCullMode(m) => WriteIf(slot == Raster(CullModeSlot), FaceSelectionValue(m))
    case SetStencilOperations(fs, a, b, d) =>
      WriteIf(slot.Stencil? && slot.stencilField == OperationsField && fs.Selects(slot.face), StencilOperationsValue(StencilOperations(a, b, d)))
    case SetStencilCompareOperation(fs, op) =>
      WriteIf(slot.Stencil? && slot.stencilField == CompareOperationField && fs.Selects(slot.face), CompareValue(op))
    case SetStencilCompareMask(fs, m) =>
      WriteIf(slot.Stencil? && slot.stencilField == CompareMaskField && fs.Selects(slot.face), U32Value(m))
    case SetStencilWriteMask(fs, m) =>
      WriteIf(slot.Stencil? && slot.stencilField == WriteMaskField && fs.Selects(slot.face), U32Value(m))
    case SetStencilReference(fs, r) =>
      WriteIf(slot.Stencil? && slot.stencilField == ReferenceField && fs.Selects(slot.face), U32Value(r))
    case SetDepthWrite(e) => WriteIf(slot == Raster(DepthWriteSlot), BoolValue(e))
    case SetDepthCompareOperation(op) => WriteIf(slot == Raster(DepthCompareSlot), CompareValue(op))
    case SetAlphaToCoverage(e) => WriteIf(slot == Raster(AlphaToCoverageSlot), BoolValue(e))
    case SetColorChannelWriteMask(a, m) => WriteIf(slot == Attachment(ColorWriteMaskField, a), ColorBitValue(m))
    case SetBlendFactors(a, sr, dr, sa, da) =>
      WriteIf(slot == Attachment(BlendFactorsField, a), BlendFactorsValue(BlendFactors(sr, dr, sa, da)))
    case SetBlendOperation(a, fr, fa) =>
      WriteIf(slot == Attachment(BlendOperationsField, a), BlendOperationsValue(BlendOperations(fr, fa)))
    case SetRasterizationOrder(o) => WriteIf(slot == Raster(RasterizationOrderSlot), RasterizationOrderValue(o))
    case BindTextureAndSampler(ds, b, v, smp, i) => WriteDescriptor(slot, ds, b, i, TextureAndSamplerDescriptor(v, smp))
    case BindSampler(ds, b, smp, i) => WriteDescriptor(slot, ds, b, i, SamplerDescriptor(smp))
    case BindTexture(ds, b, v, i) => WriteDescriptor(slot, ds, b, i, TextureDescriptor(v))
    case BindConstantBuffer(ds, b, buf, off, rng, i) => WriteDescriptor(slot, ds, b, i, ConstantBufferDescriptor(buf, off, rng))
    case BindUavBuffer(ds, b, buf, off, rng, i) => WriteDescriptor(slot, ds, b, i, UavBufferDescriptor(buf, off, rng))
    case BindUavTexture(ds, b, v, i) => WriteDescriptor(slot, ds, b, i, UavTextureDescriptor(v))
    case BindReadOnlyTextureBuffer(ds, b, buf, off, rng, fmt, i) =>
      WriteDescriptor(slot, ds, b, i, ReadOnlyTextureBufferDescriptor(buf, off, rng, fmt))
    case BindAccelerationStructure(ds, b, acc, i) => WriteDescriptor(slot, ds, b, i, AccelerationStructureDescriptor(acc))
    case BindAllBindless(ds) => WriteIf(slot == Resource(BindlessSlot(ds)), BindlessValue)
    case SetPushConstants(data) => WriteIf(slot == Resource(PushConstantsSlot), PushConstantsValue(data))
    case BindShaderProgram(p) => WriteIf(slot == Resource(ProgramSlot), ProgramValue(p))
    case SetVrsRate(r) => WriteIf(slot == Raster(VrsRateSlot), VrsRateValue(r))
  }

  function WriteDescriptor(slot: Slot, descriptorSet: U32, binding: U32, arrayIdx: U32, d: Descriptor): Option<Value> {
    WriteIf(slot == Resource(DescriptorAt(DescriptorSlot(descriptorSet, binding, arrayIdx))), DescriptorValue(d))
  }

  function UpdateStencil(s: PipelineState, fs: FaceSelection, front: StencilFace, back: StencilFace): PipelineState {
    s.(stencilFront := if fs.front then front else s.stencilFront,
       stencilBack := if fs.back then back else s.stencilBack)
  }


  function BindDescriptor(s: PipelineState, descriptorSet: U32, binding: U32, arrayIdx: U32, d: Descriptor): PipelineState {
    var res := s.resources;
    s.(resources := res.(descriptors := res.descriptors[DescriptorSlot(descriptorSet, binding, arrayIdx) := d]))
  }

  /** Performs one state-setting call. */
  function Apply(s: PipelineState, c: Call): PipelineState
  {
    var inp := s.input;
    var ras := s.raster;
    var bl := s.blend;
    var res := s.resources;
    var front := s.stencilFront;
    var back := s.stencilBack;
    match c
    case BindVertexBuffer(b, buf, off, stride, rate) =>
      s.(input := inp.(vertexBuffers := inp.vertexBuffers[b := VertexBufferBinding(buf, off, stride, rate)]))
    case SetVertexAttribute(l, bb, fmt, rel) =>
      s.(input := inp.(vertexAttributes := inp.vertexAttributes[l := VertexAttribute(bb, fmt, rel)]))
    case BindIndexBuffer(buf, off, t) => s.(input := inp.(indexBuffer := Some(IndexBinding(buf, off, t))))
    case SetPrimitiveRestart(e) => s.(input := inp.(primitiveRestart := Some(e)))
    case SetViewport(r) => s.(raster := ras.(viewport := Some(r)))
    case SetScissor(r) => s.(raster := ras.(scissor := ScissorRect(r)))
    case SetFillMode(m) => s.(raster := ras.(fillMode := Some(m)))
    case SetCullMode(m) => s.(raster := ras.(cullMode := m))
    case SetStencilOperations(fs, a, b, d) =>
      var ops := Some(StencilOperations(a, b, d));
      UpdateStencil(s, fs, front.(operations := ops), back.(operations := ops))
    case SetStencilCompareOperation(fs, op) =>
      UpdateStencil(s, fs, front.(compareOperation := Some(op)), back.(compareOperation := Some(op)))
    case SetStencilCompareMask(fs, m) =>
      UpdateStencil(s, fs, front.(compareMask := Some(m)), back.(compareMask := Some(m)))
    case SetStencilWriteMask(fs, m) =>
      UpdateStencil(s, fs, front.(writeMask := Some(m)), back.(writeMask := Some(m)))
    case SetStencilReference(fs, r) =>
      UpdateStencil(s, fs, front.(reference := Some(r)), back.(reference := Some(r)))
    case SetDepthWrite(e) => s.(raster := ras.(depthWrite := Some(e)))
    case SetDepthCompareOperation(op) => s.(raster := ras.(depthCompare := op))
    case SetAlphaToCoverage(e) => s.(raster := ras.(alphaToCoverage := Some(e)))
    case SetColorChannelWriteMask(a, m) => s.(blend := bl.(colorWriteMasks := bl.colorWriteMasks[a := m]))
    case SetBlendFactors(a, sr, dr, sa, da) => s.(blend := bl.(blendFactors := bl.blendFactors[a := BlendFactors(sr, dr, sa, da)]))
    case SetBlendOperation(a, fr, fa) => s.(blend := bl.(blendOperations := bl.blendOperations[a := BlendOperations(fr, fa)]))
    case SetRasterizationOrder(o) => s.(raster := ras.(rasterizationOrder := o))
    case BindTextureAndSampler(ds, b, v, smp, i) => BindDescriptor(s, ds, b, i, TextureAndSamplerDescriptor(v, smp))
    case BindSampler(ds, b, smp, i) => BindDescriptor(s, ds, b, i, SamplerDescriptor(smp))
    case BindTexture(ds, b, v, i) => BindDescriptor(s, ds, b, i, TextureDescriptor(v))
    case BindConstantBuffer(ds, b, buf, off, rng, i) => BindDescriptor(s, ds, b, i, ConstantBufferDescriptor(buf, off, rng))
    case BindUavBuffer(ds, b, buf, off, rng, i) => BindDescriptor(s, ds, b, i, UavBufferDescriptor(buf, off, rng))
    case BindUavTexture(ds, b, v, i) => BindDescriptor(s, ds, b, i, UavTextureDescriptor(v))
    case BindReadOnlyTextureBuffer(ds, b, buf, off, rng, fmt, i) =>
      BindDescriptor(s, ds, b, i, ReadOnlyTextureBufferDescriptor(buf, off, rng, fmt))
    case BindAccelerationStructure(ds, b, acc, i) => BindDescriptor(s, ds, b, i, AccelerationStructureDescriptor(acc))
    case BindAllBindless(ds) => s.(resources := res.(bindlessSets := res.bindlessSets + {ds}))
    case SetPushConstants(data) => s.(resources := res.(pushConstants := Some(data)))
    case BindShaderProgram(p) => s.(resources := res.(program := Some(p)))
    case SetVrsRate(r) => s.(raster := ras.(vrsRate := r))
  }
  /** Each setter changes exactly the slots `Writes` names, to the values it
      names; every other slot keeps its value. The proof is split by groups of
      setters to keep each obligation small. */
  lemma ApplyWritesOnlyItsSlots(s: PipelineState, c: Call, slot: Slot)
    ensures Get(Apply(s, c), slot) == Overlay(Writes(c, slot), Get(s, slot))
  {
    if c.BindVertexBuffer? || c.SetVertexAttribute? {
      ApplyFrameVertexBuffers(s, c, slot);
    } else if c.BindIndexBuffer? || c.SetPrimitiveRestart? {
      ApplyFrameIndexAndRestart(s, c, slot);
    } else if c.SetViewport? || c.SetScissor? {
      ApplyFrameViewportAndScissor(s, c, slot);
    } else if c.SetFillMode? || c.SetCullMode? {
      ApplyFrameFillAndCull(s, c, slot);
    } else if c.SetStencilOperations? || c.SetStencilCompareOperation? {
      ApplyFrameStencilTests(s, c, slot);
    } else if c.SetStencilCompareMask? || c.SetStencilWriteMask? || c.SetStencilReference? {
      ApplyFrameStencilValues(s, c, slot);
    } else if c.SetDepthWrite? || c.SetDepthCompareOperation? || c.SetAlphaToCoverage? {
      ApplyFrameDepth(s, c, slot);
    } else if c.SetRasterizationOrder? || c.SetVrsRate? {
      ApplyFrameRasterOrderAndRate(s, c, slot);
    } else if c.SetColorChannelWriteMask? || c.SetBlendFactors? || c.SetBlendOperation? {
      ApplyFrameBlend(s, c, slot);
    } else if c.BindTextureAndSampler? || c.BindSampler? || c.BindTexture? {
      ApplyFrameSampledDescriptors(s, c, slot);
    } else if c.BindUavTexture? || c.BindUavBuffer? || c.BindAccelerationStructure? {
      ApplyFrameStorageDescriptors(s, c, slot);
    } else if c.BindConstantBuffer? || c.BindReadOnlyTextureBuffer? {
      ApplyFrameBufferDescriptors(s, c, slot);
    } else {
      ApplyFrameResources(s, c, slot);
    }
  }

  lemma ApplyFrameVertexBuffers(s: PipelineState, c: Call, slot: Slot)
    requires c.BindVertexBuffer? || c.SetVertexAttribute?
    ensures Get(Apply(s, c), slot) == Overlay(Writes(c, slot), Get(s, slot))
  {
    match c {
      case BindVertexBuffer(_, _, _, _, _) =>
      case SetVertexAttribute(_, _, _, _) =>
    }
  }

  lemma ApplyFrameIndexAndRestart(s: PipelineState, c: Call, slot: Slot)
    requires c.BindIndexBuffer? || c.SetPrimitiveRestart?
    ensures Get(Apply(s, c), slot) == Overlay(Writes(c, slot), Get(s, slot))
  {
    match c {
      case BindIndexBuffer(_, _, _) =>
      case SetPrimitiveRestart(_) =>
    }
  }

  lemma ApplyFrameViewportAndScissor(s: PipelineState, c: Call, slot: Slot)
    requires c.SetViewport? || c.SetScissor?
    ensures Get(Apply(s, c), slot) == Overlay(Writes(c, slot), Get(s, slot))
  {
    match c {
      case SetViewport(_) =>
      case SetScissor(_) =>
    }
  }

  lemma ApplyFrameFillAndCull(s: PipelineState, c: Call, slot: Slot)
    requires c.SetFillMode? || c.SetCullMode?
    ensures Get(Apply(s, c), slot) == Overlay(Writes(c, slot), Get(s, slot))
  {
    match c {
      case SetFillMode(_) =>
      case SetCullMode(_) =>
    }
  }

  lemma ApplyFrameStencilTests(s: PipelineState, c: Call, slot: Slot)
    requires c.SetStencilOperations? || c.SetStencilCompareOperation?
    ensures Get(Apply(s, c), slot) == Overlay(Writes(c, slot), Get(s, slot))
  {
    match c {
      case SetStencilOperations(_, _, _, _) =>
      case SetStencilCompareOperation(_, _) =>
    }
  }

  lemma ApplyFrameStencilValues(s: PipelineState, c: Call, slot: Slot)
    requires c.SetStencilCompareMask? || c.SetStencilWriteMask? || c.SetStencilReference?
    ensures Get(Apply(s, c), slot) == Overlay(Writes(c, slot), Get(s, slot))
  {
    match c {
      case SetStencilCompareMask(_, _) =>
      case SetStencilWriteMask(_, _) =>
      case SetStencilReference(_, _) =>
    }
  }

  lemma ApplyFrameDepth(s: PipelineState, c: Call, slot: Slot)
    requires c.SetDepthWrite? || c.SetDepthCompareOperation? || c.SetAlphaToCoverage?
    ensures Get(Apply(s, c), slot) == Overlay(Writes(c, slot), Get(s, slot))
  {
    match c {
      case SetDepthWrite(_) =>
      case SetDepthCompareOperation(_) =>
      case SetAlphaToCoverage(_) =>
    }
  }

  lemma ApplyFrameRasterOrderAndRate(s: PipelineState, c: Call, slot: Slot)
    requires c.SetRasterizationOrder? || c.SetVrsRate?
    ensures Get(Apply(s, c), slot) == Overlay(Writes(c, slot), Get(s, slot))
  {
    match c {
      case SetRasterizationOrder(_) =>
      case SetVrsRate(_) =>
    }
  }

  lemma ApplyFrameBlend(s: PipelineState, c: Call, slot: Slot)
    requires c.SetColorChannelWriteMask? || c.SetBlendFactors? || c.SetBlendOperation?
    ensures Get(Apply(s, c), slot) == Overlay(Writes(c, slot), Get(s, slot))
  {
    match c {
      case SetColorChannelWriteMask(_, _) =>
      case SetBlendFactors(_, _, _, _, _) =>
      case SetBlendOperation(_, _, _) =>
    }
  }

  lemma ApplyFrameSampledDescriptors(s: PipelineState, c: Call, slot: Slot)
    requires c.BindTextureAndSampler? || c.BindSampler? || c.BindTexture?
    ensures Get(Apply(s, c), slot) == Overlay(Writes(c, slot), Get(s, slot))
  {
    match c {
      case BindTextureAndSampler(_, _, _, _, _) =>
      case BindSampler(_, _, _, _) =>
      case BindTexture(_, _, _, _) =>
    }
  }

  lemma ApplyFrameStorageDescriptors(s: PipelineState, c: Call, slot: Slot)
    requires c.BindUavTexture? || c.BindUavBuffer? || c.BindAccelerationStructure?
    ensures Get(Apply(s, c), slot) == Overlay(Writes(c, slot), Get(s, slot))
  {
    match c {
      case BindUavTexture(_, _, _, _) =>
      case BindUavBuffer(_, _, _, _, _, _) =>
      case BindAccelerationStructure(_, _, _, _) =>
    }
  }

  lemma ApplyFrameBufferDescriptors(s: PipelineState, c: Call, slot: Slot)
    requires c.BindConstantBuffer? || c.BindReadOnlyTextureBuffer?
    ensures Get(Apply(s, c), slot) == Overlay(Writes(c, slot), Get(s, slot))
  {
    match c {
      case BindConstantBuffer(_, _, _, _, _, _) =>
      case BindReadOnlyTextureBuffer(_, _, _, _, _, _, _) =>
    }
  }

  lemma ApplyFrameResources(s: PipelineState, c: Call, slot: Slot)
    requires c.BindAllBindless? || c.SetPushConstants? || c.BindShaderProgram?
    ensures Get(Apply(s, c), slot) == Overlay(Writes(c, slot), Get(s, slot))
  {
    match c {
      case BindAllBindless(_) =>
      case SetPushConstants(_) =>
      case BindShaderProgram(_) =>
    }
  }

  /** `ApplyWritesOnlyItsSlots` for every slot at once. */
  lemma ApplyFrameAllSlots(s: PipelineState, c: Call)
    ensures forall slot :: Get(Apply(s, c), slot) == Overlay(Writes(c, slot), Get(s, slot))
  {
    forall slot
      ensures Get(Apply(s, c), slot) == Overlay(Writes(c, slot), Get(s, slot))
    {
      ApplyWritesOnlyItsSlots(s, c, slot);
    }
  }

  /** Performs a sequence of state-setting calls in order. */
  function ApplyAll(s: PipelineState, calls: seq<Call>): PipelineState
    decreases |calls|
  {
    if |calls| == 0 then s else Apply(ApplyAll(s, calls[..|calls| - 1]), calls[|calls| - 1])
  }

  /** The value written into `slot` by the last call of `calls` that writes
      it; `None` when no call writes it. */
  function LastWrite(calls: seq<Call>, slot: Slot): Option<Value>
    decreases |calls|
  {
    if |calls| == 0 then None
    else Overlay(Writes(calls[|calls| - 1], slot), LastWrite(calls[..|calls| - 1], slot))
  }

  /** After any sequence of setter calls, a slot holds what the latest call
      that writes it wrote, and keeps its previous value when none does. */
  lemma {:induction false} LatestCallWins(s: PipelineState, calls: seq<Call>, slot: Slot)
    ensures Get(ApplyAll(s, calls), slot) == Overlay(LastWrite(calls, slot), Get(s, slot))
    decreases |calls|
  {
    if |calls| > 0 {
      var init := calls[..|calls| - 1];
      LatestCallWins(s, init, slot);
      ApplyWritesOnlyItsSlots(ApplyAll(s, init), calls[|calls| - 1], slot);
    }
  }

  /** Starting from a fresh command buffer, a slot holds the latest value
      written to it, or its documented default (undefined when none is
      documented) when no call wrote it. */
  lemma LatestCallOrDefault(calls: seq<Call>, slot: Slot)
    ensures Get(ApplyAll(Initial(), calls), slot) == Overlay(LastWrite(calls, slot), Default(slot))
  {
    LatestCallWins(Initial(), calls, slot);
  }

  /** The scissor has no effect: it is disabled, or its rectangle covers the
      whole viewport ("to disable the scissor just set a rect bigger than the
      viewport"). */
  predicate ScissorInactive(r: RasterState) {
    r.scissor.ScissorDisabled? || (r.viewport.Some? && r.scissor.rect.Contains(r.viewport.value))
  }

  /** The scissor is inactive by default, and setting a rectangle that covers
      the current viewport keeps it inactive; one that does not cover it
      activates it. */
  lemma ScissorDisabledByDefault(s: PipelineState, rect: Rect)
    ensures ScissorInactive(Initial().raster)
    ensures s.raster.viewport.Some? ==>
      (ScissorInactive(Apply(s, SetScissor(rect)).raster) <==> rect.Contains(s.raster.viewport.value))
  {
  }

  /** Depth testing is off: depth writes disabled and a compare that always
      passes. */
  predicate DepthTestDisabled(r: RasterState) {
    r.depthWrite == Some(false) && r.depthCompare == kAlways
  }

  /** Depth testing is not off by default (the compare is LESS); setting depth
      write to false and the compare to ALWAYS turns it off from any state,
      in either order. */
  lemma DisablingDepthTest(s: PipelineState)
    ensures !DepthTestDisabled(Initial().raster)
    ensures DepthTestDisabled(ApplyAll(s, [SetDepthWrite(false), SetDepthCompareOperation(kAlways)]).raster)
    ensures DepthTestDisabled(ApplyAll(s, [SetDepthCompareOperation(kAlways), SetDepthWrite(false)]).raster)
  {
    assert [SetDepthWrite(false), SetDepthCompareOperation(kAlways)][..1] == [SetDepthWrite(false)];
    assert [SetDepthCompareOperation(kAlways), SetDepthWrite(false)][..1] == [SetDepthCompareOperation(kAlways)];
  }

  function StencilFaceOf(s: PipelineState, face: Face): StencilFace {
    match face
    case Front => s.stencilFront
    case Back => s.stencilBack
  }

  /** The stencil test of a face is off: every stencil operation is KEEP. */
  predicate StencilTestDisabled(f: StencilFace) {
    f.operations == Some(StencilOperations(kKeep, kKeep, kKeep))
  }

  /** Setting KEEP for all three stencil operations turns the stencil test
      off on exactly the selected faces and leaves the other face as it was. */
  lemma DisablingStencilTest(s: PipelineState, faces: FaceSelection, face: Face)
    ensures faces.Selects(face) ==> StencilTestDisabled(StencilFaceOf(Apply(s, SetStencilOperations(faces, kKeep, kKeep, kKeep)), face))
    ensures !faces.Selects(face) ==> StencilFaceOf(Apply(s, SetStencilOperations(faces, kKeep, kKeep, kKeep)), face) == StencilFaceOf(s, face)
  {
  }
}
