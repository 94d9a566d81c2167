/** The recording contract of a command buffer: creation flags and init-info
    defaults, state-setting calls and their inline overloads, the log of
    recorded commands, `flush`, the `fillBuffer` and bind-range rules, and
    inlining of second-level command buffers.

    A command buffer is an immutable value here; every call returns the buffer
    it leaves behind. What the GPU later does with the recorded commands
    (copies, draws, barriers turned into hardware synchronisation) is not part
    of this model. */
module GrCommandBuffer {
  import opened GrTypes
  import opened GrPipelineState

  // ---------------------------------------------------------------------
  // Creation flags (`CommandBufferFlag`, an 8-bit bitmask)

  type CommandBufferFlags = bv8

  const kNone: CommandBufferFlags := 0
  /** Second-level buffer: recorded, finalized and then pushed into a primary one. */
  const kSecondLevel: CommandBufferFlags := 1 << 0
  /** Will contain a handful of commands. */
  const kSmallBatch: CommandBufferFlags := 1 << 3
  /** Will contain graphics, compute and transfer work. */
  const kGeneralWork: CommandBufferFlags := 1 << 4
  /** Will contain only compute work; binds to the async compute queue. */
  const kComputeWork: CommandBufferFlags := 1 << 5

  predicate HasFlag(flags: CommandBufferFlags, bit: CommandBufferFlags) {
    flags & bit != 0
  }

  predicate IsSecondLevel(flags: CommandBufferFlags) {
    HasFlag(flags, kSecondLevel)
  }

  /** The four flags are the bits 1, 8, 16 and 32: single bits, pairwise
      disjoint, so any combination of them can be taken apart again. The
      empty set `kNone` is a primary buffer for the general queue. */
  lemma FlagBits()
    ensures kNone & kSecondLevel == 0 && !IsSecondLevel(kNone) && QueueFor(kNone) == GeneralQueue
    ensures kSecondLevel == 1 && kSmallBatch == 8 && kGeneralWork == 16 && kComputeWork == 32
    ensures kSecondLevel & kSmallBatch == 0 && kSecondLevel & kGeneralWork == 0 && kSecondLevel & kComputeWork == 0
    ensures kSmallBatch & kGeneralWork == 0 && kSmallBatch & kComputeWork == 0 && kGeneralWork & kComputeWork == 0
  {
  }

  /** Setting the second-level bit makes any flag set second level; clearing
      it makes it primary. */
  lemma SecondLevelBit(flags: CommandBufferFlags)
    ensures IsSecondLevel(flags | kSecondLevel)
    ensures !IsSecondLevel(flags & !kSecondLevel)
    ensures IsSecondLevel(flags) <==> flags & 1 == 1
  {
  }

  /** The hardware queue a primary buffer is submitted to. */
  datatype Queue = GeneralQueue | AsyncComputeQueue

  function QueueFor(flags: CommandBufferFlags): Queue {
    if HasFlag(flags, kComputeWork) then AsyncComputeQueue else GeneralQueue
  }

  // ---------------------------------------------------------------------
  // Plain records

  datatype TextureBarrierInfo = TextureBarrierInfo(texture: Option<Texture>, previousUsage: UsageMask, nextUsage: UsageMask, subresource: TextureSubresourceInfo)
  datatype BufferBarrierInfo = BufferBarrierInfo(buffer: Option<Buffer>, previousUsage: UsageMask, nextUsage: UsageMask, offset: PtrSize, range: PtrSize)
  datatype AccelerationStructureBarrierInfo = AccelerationStructureBarrierInfo(accelerationStructure: Option<AccelerationStructure>, previousUsage: UsageMask, nextUsage: UsageMask)

  /** A default-constructed barrier names no resource and no usage. */
  function DefaultTextureBarrierInfo(subresource: TextureSubresourceInfo): (b: TextureBarrierInfo)
    ensures b.texture.None? && b.previousUsage == kUsageNone && b.nextUsage == kUsageNone
  {
    TextureBarrierInfo(None, kUsageNone, kUsageNone, subresource)
  }

  function DefaultBufferBarrierInfo(): (b: BufferBarrierInfo)
    ensures b.buffer.None? && b.previousUsage == kUsageNone && b.nextUsage == kUsageNone && b.offset == 0 && b.range == 0
  {
    BufferBarrierInfo(None, kUsageNone, kUsageNone, 0, 0)
  }

  function DefaultAccelerationStructureBarrierInfo(): (b: AccelerationStructureBarrierInfo)
    ensures b.accelerationStructure.None? && b.previousUsage == kUsageNone && b.nextUsage == kUsageNone
  {
    AccelerationStructureBarrierInfo(None, kUsageNone, kUsageNone)
  }

  /** One region of a buffer-to-buffer copy. */
  datatype CopyBufferToBufferInfo = CopyBufferToBufferInfo(sourceOffset: PtrSize, destinationOffset: PtrSize, range: PtrSize)

  /** A buffer together with the byte range to bind from it. */
  datatype BufferOffsetRange = BufferOffsetRange(buffer: Buffer, offset: PtrSize, range: PtrSize)

  /** Per-attachment texture usages; an attachment missing from the map has
      usage `kNone`, which is what a value-initialised array holds. */
  type AttachmentUsages = map<nat, UsageMask>

  function UsageOf(usages: AttachmentUsages, attachment: nat): UsageMask {
    if attachment in usages then usages[attachment] else kUsageNone
  }

  datatype CommandBufferInitInfo = CommandBufferInitInfo(
    name: string,
    framebuffer: Option<Framebuffer>,
    colorAttachmentUsages: AttachmentUsages,
    depthStencilAttachmentUsage: UsageMask,
    flags: CommandBufferFlags)

  /** Init info as default-constructed: a primary buffer for general work with
      no framebuffer and no attachment usages. */
  function DefaultInitInfo(name: string): (info: CommandBufferInitInfo)
    ensures info.name == name
    ensures info.flags == kGeneralWork && !IsSecondLevel(info.flags) && QueueFor(info.flags) == GeneralQueue
    ensures info.framebuffer.None?
    ensures forall a: nat :: UsageOf(info.colorAttachmentUsages, a) == kUsageNone
    ensures info.depthStencilAttachmentUsage == kUsageNone
  {
    CommandBufferInitInfo(name, None, map[], kUsageNone, kGeneralWork)
  }

  // ---------------------------------------------------------------------
  // Recorded operations

  /** Every call that is recorded into the command log rather than latched
      as pipeline state. */
  datatype Op =
    | Draw(topology: PrimitiveTopology, count: U32, instanceCount: U32, first: U32, baseInstance: U32)
    | DrawIndexed(topology: PrimitiveTopology, count: U32, instanceCount: U32, firstIndex: U32, baseVertex: U32, baseInstance: U32)
    | DrawIndexedIndirect(topology: PrimitiveTopology, drawCount: U32, offset: PtrSize, indirectBuffer: Buffer)
    | DrawIndirect(topology: PrimitiveTopology, drawCount: U32, offset: PtrSize, indirectBuffer: Buffer)
    | DrawIndexedIndirectCount(topology: PrimitiveTopology, argBuffer: Buffer, argBufferOffset: PtrSize, argBufferStride: U32, countBuffer: Buffer, countBufferOffset: PtrSize, maxDrawCount: U32)
    | DrawIndirectCount(topology: PrimitiveTopology, argBuffer: Buffer, argBufferOffset: PtrSize, argBufferStride: U32, countBuffer: Buffer, countBufferOffset: PtrSize, maxDrawCount: U32)
    | DrawMeshTasks(groupCountX: U32, groupCountY: U32, groupCountZ: U32)
    | DispatchCompute(groupCountX: U32, groupCountY: U32, groupCountZ: U32)
    | DispatchComputeIndirect(argBuffer: Buffer, argBufferOffset: PtrSize)
    | TraceRays(sbtBuffer: Buffer, sbtBufferOffset: PtrSize, sbtRecordSize: U32, hitGroupSbtRecordCount: U32, rayTypeCount: U32, width: U32, height: U32, depth: U32)
    | GenerateMipmaps2d(view: TextureView)
    | GenerateMipmaps3d(view: TextureView)
    | BlitTextureViews(srcView: TextureView, destView: TextureView)
    | ClearTextureView(view: TextureView, clearValue: ClearValue)
    | CopyBufferToTextureView(buffer: Buffer, offset: PtrSize, range: PtrSize, view: TextureView)
    | FillBuffer(buffer: Buffer, offset: PtrSize, size: PtrSize, value: U32)
    | WriteOcclusionQueriesResultToBuffer(occlusionQueries: seq<OcclusionQuery>, offset: PtrSize, buffer: Buffer)
    | CopyBufferToBuffer(src: Buffer, dst: Buffer, copies: seq<CopyBufferToBufferInfo>)
    | BuildAccelerationStructure(accelerationStructure: AccelerationStructure, scratchBuffer: Buffer, scratchBufferOffset: PtrSize)
    | Upscale(upscaler: GrUpscaler, inColor: TextureView, outUpscaledColor: TextureView, motionVectors: TextureView, depthView: TextureView, exposure: TextureView, resetAccumulation: bool)
    | SetPipelineBarrier(textures: seq<TextureBarrierInfo>, buffers: seq<BufferBarrierInfo>, accelerationStructures: seq<AccelerationStructureBarrierInfo>)
    | BeginRenderPass(framebuffer: Framebuffer, colorAttachmentUsages: AttachmentUsages, depthStencilAttachmentUsage: UsageMask, area: Rect)
    | EndRenderPass
    | ResetOcclusionQueries(occlusionQueries: seq<OcclusionQuery>)
    | BeginOcclusionQuery(occlusionQuery: OcclusionQuery)
    | EndOcclusionQuery(occlusionQuery: OcclusionQuery)
    | ResetTimestampQueries(timestampQueries: seq<TimestampQuery>)
    | WriteTimestamp(timestampQuery: TimestampQuery)
    | PushDebugMarker(markerName: string)
    | PopDebugMarker

  /** Draws, dispatches and ray tracing consume the latched pipeline state. */
  predicate UsesPipelineState(op: Op) {
    || op.Draw? || op.DrawIndexed? || op.DrawIndexedIndirect? || op.DrawIndirect?
    || op.DrawIndexedIndirectCount? || op.DrawIndirectCount? || op.DrawMeshTasks?
    || op.DispatchCompute? || op.DispatchComputeIndirect? || op.TraceRays?
  }

  /** A recorded command: the operation, and for those that consume it the
      pipeline state latched at the time of recording. */
  datatype Command = Command(op: Op, latched: Option<PipelineState>)

  datatype Status = Recording | Finalized | Submitted

  datatype CommandBuffer = CommandBuffer(
    name: string,
    flags: CommandBufferFlags,
    framebuffer: Option<Framebuffer>,
    state: PipelineState,
    log: seq<Command>,
    status: Status)

  /** A finalized log handed to a device queue by `flush`. */
  datatype Submission = Submission(commands: seq<Command>, queue: Queue, waitFences: seq<Fence>, signalFence: Option<Fence>)

  /** Creates a command buffer from its init info: open for recording, with
      nothing recorded and every state slot at its documented default. */
  function NewCommandBuffer(init: CommandBufferInitInfo): (cb: CommandBuffer)
    ensures cb.status == Recording && IsEmpty(cb)
    ensures cb.flags == init.flags && cb.framebuffer == init.framebuffer && cb.name == init.name
    ensures forall slot :: Get(cb.state, slot) == Default(slot)
  {
    CommandBuffer(init.name, init.flags, init.framebuffer, Initial(), [], Recording)
  }

  /** True when nothing has been recorded into the log. */
  predicate IsEmpty(cb: CommandBuffer) {
    |cb.log| == 0
  }

  // ---------------------------------------------------------------------
  // State manipulation

  /** Performs one state-setting call on an open buffer. Only the slots the
      call writes change; nothing is appended to the log. */
  function SetState(cb: CommandBuffer, call: Call): (r: CommandBuffer)
    requires cb.status == Recording
    ensures r.status == Recording && r.log == cb.log && r.flags == cb.flags && r.framebuffer == cb.framebuffer
    ensures forall slot :: Get(r.state, slot) == Overlay(Writes(call, slot), Get(cb.state, slot))
  {
    ApplyFrameAllSlots(cb.state, call);
    cb.(state := Apply(cb.state, call))
  }

  /** Performs a sequence of state-setting calls in order. */
  function SetStates(cb: CommandBuffer, calls: seq<Call>): (r: CommandBuffer)
    requires cb.status == Recording
    ensures r.status == Recording && r.log == cb.log && r.flags == cb.flags
    ensures r.state == ApplyAll(cb.state, calls)
    decreases |calls|
  {
    if |calls| == 0 then cb else SetState(SetStates(cb, calls[..|calls| - 1]), calls[|calls| - 1])
  }

  /** `bindVertexBuffer` without a step rate: the binding steps per vertex. */
  function BindVertexBufferPerVertex(cb: CommandBuffer, binding: U32, buffer: Buffer, offset: PtrSize, stride: PtrSize): (r: CommandBuffer)
    requires cb.status == Recording
    ensures Get(r.state, Input(VertexBufferSlot(binding))) == Some(VertexBufferValue(VertexBufferBinding(buffer, offset, stride, kVertex)))
    ensures forall slot :: slot != Input(VertexBufferSlot(binding)) ==> Get(r.state, slot) == Get(cb.state, slot)
    ensures r.log == cb.log
  {
    SetState(cb, BindVertexBuffer(binding, buffer, offset, stride, kVertex))
  }

  /** `setBlendFactors(attachment, src, dst)`: the same factors for colour and
      alpha. */
  function SetBlendFactorsUniform(cb: CommandBuffer, attachment: U32, src: BlendFactor, dst: BlendFactor): (r: CommandBuffer)
    requires cb.status == Recording
    ensures Get(r.state, Attachment(BlendFactorsField, attachment)) == Some(BlendFactorsValue(BlendFactors(src, dst, src, dst)))
    ensures forall slot :: slot != Attachment(BlendFactorsField, attachment) ==> Get(r.state, slot) == Get(cb.state, slot)
    ensures r.log == cb.log
  {
    SetState(cb, SetBlendFactors(attachment, src, dst, src, dst))
  }

  /** `setBlendOperation(attachment, func)`: the same operation for colour
      and alpha. */
  function SetBlendOperationUniform(cb: CommandBuffer, attachment: U32, func: BlendOperation): (r: CommandBuffer)
    requires cb.status == Recording
    ensures Get(r.state, Attachment(BlendOperationsField, attachment)) == Some(BlendOperationsValue(BlendOperations(func, func)))
    ensures forall slot :: slot != Attachment(BlendOperationsField, attachment) ==> Get(r.state, slot) == Get(cb.state, slot)
    ensures r.log == cb.log
  {
    SetState(cb, SetBlendOperation(attachment, func, func))
  }

  /** `bindConstantBuffer(set, binding, BufferOffsetRange, arrayIdx)`. */
  function BindConstantBufferRange(cb: CommandBuffer, descriptorSet: U32, binding: U32, buff: BufferOffsetRange, arrayIdx: U32): (r: CommandBuffer)
    requires cb.status == Recording
    ensures Get(r.state, Resource(DescriptorAt(DescriptorSlot(descriptorSet, binding, arrayIdx))))
      == Some(DescriptorValue(ConstantBufferDescriptor(buff.buffer, buff.offset, buff.range)))
    ensures forall slot :: slot != Resource(DescriptorAt(DescriptorSlot(descriptorSet, binding, arrayIdx))) ==> Get(r.state, slot) == Get(cb.state, slot)
    ensures r.log == cb.log
  {
    SetState(cb, BindConstantBuffer(descriptorSet, binding, buff.buffer, buff.offset, buff.range, arrayIdx))
  }

  /** `bindUavBuffer(set, binding, BufferOffsetRange, arrayIdx)`. */
  function BindUavBufferRange(cb: CommandBuffer, descriptorSet: U32, binding: U32, buff: BufferOffsetRange, arrayIdx: U32): (r: CommandBuffer)
    requires cb.status == Recording
    ensures Get(r.state, Resource(DescriptorAt(DescriptorSlot(descriptorSet, binding, arrayIdx))))
      == Some(DescriptorValue(UavBufferDescriptor(buff.buffer, buff.offset, buff.range)))
    ensures forall slot :: slot != Resource(DescriptorAt(DescriptorSlot(descriptorSet, binding, arrayIdx))) ==> Get(r.state, slot) == Get(cb.state, slot)
    ensures r.log == cb.log
  {
    SetState(cb, BindUavBuffer(descriptorSet, binding, buff.buffer, buff.offset, buff.range, arrayIdx))
  }

  // ---------------------------------------------------------------------
  // Ranges: the `kMaxPtrSize` sentinel

  /** The number of bytes a (offset, range) pair designates in a buffer:
      `range` itself, or everything from `offset` to the end of the buffer
      when `range` is the `kMaxPtrSize` sentinel. */
  function EffectiveRange(buffer: Buffer, offset: PtrSize, range: PtrSize): (n: nat)
    requires range == kMaxPtrSize ==> offset <= buffer.size
    ensures range == kMaxPtrSize ==> offset + n == buffer.size
    ensures range != kMaxPtrSize ==> n == range
  {
    if range == kMaxPtrSize then buffer.size - offset else range
  }

  /** The descriptors that bind a byte range of a buffer: constant buffers,
      storage buffers and read-only texture buffers. */
  predicate IsBufferRange(d: Descriptor) {
    d.ConstantBufferDescriptor? || d.UavBufferDescriptor? || d.ReadOnlyTextureBufferDescriptor?
  }

  /** The bytes of its buffer a buffer-range descriptor makes visible, as the
      half-open interval [start, end): the stored range resolved through the
      `kMaxPtrSize` sentinel. */
  function BoundBytes(d: Descriptor): (interval: (nat, nat))
    requires IsBufferRange(d)
    requires d.range == kMaxPtrSize ==> d.offset <= d.buffer.size
  {
    (d.offset, d.offset + EffectiveRange(d.buffer, d.offset, d.range))
  }

  /** `bindConstantBuffer`, `bindUavBuffer` and `bindReadOnlyTextureBuffer`
      put into their slot a descriptor of the given buffer whose bytes start
      at the offset and run to the end of the buffer when the range is
      `kMaxPtrSize`, and are exactly `range` bytes otherwise. */
  lemma BindRangeSentinel(cb: CommandBuffer, call: Call)
    requires cb.status == Recording
    requires call.BindConstantBuffer? || call.BindUavBuffer? || call.BindReadOnlyTextureBuffer?
    requires call.range == kMaxPtrSize ==> call.offset <= call.buffer.size
    ensures var v := Get(SetState(cb, call).state, Resource(DescriptorAt(DescriptorSlot(call.descriptorSet, call.binding, call.arrayIdx))));
      && v.Some? && v.value.DescriptorValue? && IsBufferRange(v.value.descriptor)
      && v.value.descriptor.buffer == call.buffer
      && BoundBytes(v.value.descriptor).0 == call.offset
      && (call.range == kMaxPtrSize ==> BoundBytes(v.value.descriptor).1 == call.buffer.size)
      && (call.range != kMaxPtrSize ==> BoundBytes(v.value.descriptor).1 == call.offset + call.range)
  {
  }

  /** The preconditions of `fillBuffer`: the offset is a multiple of 4, and
      the size is a multiple of 4 or the whole-buffer sentinel. */
  predicate FillBufferArgsValid(offset: PtrSize, size: PtrSize) {
    offset % 4 == 0 && (size % 4 == 0 || size == kMaxPtrSize)
  }

  /** The bytes a `fillBuffer` call covers, as a half-open interval
      [start, end): it starts at the aligned offset and either spans a
      multiple of 4 bytes or runs to the end of the buffer. */
  function FilledInterval(buffer: Buffer, offset: PtrSize, size: PtrSize): (interval: (nat, nat))
    requires FillBufferArgsValid(offset, size)
    requires size == kMaxPtrSize ==> offset <= buffer.size
    ensures interval.0 == offset && interval.0 % 4 == 0 && interval.0 <= interval.1
    ensures size != kMaxPtrSize ==> interval.1 - interval.0 == size && (interval.1 - interval.0) % 4 == 0
    ensures size == kMaxPtrSize ==> interval.1 == buffer.size
  {
    (offset, offset + EffectiveRange(buffer, offset, size))
  }

  /** The sentinel is never a multiple of 4, so an aligned size and "the
      whole buffer" cannot be confused. */
  lemma SentinelIsNotAligned()
    ensures kMaxPtrSize % 4 == 3
  {
  }

  /** What the source asks of a recorded operation's arguments. */
  predicate OpArgsValid(op: Op) {
    op.FillBuffer? ==> FillBufferArgsValid(op.offset, op.size)
  }

  // ---------------------------------------------------------------------
  // Recording

  /** Appends one operation to the log of an open buffer. Draws, dispatches
      and ray tracing latch the current pipeline state into the command. */
  function Record(cb: CommandBuffer, op: Op): (r: CommandBuffer)
    requires cb.status == Recording
    requires OpArgsValid(op)
    ensures r.status == Recording && r.state == cb.state && r.flags == cb.flags && r.framebuffer == cb.framebuffer
    ensures |r.log| == |cb.log| + 1 && r.log[..|cb.log|] == cb.log && r.log[|cb.log|].op == op
    ensures r.log[|cb.log|].latched.Some? <==> UsesPipelineState(op)
    ensures UsesPipelineState(op) ==> r.log[|cb.log|].latched == Some(cb.state)
    ensures !IsEmpty(r)
  {
    var latched := if UsesPipelineState(op) then Some(cb.state) else None;
    cb.(log := cb.log + [Command(op, latched)])
  }

  /** `fillBuffer(buff, offset, size, value)`. */
  function RecordFillBuffer(cb: CommandBuffer, buffer: Buffer, offset: PtrSize, size: PtrSize, value: U32): (r: CommandBuffer)
    requires cb.status == Recording
    requires FillBufferArgsValid(offset, size)
    ensures r.log == cb.log + [Command(FillBuffer(buffer, offset, size, value), None)] && r.state == cb.state
  {
    Record(cb, FillBuffer(buffer, offset, size, value))
  }

  /** `beginRenderPass` with its default render area (0, 0, kMaxU32,
      kMaxU32): the load/store area covers every rectangle that fits in the
      32-bit coordinate range. */
  function BeginRenderPassDefaultArea(cb: CommandBuffer, fb: Framebuffer, colorAttachmentUsages: AttachmentUsages, depthStencilAttachmentUsage: UsageMask): (r: CommandBuffer)
    requires cb.status == Recording
    ensures |r.log| == |cb.log| + 1 && r.log[..|cb.log|] == cb.log && r.state == cb.state
    ensures r.log[|cb.log|].op.BeginRenderPass? && r.log[|cb.log|].op.framebuffer == fb
    ensures forall rect: Rect :: rect.minx + rect.width <= kMaxU32 && rect.miny + rect.height <= kMaxU32 ==> r.log[|cb.log|].op.area.Contains(rect)
  {
    Record(cb, BeginRenderPass(fb, colorAttachmentUsages, depthStencilAttachmentUsage, Rect(0, 0, kMaxU32, kMaxU32)))
  }

  /** `copyBufferToBuffer(src, srcOffset, dst, dstOffset, range)`: records the
      batched form with the one-element list [{srcOffset, dstOffset, range}]. */
  function CopyBufferToBufferSingle(cb: CommandBuffer, src: Buffer, srcOffset: PtrSize, dst: Buffer, dstOffset: PtrSize, range: PtrSize): (r: CommandBuffer)
    requires cb.status == Recording
    ensures r.status == Recording && r.state == cb.state
    ensures r.log == cb.log + [Command(CopyBufferToBuffer(src, dst, [CopyBufferToBufferInfo(srcOffset, dstOffset, range)]), None)]
    ensures Transfers(r.log, src, dst) == Transfers(cb.log, src, dst) + [CopyBufferToBufferInfo(srcOffset, dstOffset, range)]
  {
    var r := Record(cb, CopyBufferToBuffer(src, dst, [CopyBufferToBufferInfo(srcOffset, dstOffset, range)]));
    TransfersAppend(cb.log, [r.log[|cb.log|]], src, dst);
    assert r.log == cb.log + [r.log[|cb.log|]];
    r
  }

  /** Records one single-region copy per element of `copies`, in order. */
  function CopyEach(cb: CommandBuffer, src: Buffer, dst: Buffer, copies: seq<CopyBufferToBufferInfo>): (r: CommandBuffer)
    requires cb.status == Recording
    ensures r.status == Recording && r.state == cb.state
    decreases |copies|
  {
    if |copies| == 0 then cb
    else
      var prev := CopyEach(cb, src, dst, copies[..|copies| - 1]);
      var c := copies[|copies| - 1];
      CopyBufferToBufferSingle(prev, src, c.sourceOffset, dst, c.destinationOffset, c.range)
  }

  /** The regions copied from `src` to `dst`, in recording order, by the
      buffer-to-buffer copies of a log. */
  function Transfers(log: seq<Command>, src: Buffer, dst: Buffer): seq<CopyBufferToBufferInfo>
    decreases |log|
  {
    if |log| == 0 then []
    else
      var last := log[|log| - 1].op;
      Transfers(log[..|log| - 1], src, dst)
        + (if last.CopyBufferToBuffer? && last.src == src && last.dst == dst then last.copies else [])
  }

  lemma {:induction false} TransfersAppend(a: seq<Command>, b: seq<Command>, src: Buffer, dst: Buffer)
    ensures Transfers(a + b, src, dst) == Transfers(a, src, dst) + Transfers(b, src, dst)
    decreases |b|
  {
    if |b| == 0 {
      assert a + b == a;
    } else {
      var b' := b[..|b| - 1];
      assert (a + b)[..|a + b| - 1] == a + b';
      TransfersAppend(a, b', src, dst);
    }
  }

  /** Recording the copies one region at a time with the single-copy overload
      transfers the same regions, in the same order, as one batched copy of
      the whole list. */
  lemma {:induction false} SingleCopiesMatchBatch(cb: CommandBuffer, src: Buffer, dst: Buffer, copies: seq<CopyBufferToBufferInfo>)
    requires cb.status == Recording
    ensures Transfers(CopyEach(cb, src, dst, copies).log, src, dst)
      == Transfers(Record(cb, CopyBufferToBuffer(src, dst, copies)).log, src, dst)
      == Transfers(cb.log, src, dst) + copies
    decreases |copies|
  {
    var batched := Record(cb, CopyBufferToBuffer(src, dst, copies));
    assert batched.log == cb.log + [batched.log[|cb.log|]];
    TransfersAppend(cb.log, [batched.log[|cb.log|]], src, dst);
    assert [batched.log[|cb.log|]][..0] == [];
    if |copies| > 0 {
      var init := copies[..|copies| - 1];
      SingleCopiesMatchBatch(cb, src, dst, init);
      assert init + [copies[|copies| - 1]] == copies;
    }
  }

  // ---------------------------------------------------------------------
  // Flush and second-level buffers

  /** `flush`: finalizes the buffer; a primary buffer is also submitted, with
      its fences, to the queue its flags select, while a second-level buffer
      is only finalized so that it can be pushed into a primary one. */
  function Flush(cb: CommandBuffer, waitFences: seq<Fence>, signalFence: Option<Fence>): (result: (CommandBuffer, Option<Submission>))
    requires cb.status == Recording
    ensures result.0.status != Recording
    ensures result.0.log == cb.log && result.0.state == cb.state && result.0.flags == cb.flags
    ensures result.1.Some? <==> !IsSecondLevel(cb.flags)
    ensures result.0.status == Finalized <==> IsSecondLevel(cb.flags)
    ensures result.1.Some? ==> result.1.value == Submission(cb.log, QueueFor(cb.flags), waitFences, signalFence)
  {
    if IsSecondLevel(cb.flags) then
      (cb.(status := Finalized), None)
    else
      (cb.(status := Submitted), Some(Submission(cb.log, QueueFor(cb.flags), waitFences, signalFence)))
  }

  /** The logs of a list of buffers, concatenated in order. */
  function ConcatLogs(cmdbs: seq<CommandBuffer>): seq<Command>
    decreases |cmdbs|
  {
    if |cmdbs| == 0 then [] else ConcatLogs(cmdbs[..|cmdbs| - 1]) + cmdbs[|cmdbs| - 1].log
  }

  /** Where the log of `cmdbs[i]` starts inside `ConcatLogs(cmdbs)`. */
  function LogOffset(cmdbs: seq<CommandBuffer>, i: nat): nat
    requires i <= |cmdbs|
  {
    |ConcatLogs(cmdbs[..i])|
  }

  predicate ReadyToPush(b: CommandBuffer) {
    IsSecondLevel(b.flags) && b.status == Finalized
  }

  /** `pushSecondLevelCommandBuffers`: inlines the finalized logs of the
      given second-level buffers, in order, at the end of this buffer's log. */
  function PushSecondLevelCommandBuffers(cb: CommandBuffer, cmdbs: seq<CommandBuffer>): (r: CommandBuffer)
    requires cb.status == Recording
    requires forall i :: 0 <= i < |cmdbs| ==> ReadyToPush(cmdbs[i])
    ensures r.status == Recording && r.state == cb.state && r.flags == cb.flags
    ensures |r.log| == |cb.log| + |ConcatLogs(cmdbs)| && r.log[..|cb.log|] == cb.log
    ensures forall i :: 0 <= i < |cmdbs| ==>
      LogOffset(cmdbs, i) + |cmdbs[i].log| <= |r.log| - |cb.log| &&
      r.log[|cb.log| + LogOffset(cmdbs, i) .. |cb.log| + LogOffset(cmdbs, i) + |cmdbs[i].log|] == cmdbs[i].log
  {
    var r := cb.(log := cb.log + ConcatLogs(cmdbs));
    forall i | 0 <= i < |cmdbs|
      ensures LogOffset(cmdbs, i) + |cmdbs[i].log| <= |r.log| - |cb.log|
      ensures r.log[|cb.log| + LogOffset(cmdbs, i) .. |cb.log| + LogOffset(cmdbs, i) + |cmdbs[i].log|] == cmdbs[i].log
    {
      ConcatLogsSlice(cmdbs, i);
      var lo := LogOffset(cmdbs, i);
      var hi := lo + |cmdbs[i].log|;
      assert r.log[|cb.log| + lo .. |cb.log| + hi] == ConcatLogs(cmdbs)[lo .. hi];
    }
    r
  }

  /** Each buffer's log appears verbatim, and at its offset, in the
      concatenation. */
  lemma {:induction false} ConcatLogsSlice(cmdbs: seq<CommandBuffer>, i: nat)
    requires i < |cmdbs|
    ensures LogOffset(cmdbs, i) + |cmdbs[i].log| <= |ConcatLogs(cmdbs)|
    ensures ConcatLogs(cmdbs)[LogOffset(cmdbs, i) .. LogOffset(cmdbs, i) + |cmdbs[i].log|] == cmdbs[i].log
    decreases |cmdbs|
  {
    var n := |cmdbs| - 1;
    var init := cmdbs[..n];
    assert ConcatLogs(cmdbs) == ConcatLogs(init) + cmdbs[n].log;
    if i == n {
      assert cmdbs[..i] == init;
    } else {
      ConcatLogsSlice(init, i);
      assert init[..i] == cmdbs[..i];
      assert init[i] == cmdbs[i];
      ConcatLogsPrefix(init, cmdbs[n].log, LogOffset(cmdbs, i), LogOffset(cmdbs, i) + |cmdbs[i].log|);
    }
  }

  lemma ConcatLogsPrefix(a: seq<CommandBuffer>, extra: seq<Command>, lo: nat, hi: nat)
    requires lo <= hi <= |ConcatLogs(a)|
    ensures (ConcatLogs(a) + extra)[lo .. hi] == ConcatLogs(a)[lo .. hi]
  {
  }

  // ---------------------------------------------------------------------
  // Whole-buffer properties

  /** A draw recorded after any sequence of setter calls on a fresh buffer
      observes, in every slot, the latest value set, or the documented
      default when no call set it. */
  lemma DrawObservesLatestState(init: CommandBufferInitInfo, calls: seq<Call>, draw: Op, slot: Slot)
    requires UsesPipelineState(draw) && OpArgsValid(draw)
    ensures var cb := Record(SetStates(NewCommandBuffer(init), calls), draw);
      && |cb.log| == 1 && cb.log[0].latched.Some?
      && Get(cb.log[0].latched.value, slot) == Overlay(LastWrite(calls, slot), Default(slot))
  {
    LatestCallOrDefault(calls, slot);
  }

  /** Setter calls alone record nothing: a buffer that only had state set is
      still empty. */
  lemma SettersRecordNothing(init: CommandBufferInitInfo, calls: seq<Call>)
    ensures IsEmpty(SetStates(NewCommandBuffer(init), calls))
  {
  }
}
