# AnKi command-buffer recording contract and vertex-stream tables, in Dafny

This project models the recording interface of AnKi's GPU command buffer
(`AnKi/Gr/CommandBuffer.h`) and the vertex-stream identifiers, masks and
formats shared by AnKi's shaders and engine (`AnKi/Shaders/Include/MeshTypes.h`).
Both are interfaces rather than algorithms. The model therefore states the
documented behaviour of each call as a pure function on immutable values, and
proves what the header promises.

- `GrTypes` (`gr_types.dfy`): the integer widths `U32` and `PtrSize`, the
  constants `kMaxU32` and `kMaxPtrSize`, opaque resource handles, and the
  enumerations the header names.
- `GrPipelineState` (`gr_pipeline_state.dfy`): the pipeline state that a
  command buffer latches between draws. It has one observable *slot* per
  piece of state: vertex buffer N, the cull mode, the front stencil
  reference, the blend factors of attachment N, descriptor (set, binding,
  index), and so on.
  - Every state-setting call is a `Call`.
  - `Writes` is the reference description of what each call writes.
  - `Apply` is the state update, and is proved to agree with `Writes`.
  - Over any sequence of calls, the latest write to a slot wins. A slot
    nobody wrote keeps its documented default.
- `GrCommandBuffer` (`gr_command_buffer.dfy`):
  - creation flags and init-info defaults;
  - the command log, in which draws, dispatches and ray tracing latch the
    current pipeline state;
  - the inline overloads;
  - the `kMaxPtrSize` "to the end of the buffer" sentinel and the
    `fillBuffer` preconditions;
  - the default render-pass area;
  - `flush`, which finalizes a buffer and submits it only when it is
    primary;
  - `pushSecondLevelCommandBuffers`, which inlines finalized second-level
    logs, in order.
- `GrShaderBindingTable` (`gr_shader_binding_table.dfy`): the
  shader-binding-table addressing that `traceRays` documents. The ray-gen
  record comes first, then the miss records, then the hit-group records.
  The lemmas prove that these regions are laid out without overlap.
- `MeshTypes` (`mesh_types.dfy`):
  - the mesh stream ids 0..5 and the particle stream ids 0..6, where
    particle ids alias mesh ids;
  - the masks `1 << id` and their union algebra;
  - the two format tables, checked against the unpacked vertex layout.

A command buffer is a value: each call returns the buffer it leaves behind.
Calls the source leaves undefined are preconditions of the model rather than
error results, because the source treats them as programmer errors, not
recoverable conditions. These are: mutating after `flush`, flushing twice,
pushing a buffer that is not a finalized second-level buffer, and
`fillBuffer` with misaligned arguments.

For `traceRays` the model follows the formula in the header comment
(`CommandBuffer.h` lines 317-335):
- Miss records start one record after the ray-gen record, at
  `sbtBufferOffset + sbtRecordSize`.
- The hit-group region starts at
  `sbtBufferOffset + sbtRecordSize * (missShaderCount + 1)`.

## Model

| member | source | states |
|---|---|---|
| GrPipelineState.Initial | AnKi/Gr/CommandBuffer.h:119-292 | A new state holds each documented default: scissor disabled, cull BACK, depth compare LESS, blend factors ONE/ZERO/ONE/ZERO and operations ADD/ADD on every attachment, rasterization order ORDERED, VRS rate 1x1. Every other slot is undefined. |
| GrPipelineState.ApplyWritesOnlyItsSlots | AnKi/Gr/CommandBuffer.h:104-292 | Each state-setting call changes exactly the slots its reference description `Writes` names, to the values it names. Every other slot keeps its value. |
| GrPipelineState.LatestCallWins | AnKi/Gr/CommandBuffer.h:101-292 | After any sequence of setter calls, every slot holds the value written by the latest call that writes it. It keeps its earlier value when no call writes it. |
| GrPipelineState.LatestCallOrDefault | AnKi/Gr/CommandBuffer.h:119-183 | Starting from a new buffer, a slot holds the latest value written to it, or its documented default when nothing wrote it. |
| GrPipelineState.ScissorDisabledByDefault | AnKi/Gr/CommandBuffer.h:119-120 | The scissor is inactive by default. Setting a rectangle keeps it inactive exactly when the rectangle covers the viewport. |
| GrPipelineState.DisablingDepthTest | AnKi/Gr/CommandBuffer.h:148-153 | Depth testing is not off by default. Depth write false plus compare ALWAYS turns it off from any state, in either order. |
| GrPipelineState.DisablingStencilTest | AnKi/Gr/CommandBuffer.h:132-134 | KEEP for all three stencil operations turns the stencil test off on exactly the selected faces and leaves the other face unchanged. |
| GrCommandBuffer.FlagBits | AnKi/Gr/CommandBuffer.h:55-69 | The flags are the bits 1, 8, 16 and 32, pairwise disjoint. kNone is a primary buffer for the general queue. |
| GrCommandBuffer.SecondLevelBit | AnKi/Gr/CommandBuffer.h:59 | A flag set is second level exactly when bit 0 is set. Setting or clearing that bit makes any flag set second level or primary. |
| GrCommandBuffer.DefaultTextureBarrierInfo | AnKi/Gr/CommandBuffer.h:19-26 | A default texture barrier names no texture, and both its usages are kNone. |
| GrCommandBuffer.DefaultBufferBarrierInfo | AnKi/Gr/CommandBuffer.h:28-36 | A default buffer barrier names no buffer, both its usages are kNone, and its offset and range are 0. |
| GrCommandBuffer.DefaultAccelerationStructureBarrierInfo | AnKi/Gr/CommandBuffer.h:38-44 | A default acceleration-structure barrier names no structure, and both its usages are kNone. |
| GrCommandBuffer.DefaultInitInfo | AnKi/Gr/CommandBuffer.h:73-86 | The default init info has flags kGeneralWork, so it is primary and targets the general queue. It has no framebuffer, and every attachment usage is kNone. |
| GrCommandBuffer.NewCommandBuffer | AnKi/Gr/CommandBuffer.h:474-475 | A new buffer takes its name, flags and framebuffer from the init info. It is recording and empty, and every state slot holds its default. |
| GrCommandBuffer.SetState | AnKi/Gr/CommandBuffer.h:101-292 | A state-setting call records nothing, keeps the buffer open and changes only the slots it writes. |
| GrCommandBuffer.BindVertexBufferPerVertex | AnKi/Gr/CommandBuffer.h:104-105 | `bindVertexBuffer` without a step rate binds with step rate kVertex. It changes no other slot. |
| GrCommandBuffer.SetBlendFactorsUniform | AnKi/Gr/CommandBuffer.h:166-170 | The two-factor overload sets the attachment's factors to (src, dst, src, dst). It changes no other slot. |
| GrCommandBuffer.SetBlendOperationUniform | AnKi/Gr/CommandBuffer.h:176-180 | The one-operation overload sets the attachment's operations to (func, func). It changes no other slot. |
| GrCommandBuffer.BindConstantBufferRange | AnKi/Gr/CommandBuffer.h:219-227 | The `BufferOffsetRange` overload binds the range's buffer, offset and range at (set, binding, arrayIdx). It changes no other slot. |
| GrCommandBuffer.BindUavBufferRange | AnKi/Gr/CommandBuffer.h:239-247 | The same as the row above, for storage buffers. |
| GrCommandBuffer.EffectiveRange | AnKi/Gr/CommandBuffer.h:210-217 | A range of kMaxPtrSize means everything from the offset to the end of the buffer. Any other range means exactly that many bytes. |
| GrCommandBuffer.BindRangeSentinel | AnKi/Gr/CommandBuffer.h:210-264 | After `bindConstantBuffer`, `bindUavBuffer` or `bindReadOnlyTextureBuffer`, the slot holds a descriptor of that buffer. Its bound bytes start at the offset, and run to the end of the buffer when the range is kMaxPtrSize; otherwise they are exactly `range` bytes. |
| GrCommandBuffer.FilledInterval | AnKi/Gr/CommandBuffer.h:375-380 | A valid fill starts at a multiple of 4. It spans a multiple of 4 bytes, or, for the sentinel size, runs to the end of the buffer. |
| GrCommandBuffer.SentinelIsNotAligned | AnKi/Gr/CommandBuffer.h:378 | kMaxPtrSize is not a multiple of 4, so the "whole buffer" size cannot be mistaken for an aligned size. |
| GrCommandBuffer.RecordFillBuffer | AnKi/Gr/CommandBuffer.h:375-380 | `fillBuffer` needs an offset that is a multiple of 4, and a size that is a multiple of 4 or kMaxPtrSize. It appends one command and leaves the state alone. |
| GrCommandBuffer.Record | AnKi/Gr/CommandBuffer.h:295-315 | Recording a job appends exactly it to the log and leaves the state alone. Draws, dispatches and ray tracing, and only those, latch the current pipeline state. |
| GrCommandBuffer.BeginRenderPassDefaultArea | AnKi/Gr/CommandBuffer.h:282-286 | With the default area (0, 0, kMaxU32, kMaxU32), the render area contains every rectangle in the 32-bit coordinate range. |
| GrCommandBuffer.CopyBufferToBufferSingle | AnKi/Gr/CommandBuffer.h:394-398 | The single-copy overload records one batched copy whose list is [{srcOffset, dstOffset, range}]. The regions transferred from src to dst grow by exactly that region. |
| GrCommandBuffer.SingleCopiesMatchBatch | AnKi/Gr/CommandBuffer.h:388-404 | Copying regions one at a time with the single-copy overload transfers the same regions, in the same order, as one batched copy. |
| GrCommandBuffer.Flush | AnKi/Gr/CommandBuffer.h:96-99 | `flush` closes the buffer and leaves its log unchanged. A primary buffer is submitted with its log, its fences and the queue its flags select. A second-level buffer is only finalized. |
| GrCommandBuffer.PushSecondLevelCommandBuffers | AnKi/Gr/CommandBuffer.h:451-452 | Pushing keeps the existing log as a prefix. Each second-level log then appears verbatim, in argument order, at its offset after that prefix. |
| GrCommandBuffer.DrawObservesLatestState | AnKi/Gr/CommandBuffer.h:291-299 | A draw recorded after any setter calls on a new buffer observes, in every slot, the latest value set, or the documented default. |
| GrCommandBuffer.SettersRecordNothing | AnKi/Gr/CommandBuffer.h:454 | A buffer that has only had state set is still empty. |
| GrShaderBindingTable.RecordSpanIsProduct | AnKi/Gr/CommandBuffer.h:324-332 | Laying records down one at a time spans exactly size × count bytes. |
| GrShaderBindingTable.HitGroupRecordAddressIsProduct | AnKi/Gr/CommandBuffer.h:329-335 | For every input, the hit-group address is off + rs·(missShaderCount + 1) + (rs·rayTypeCount)·(R_offset + R_stride·G_id + I_offset). |
| GrShaderBindingTable.MissRecordAddressIsProduct | AnKi/Gr/CommandBuffer.h:323-326 | For every input, the miss address is off + rs + rs·R_miss. |
| GrShaderBindingTable.MissRecordsBetweenRayGenAndHitGroups | AnKi/Gr/CommandBuffer.h:319-331 | Every miss record lies wholly after the ray-gen record and before the hit-group region. |
| GrShaderBindingTable.MissRecordsDisjoint | AnKi/Gr/CommandBuffer.h:323-326 | Distinct miss records never overlap. |
| GrShaderBindingTable.HitGroupsAfterMisses | AnKi/Gr/CommandBuffer.h:329-331 | Every hit-group record starts at or after the hit-group region, so after the end of every miss record. |
| GrShaderBindingTable.HitGroupWithoutGeometryIndex | AnKi/Gr/CommandBuffer.h:330-334 | With G_id = 0, the hit-group address is HG_offset + sbtRecordSize * rayTypeCount * (R_offset + I_offset), whatever R_stride is. |
| GrShaderBindingTable.HitGroupRecordsDisjoint | AnKi/Gr/CommandBuffer.h:330-332 | With at least one ray type, hit-group records with different indices do not overlap. |
| GrShaderBindingTable.HitGroupRecordWithinTable | AnKi/Gr/CommandBuffer.h:338-345 | A hit-group record whose record index is below hitGroupSbtRecordCount ends within the hit-group records. |
| GrShaderBindingTable.HitGroupIndexAliasing | AnKi/Gr/CommandBuffer.h:330-335 | For any geometry index and ray stride, two (R_offset, I_offset) pairs with the same sum give the same hit-group address. |
| GrShaderBindingTable.WorkedExampleHitGroup64 | AnKi/Gr/CommandBuffer.h:329-335 | Record size 64, 2 miss shaders, 3 ray types, R_offset 1, I_offset 0: HG_offset is 64·3 = 192 and one stride is 64·3 = 192, so the hit group is 384 bytes past the table start. |
| GrShaderBindingTable.WorkedExampleMiss64 | AnKi/Gr/CommandBuffer.h:323-326 | Record size 64: miss record 1 is 128 bytes past the table start. |
| GrShaderBindingTable.WorkedExampleHitGroup32 | AnKi/Gr/CommandBuffer.h:329-335 | Record size 32, 1 miss shader, 2 ray types, R_offset 1, I_offset 2: the hit group is 256 bytes past the table start. |
| MeshTypes.MeshStreamId | AnKi/Shaders/Include/MeshTypes.h:17-27 | Mesh stream ids lie in [kMeshRelatedFirst, kMeshRelatedCount) = [0, 6). |
| MeshTypes.ParticleStreamId | AnKi/Shaders/Include/MeshTypes.h:29-39 | Particle stream ids lie in [kParticleRelatedFirst, kParticleRelatedCount) = [0, 7). |
| MeshTypes.MeshStreamFromId | AnKi/Shaders/Include/MeshTypes.h:19-27 | Every id below kMeshRelatedCount names a mesh stream with that id. |
| MeshTypes.ParticleStreamFromId | AnKi/Shaders/Include/MeshTypes.h:30-38 | Every id below kParticleRelatedCount names a particle stream with that id. |
| MeshTypes.StreamIdsRoundTrip | AnKi/Shaders/Include/MeshTypes.h:19-39 | Within a family, converting a stream to its id and back gives the stream again. |
| MeshTypes.MasksAreIdBits | AnKi/Shaders/Include/MeshTypes.h:49-64 | The mask of every mesh and particle stream is `1 << id`. |
| MeshTypes.IdBitsDisjoint | AnKi/Shaders/Include/MeshTypes.h:49-64 | No id bit is kNone. Two id bits overlap exactly when the ids are equal. |
| MeshTypes.StreamMasksDisjoint | AnKi/Shaders/Include/MeshTypes.h:51-64 | Within a family, two masks overlap exactly when the streams are the same, and no mask is kNone. |
| MeshTypes.ParticleIdsAliasMeshIds | AnKi/Shaders/Include/MeshTypes.h:29-30 | The particle stream with a mesh stream's id has the same id and the same mask as that mesh stream. |
| MeshTypes.MaskOfIdsContains | AnKi/Shaders/Include/MeshTypes.h:43-66 | The OR of a list of id bits contains an id's bit exactly when the id is in the list. |
| MeshTypes.MeshStreamsMaskContains | AnKi/Shaders/Include/MeshTypes.h:51-56 | A combined mesh mask contains a stream's mask exactly when the stream was one of those combined. |
| MeshTypes.AllMeshStreamsMask | AnKi/Shaders/Include/MeshTypes.h:51-56 | The union of the six mesh masks is 0x3F, and it contains every mesh stream. |
| MeshTypes.FormatTablesSized | AnKi/Shaders/Include/MeshTypes.h:68-75 | The mesh format table has kMeshRelatedCount entries. The particle table has kParticleRelatedCount entries. |
| MeshTypes.MeshFormatsFitUnpackedVertex | AnKi/Shaders/Include/MeshTypes.h:69-86 | Each mesh stream's format has enough components for its unpacked-vertex field, and is an integer format exactly for the bone indices. The position format is R16G16B16A16_Unorm, UV is R32G32_Sfloat, and so on for every entry. |
| MeshTypes.ParticleFormatsByStream | AnKi/Shaders/Include/MeshTypes.h:73-75 | Each particle stream's format, entry by entry. None of them is an integer format. |

## Left out

- GPU execution: what copies, clears, blits, draws and barriers do to
  memory is not modelled. A recorded command is only its arguments, plus
  the latched pipeline state for draws, dispatches and ray tracing.
- Validation that needs the device or other headers is not modelled:
  draws only inside a render pass, barrier usage transitions, and format
  capabilities.
- Float-valued state and arguments are not modelled: `setPolygonOffset`,
  `setLineWidth`, the colour of `pushDebugMarker`, and the jitter and
  motion-vector scale of `upscale`. They are floating point.
- `setPushConstants` data is kept as bytes. The raw address and size arguments
  are not modelled.
- Reference counting, object creation failure (a null handle), thread
  confinement and fence signalling are runtime concerns outside the
  recording contract.
- `flush` may block on its wait fences. Only the fences handed to the
  submission are modelled.
- Default arguments are explicit parameters of the recorded operations:
  the `arrayIdx = 0` of the bind calls, and the instance count and first
  index of the draws. The `bindVertexBuffer` step rate and the render-pass
  area are exceptions that have their own members.
- `kMaxColorRenderTargets` is declared outside this header. Per-attachment
  state and usages are maps keyed by attachment index, with no upper bound.
- The enumerators of `BlendFactor`, `CompareOperation` and the other enums
  are declared outside this header. Each is modelled by the enumerators
  named here, plus one constructor carrying any other code.
- `isEmpty` is modelled as "no command recorded". Setter calls are not
  logged. The header does not say whether the render-pass load and store
  operations count as work.
- Queue selection: a primary buffer goes to the async-compute queue
  exactly when `kComputeWork` is set, and to the general queue otherwise.
  The header says only that compute-only buffers bind to async compute
  queues.
- GrShaderBindingTable.HitGroupRecordAddress: `missShaderCount` is a
  parameter, because it belongs to the bound ray-tracing program and is
  not an argument of `traceRays`.
- GrShaderBindingTable.HitGroupRecordAddress: `PtrSize` wrap-around is not
  modelled. Addresses are unbounded integers, because the header states
  the formulas over the integers.
- GrCommandBuffer.PushSecondLevelCommandBuffers: keeps the primary
  buffer's pipeline state unchanged. The header says nothing about the
  state after inlining, and the Vulkan command it wraps leaves that state
  undefined. A caller should therefore set state again before the next
  draw; the model does not capture this.
- GrCommandBuffer.EffectiveRange: an offset past the end of the buffer
  with the sentinel range is excluded by a precondition, because the
  header leaves that case unspecified.
- GrCommandBuffer.BindRangeSentinel: requires the same, for the same
  reason. The bind itself stores the range as given, whatever the offset.
- MeshTypes.MeshStreamId: ids are 8-bit on the engine side and 32-bit on
  the shader side. Both widths hold every id, so the width is not modelled.
- The `UnpackedMeshVertex` field types (`Vec3`, `RVec3`, ...) are reduced
  to their component count and their integer-or-real kind.
