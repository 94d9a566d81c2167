/** Record addressing in the shader binding table (SBT) that `traceRays`
    reads, following the indexing rules of the Vulkan specification (chapter
    "Ray Tracing", section "Shader Binding Table").

    The table starts at `sbtBufferOffset` and is made of records of
    `sbtRecordSize` bytes: one ray-generation record, then one miss record per
    miss shader, then the hit-group records, whose stride is
    `sbtRecordSize * rayTypeCount`. Addresses are byte offsets into the SBT
    buffer, computed over unbounded integers. */
module GrShaderBindingTable {
  import opened GrTypes

  /** The byte length of `count` consecutive records of `size` bytes, laid
      down one record at a time. `RecordSpanIsProduct` shows it is
      `size * count`. */
  function RecordSpan(size: nat, count: nat): nat
    decreases count
  {
    if count == 0 then 0 else RecordSpan(size, count - 1) + size
  }

  /** RG = RG_offset, the start of the table. */
  function RayGenRecordAddress(sbtBufferOffset: PtrSize): nat {
    sbtBufferOffset
  }

  /** M_offset: the miss records start one record after the ray-gen record. */
  function MissRegionOffset(sbtBufferOffset: PtrSize, sbtRecordSize: U32): nat {
    sbtBufferOffset + sbtRecordSize
  }

  /** M = M_offset + M_stride * R_miss, with M_stride = sbtRecordSize. */
  function MissRecordAddress(sbtBufferOffset: PtrSize, sbtRecordSize: U32, missIndex: nat): nat {
    MissRegionOffset(sbtBufferOffset, sbtRecordSize) + RecordSpan(sbtRecordSize, missIndex)
  }

  /** HG_offset = sbtBufferOffset + sbtRecordSize * (missShaderCount + 1). */
  function HitGroupRegionOffset(sbtBufferOffset: PtrSize, sbtRecordSize: U32, missShaderCount: nat): nat {
    sbtBufferOffset + RecordSpan(sbtRecordSize, missShaderCount + 1)
  }

  /** HG_stride = sbtRecordSize * rayTypeCount. */
  function HitGroupStride(sbtRecordSize: U32, rayTypeCount: U32): nat {
    RecordSpan(sbtRecordSize, rayTypeCount)
  }

  /** The hit-group index R_offset + R_stride * G_id + I_offset. */
  function HitGroupIndex(rayOffset: nat, rayStride: nat, geometryId: nat, instanceOffset: nat): nat {
    rayOffset + rayStride * geometryId + instanceOffset
  }

  /** HG = HG_offset + HG_stride * (R_offset + R_stride * G_id + I_offset). */
  function HitGroupRecordAddress(sbtBufferOffset: PtrSize, sbtRecordSize: U32, missShaderCount: nat, rayTypeCount: U32,
                                 rayOffset: nat, rayStride: nat, geometryId: nat, instanceOffset: nat): nat
  {
    HitGroupRegionOffset(sbtBufferOffset, sbtRecordSize, missShaderCount)
      + RecordSpan(HitGroupStride(sbtRecordSize, rayTypeCount), HitGroupIndex(rayOffset, rayStride, geometryId, instanceOffset))
  }

  /** Every miss record with R_miss < missShaderCount lies, whole, after the
      ray-gen record and before the hit-group region. */
  lemma MissRecordsBetweenRayGenAndHitGroups(sbtBufferOffset: PtrSize, sbtRecordSize: U32, missShaderCount: nat, missIndex: nat)
    requires 0 < sbtRecordSize
    requires missIndex < missShaderCount
    ensures RayGenRecordAddress(sbtBufferOffset) + sbtRecordSize <= MissRecordAddress(sbtBufferOffset, sbtRecordSize, missIndex)
    ensures RayGenRecordAddress(sbtBufferOffset) < MissRecordAddress(sbtBufferOffset, sbtRecordSize, missIndex)
    ensures MissRecordAddress(sbtBufferOffset, sbtRecordSize, missIndex) + sbtRecordSize
      <= HitGroupRegionOffset(sbtBufferOffset, sbtRecordSize, missShaderCount)
  {
    RecordSpanMonotone(sbtRecordSize, missIndex + 1, missShaderCount);
  }

  /** Two different miss records never overlap. */
  lemma MissRecordsDisjoint(sbtBufferOffset: PtrSize, sbtRecordSize: U32, i: nat, j: nat)
    requires i < j
    ensures MissRecordAddress(sbtBufferOffset, sbtRecordSize, i) + sbtRecordSize <= MissRecordAddress(sbtBufferOffset, sbtRecordSize, j)
  {
    RecordSpanMonotone(sbtRecordSize, i + 1, j);
  }

  /** With G_id = 0 (the only geometry index used), the hit-group address
      does not depend on R_stride. */
  lemma HitGroupWithoutGeometryIndex(sbtBufferOffset: PtrSize, sbtRecordSize: U32, missShaderCount: nat, rayTypeCount: U32,
                                     rayOffset: nat, rayStride: nat, instanceOffset: nat)
    ensures HitGroupRecordAddress(sbtBufferOffset, sbtRecordSize, missShaderCount, rayTypeCount, rayOffset, rayStride, 0, instanceOffset)
      == HitGroupRegionOffset(sbtBufferOffset, sbtRecordSize, missShaderCount) + sbtRecordSize * rayTypeCount * (rayOffset + instanceOffset)
  {
    var stride := HitGroupStride(sbtRecordSize, rayTypeCount);
    assert HitGroupIndex(rayOffset, rayStride, 0, instanceOffset) == rayOffset + instanceOffset;
    RecordSpanIsProduct(sbtRecordSize, rayTypeCount);
    RecordSpanIsProduct(stride, rayOffset + instanceOffset);
  }

  /** Hit-group records never start before the hit-group region, and so
      never before the end of any miss record. */
  lemma HitGroupsAfterMisses(sbtBufferOffset: PtrSize, sbtRecordSize: U32, missShaderCount: nat, rayTypeCount: U32,
                             rayOffset: nat, rayStride: nat, geometryId: nat, instanceOffset: nat, missIndex: nat)
    requires missIndex < missShaderCount
    ensures HitGroupRegionOffset(sbtBufferOffset, sbtRecordSize, missShaderCount)
      <= HitGroupRecordAddress(sbtBufferOffset, sbtRecordSize, missShaderCount, rayTypeCount, rayOffset, rayStride, geometryId, instanceOffset)
    ensures MissRecordAddress(sbtBufferOffset, sbtRecordSize, missIndex) + sbtRecordSize
      <= HitGroupRecordAddress(sbtBufferOffset, sbtRecordSize, missShaderCount, rayTypeCount, rayOffset, rayStride, geometryId, instanceOffset)
  {
    RecordSpanMonotone(sbtRecordSize, missIndex + 1, missShaderCount);
  }

  /** Hit-group records with different indices are at least one stride apart,
      so when there is at least one ray type they never overlap. */
  lemma HitGroupRecordsDisjoint(sbtBufferOffset: PtrSize, sbtRecordSize: U32, missShaderCount: nat, rayTypeCount: U32,
                                indexA: nat, indexB: nat)
    requires 0 < rayTypeCount
    requires indexA < indexB
    ensures HitGroupRegionOffset(sbtBufferOffset, sbtRecordSize, missShaderCount) + RecordSpan(HitGroupStride(sbtRecordSize, rayTypeCount), indexA)
      + sbtRecordSize
      <= HitGroupRegionOffset(sbtBufferOffset, sbtRecordSize, missShaderCount) + RecordSpan(HitGroupStride(sbtRecordSize, rayTypeCount), indexB)
  {
    var stride := HitGroupStride(sbtRecordSize, rayTypeCount);
    RecordSpanMonotone(sbtRecordSize, 1, rayTypeCount);
    RecordSpanMonotone(stride, indexA + 1, indexB);
  }

  /** A hit-group record whose index, counted in records, is below
      `hitGroupSbtRecordCount` ends inside the table. */
  lemma HitGroupRecordWithinTable(sbtBufferOffset: PtrSize, sbtRecordSize: U32, missShaderCount: nat, rayTypeCount: U32,
                                  hitGroupSbtRecordCount: U32, index: nat)
    requires rayTypeCount * index < hitGroupSbtRecordCount
    ensures HitGroupRegionOffset(sbtBufferOffset, sbtRecordSize, missShaderCount) + RecordSpan(HitGroupStride(sbtRecordSize, rayTypeCount), index)
      + sbtRecordSize
      <= HitGroupRegionOffset(sbtBufferOffset, sbtRecordSize, missShaderCount) + RecordSpan(sbtRecordSize, hitGroupSbtRecordCount)
  {
    RecordSpanNested(sbtRecordSize, rayTypeCount, index);
    RecordSpanMonotone(sbtRecordSize, rayTypeCount * index + 1, hitGroupSbtRecordCount);
  }

  /** The address depends on the ray offset and the instance offset only
      through their sum: any two pairs with the same sum read the same record,
      whatever the geometry index and ray stride. With more than one ray type
      this makes ray type 1 of instance offset 0 collide with ray type 0 of
      instance offset 1. */
  lemma HitGroupIndexAliasing(sbtBufferOffset: PtrSize, sbtRecordSize: U32, missShaderCount: nat, rayTypeCount: U32,
                              rayStride: nat, geometryId: nat,
                              rayOffset: nat, instanceOffset: nat, otherRayOffset: nat, otherInstanceOffset: nat)
    requires rayOffset + instanceOffset == otherRayOffset + otherInstanceOffset
    ensures HitGroupRecordAddress(sbtBufferOffset, sbtRecordSize, missShaderCount, rayTypeCount, rayOffset, rayStride, geometryId, instanceOffset)
      == HitGroupRecordAddress(sbtBufferOffset, sbtRecordSize, missShaderCount, rayTypeCount, otherRayOffset, rayStride, geometryId, otherInstanceOffset)
  {
  }

  /** The hit-group address is the header's formula with ordinary products:
      HG = off + rs * (missShaderCount + 1) + (rs * rayTypeCount) * (R_offset + R_stride * G_id + I_offset). */
  lemma HitGroupRecordAddressIsProduct(sbtBufferOffset: PtrSize, sbtRecordSize: U32, missShaderCount: nat, rayTypeCount: U32,
                                       rayOffset: nat, rayStride: nat, geometryId: nat, instanceOffset: nat)
    ensures HitGroupRecordAddress(sbtBufferOffset, sbtRecordSize, missShaderCount, rayTypeCount, rayOffset, rayStride, geometryId, instanceOffset)
      == sbtBufferOffset + sbtRecordSize * (missShaderCount + 1)
         + (sbtRecordSize * rayTypeCount) * (rayOffset + rayStride * geometryId + instanceOffset)
  {
    RecordSpanIsProduct(sbtRecordSize, missShaderCount + 1);
    RecordSpanIsProduct(sbtRecordSize, rayTypeCount);
    RecordSpanIsProduct(HitGroupStride(sbtRecordSize, rayTypeCount), HitGroupIndex(rayOffset, rayStride, geometryId, instanceOffset));
  }

  /** The miss address is the header's formula with ordinary products:
      M = off + rs + rs * R_miss. */
  lemma MissRecordAddressIsProduct(sbtBufferOffset: PtrSize, sbtRecordSize: U32, missIndex: nat)
    ensures MissRecordAddress(sbtBufferOffset, sbtRecordSize, missIndex) == sbtBufferOffset + sbtRecordSize + sbtRecordSize * missIndex
  {
    RecordSpanIsProduct(sbtRecordSize, missIndex);
  }

  /** Worked instance: record size 64, two miss shaders, three ray types,
      ray offset 1 and instance offset 0 put the hit group 384 bytes past the
      table start (3 records of 64, then one stride of 3 records). */
  lemma WorkedExampleHitGroup64(sbtBufferOffset: PtrSize)
    ensures HitGroupRecordAddress(sbtBufferOffset, 64, 2, 3, 1, 3, 0, 0) == sbtBufferOffset + 384
  {
  }

  /** Worked instance: with record size 64, miss record 1 is 128 bytes past
      the table start, just after the ray-gen record and miss record 0. */
  lemma WorkedExampleMiss64(sbtBufferOffset: PtrSize)
    ensures MissRecordAddress(sbtBufferOffset, 64, 1) == sbtBufferOffset + 128
  {
  }

  /** Worked instance: record size 32, one miss shader, two ray types, ray
      offset 1 and instance offset 2 put the hit group 256 bytes past the
      table start (2 records of 32, then 3 strides of 64). */
  lemma WorkedExampleHitGroup32(sbtBufferOffset: PtrSize)
    ensures HitGroupRecordAddress(sbtBufferOffset, 32, 1, 2, 1, 2, 0, 2) == sbtBufferOffset + 256
  {
  }

  /** A span of `count` records of `size` bytes is `size * count` bytes. */
  lemma {:induction false} RecordSpanIsProduct(size: nat, count: nat)
    ensures RecordSpan(size, count) == size * count
    decreases count
  {
    if count > 0 {
      RecordSpanIsProduct(size, count - 1);
    }
  }

  /** Spans of consecutive record runs add up. */
  lemma {:induction false} RecordSpanSplit(size: nat, a: nat, b: nat)
    ensures RecordSpan(size, a + b) == RecordSpan(size, a) + RecordSpan(size, b)
    decreases b
  {
    if b > 0 {
      RecordSpanSplit(size, a, b - 1);
    }
  }

  /** More records never take fewer bytes. */
  lemma {:induction false} RecordSpanMonotone(size: nat, a: nat, b: nat)
    requires a <= b
    ensures RecordSpan(size, a) <= RecordSpan(size, b)
  {
    RecordSpanSplit(size, a, b - a);
  }

  /** `count` strides of `n` records each are `n * count` records. */
  lemma {:induction false} RecordSpanNested(size: nat, n: nat, count: nat)
    ensures RecordSpan(RecordSpan(size, n), count) == RecordSpan(size, n * count)
    decreases count
  {
    if count > 0 {
      RecordSpanNested(size, n, count - 1);
      RecordSpanSplit(size, n * (count - 1), n);
      assert n * (count - 1) + n == n * count;
    }
  }
}
