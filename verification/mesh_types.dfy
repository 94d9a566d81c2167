/** Vertex-stream identifiers, their bitmasks and their formats, shared by
    the shaders and the engine.

    Two families share one id enumeration: the mesh streams count from 0 to
    5, and the particle streams restart at 0 and count to 6, so a particle id
    aliases the mesh id of the same number. Every stream's mask is the bit
    `1 << id`. Ids and masks are 8-bit on the engine side. */
module MeshTypes {
  import opened GrTypes

  datatype MeshStream = kPosition | kNormal | kTangent | kUv | kBoneIds | kBoneWeights

  datatype ParticleStream =
    | kParticlePosition | kParticlePreviousPosition | kParticleScale | kParticleColor
    | kParticleLife | kParticleStartingLife | kParticleVelocity

  const kMeshRelatedFirst: nat := 0
  const kMeshRelatedCount: nat := 6
  const kParticleRelatedFirst: nat := 0
  const kParticleRelatedCount: nat := 7

  /** `VertexStreamId` of a mesh stream: its position in declaration order. */
  function MeshStreamId(s: MeshStream): (id: nat)
    ensures kMeshRelatedFirst <= id < kMeshRelatedCount
  {
    match s
    case kPosition => 0
    case kNormal => 1
    case kTangent => 2
    case kUv => 3
    case kBoneIds => 4
    case kBoneWeights => 5
  }

  /** `VertexStreamId` of a particle stream: its position in declaration
      order, restarting at 0. */
  function ParticleStreamId(s: ParticleStream): (id: nat)
    ensures kParticleRelatedFirst <= id < kParticleRelatedCount
  {
    match s
    case kParticlePosition => 0
    case kParticlePreviousPosition => 1
    case kParticleScale => 2
    case kParticleColor => 3
    case kParticleLife => 4
    case kParticleStartingLife => 5
    case kParticleVelocity => 6
  }

  /** The mesh stream with a given id; every id below the count names one. */
  function MeshStreamFromId(id: nat): (s: MeshStream)
    requires id < kMeshRelatedCount
    ensures MeshStreamId(s) == id
  {
    if id == 0 then kPosition
    else if id == 1 then kNormal
    else if id == 2 then kTangent
    else if id == 3 then kUv
    else if id == 4 then kBoneIds
    else kBoneWeights
  }

  /** The particle stream with a given id; every id below the count names one. */
  function ParticleStreamFromId(id: nat): (s: ParticleStream)
    requires id < kParticleRelatedCount
    ensures ParticleStreamId(s) == id
  {
    if id == 0 then kParticlePosition
    else if id == 1 then kParticlePreviousPosition
    else if id == 2 then kParticleScale
    else if id == 3 then kParticleColor
    else if id == 4 then kParticleLife
    else if id == 5 then kParticleStartingLife
    else kParticleVelocity
  }

  /** Ids identify streams within a family: id and stream convert both ways. */
  lemma StreamIdsRoundTrip(m: MeshStream, p: ParticleStream)
    ensures MeshStreamFromId(MeshStreamId(m)) == m
    ensures ParticleStreamFromId(ParticleStreamId(p)) == p
  {
  }

  // ---------------------------------------------------------------------
  // Masks (`VertexStreamMask`)

  type VertexStreamMask = bv8

  const kNone: VertexStreamMask := 0

  /** The mask of a mesh stream, as the mask enumeration declares it. */
  function MeshStreamMask(s: MeshStream): VertexStreamMask {
    match s
    case kPosition => 1 << 0
    case kNormal => 1 << 1
    case kTangent => 1 << 2
    case kUv => 1 << 3
    case kBoneIds => 1 << 4
    case kBoneWeights => 1 << 5
  }

  /** The mask of a particle stream, as the mask enumeration declares it. */
  function ParticleStreamMask(s: ParticleStream): VertexStreamMask {
    match s
    case kParticlePosition => 1 << 0
    case kParticlePreviousPosition => 1 << 1
    case kParticleScale => 1 << 2
    case kParticleColor => 1 << 3
    case kParticleLife => 1 << 4
    case kParticleStartingLife => 1 << 5
    case kParticleVelocity => 1 << 6
  }

  /** The single-bit mask of an id. */
  function IdBit(id: nat): VertexStreamMask
    requires id < 8
  {
    (1 as bv8) << id
  }

  /** The mask enumeration agrees with the id enumeration: each mesh and each
      particle stream's mask is the bit `1 << id`. */
  lemma MasksAreIdBits(m: MeshStream, p: ParticleStream)
    ensures MeshStreamMask(m) == IdBit(MeshStreamId(m))
    ensures ParticleStreamMask(p) == IdBit(ParticleStreamId(p))
  {
  }

  /** Distinct ids have disjoint bits, and no bit is `kNone`. */
  lemma IdBitsDisjoint(i: nat, j: nat)
    requires i < 8 && j < 8
    ensures IdBit(i) != kNone
    ensures IdBit(i) & IdBit(j) == kNone <==> i != j
  {
    // Eight cases per id: check each pair of bits.
    assert IdBit(0) == 1 && IdBit(1) == 2 && IdBit(2) == 4 && IdBit(3) == 8;
    assert IdBit(4) == 16 && IdBit(5) == 32 && IdBit(6) == 64 && IdBit(7) == 128;
  }

  /** Within one family, the masks of two streams overlap exactly when the
      streams are the same, and no stream's mask is `kNone`. */
  lemma StreamMasksDisjoint(a: MeshStream, b: MeshStream, p: ParticleStream, q: ParticleStream)
    ensures MeshStreamMask(a) != kNone && ParticleStreamMask(p) != kNone
    ensures MeshStreamMask(a) & MeshStreamMask(b) == kNone <==> a != b
    ensures ParticleStreamMask(p) & ParticleStreamMask(q) == kNone <==> p != q
  {
    MasksAreIdBits(a, p);
    MasksAreIdBits(b, q);
    IdBitsDisjoint(MeshStreamId(a), MeshStreamId(b));
    IdBitsDisjoint(ParticleStreamId(p), ParticleStreamId(q));
    StreamIdsRoundTrip(a, p);
    StreamIdsRoundTrip(b, q);
  }

  /** Particle ids alias mesh ids: the first six particle streams have the
      same id, and so the same mask, as the mesh stream of that number. */
  lemma ParticleIdsAliasMeshIds(m: MeshStream)
    ensures ParticleStreamId(ParticleStreamFromId(MeshStreamId(m))) == MeshStreamId(m)
    ensures ParticleStreamMask(ParticleStreamFromId(MeshStreamId(m))) == MeshStreamMask(m)
  {
    MasksAreIdBits(m, ParticleStreamFromId(MeshStreamId(m)));
  }

  /** The union of the bits of a list of ids. */
  function MaskOfIds(ids: seq<nat>): VertexStreamMask
    requires forall k :: 0 <= k < |ids| ==> ids[k] < 8
    decreases |ids|
  {
    if |ids| == 0 then kNone else MaskOfIds(ids[..|ids| - 1]) | IdBit(ids[|ids| - 1])
  }

  /** A union of id bits contains the bit of exactly the ids in the list. */
  lemma {:induction false} MaskOfIdsContains(ids: seq<nat>, id: nat)
    requires forall k :: 0 <= k < |ids| ==> ids[k] < 8
    requires id < 8
    ensures MaskOfIds(ids) & IdBit(id) != kNone <==> id in ids
    decreases |ids|
  {
    if |ids| > 0 {
      var init := ids[..|ids| - 1];
      var last := ids[|ids| - 1];
      MaskOfIdsContains(init, id);
      IdBitsDisjoint(last, id);
      assert ids == init + [last];
      assert (MaskOfIds(init) | IdBit(last)) & IdBit(id) == (MaskOfIds(init) & IdBit(id)) | (IdBit(last) & IdBit(id));
    }
  }

  function MeshStreamIds(streams: seq<MeshStream>): (ids: seq<nat>)
    ensures |ids| == |streams|
    ensures forall k :: 0 <= k < |ids| ==> ids[k] == MeshStreamId(streams[k]) && ids[k] < 8
  {
    seq(|streams|, k requires 0 <= k < |streams| => MeshStreamId(streams[k]))
  }

  /** The mask of a set of mesh streams, given as a list. */
  function MeshStreamsMask(streams: seq<MeshStream>): VertexStreamMask {
    MaskOfIds(MeshStreamIds(streams))
  }

  /** A combined mesh mask names exactly the streams it was built from. */
  lemma MeshStreamsMaskContains(streams: seq<MeshStream>, s: MeshStream)
    ensures MeshStreamsMask(streams) & MeshStreamMask(s) != kNone <==> s in streams
  {
    var ids := MeshStreamIds(streams);
    MaskOfIdsContains(ids, MeshStreamId(s));
    MasksAreIdBits(s, kParticlePosition);
    if MeshStreamId(s) in ids {
      var k :| 0 <= k < |ids| && ids[k] == MeshStreamId(s);
      StreamIdsRoundTrip(s, kParticlePosition);
      StreamIdsRoundTrip(streams[k], kParticlePosition);
    }
    if s in streams {
      var k :| 0 <= k < |streams| && streams[k] == s;
      assert ids[k] == MeshStreamId(s);
    }
  }

  const kAllMeshStreams: seq<MeshStream> := [kPosition, kNormal, kTangent, kUv, kBoneIds, kBoneWeights]

  /** The six mesh masks together are 0x3F, and every mesh stream is in it. */
  lemma AllMeshStreamsMask(s: MeshStream)
    ensures MeshStreamsMask(kAllMeshStreams) == 0x3F
    ensures MeshStreamsMask(kAllMeshStreams) & MeshStreamMask(s) != kNone
  {
    var ids := MeshStreamIds(kAllMeshStreams);
    assert ids == [0, 1, 2, 3, 4, 5];
    assert ids[..5] == [0, 1, 2, 3, 4];
    assert ids[..5][..4] == [0, 1, 2, 3];
    assert ids[..5][..4][..3] == [0, 1, 2];
    assert ids[..5][..4][..3][..2] == [0, 1];
    assert ids[..5][..4][..3][..2][..1] == [0];
    assert ids[..5][..4][..3][..2][..1][..0] == [];
    assert MaskOfIds([0]) == 0x01;
    assert MaskOfIds([0, 1]) == 0x03;
    assert MaskOfIds([0, 1, 2]) == 0x07;
    assert MaskOfIds([0, 1, 2, 3]) == 0x0F;
    assert MaskOfIds([0, 1, 2, 3, 4]) == 0x1F;
    MeshStreamsMaskContains(kAllMeshStreams, s);
  }

  // ---------------------------------------------------------------------
  // Formats

  const kMeshRelatedVertexStreamFormats: seq<Format> :=
    [kR16G16B16A16_Unorm, kR8G8B8A8_Snorm, kR8G8B8A8_Snorm, kR32G32_Sfloat, kR8G8B8A8_Uint, kR8G8B8A8_Snorm]

  const kParticleRelatedVertexStreamFormats: seq<Format> :=
    [kR32G32B32_Sfloat, kR32G32B32_Sfloat, kR32_Sfloat, kR32G32B32A32_Sfloat, kR32_Sfloat, kR32_Sfloat, kR32G32B32_Sfloat]

  /** Each format table has one entry per id of its family. */
  lemma FormatTablesSized()
    ensures |kMeshRelatedVertexStreamFormats| == kMeshRelatedCount
    ensures |kParticleRelatedVertexStreamFormats| == kParticleRelatedCount
  {
  }

  /** The format a mesh stream is stored in: the table entry at its id. */
  function MeshStreamFormat(s: MeshStream): Format {
    kMeshRelatedVertexStreamFormats[MeshStreamId(s)]
  }

  function ParticleStreamFormat(s: ParticleStream): Format {
    kParticleRelatedVertexStreamFormats[ParticleStreamId(s)]
  }

  /** Number of components of a format (0 for formats not named here). */
  function ComponentCount(f: Format): nat {
    match f
    case kR32_Sfloat => 1
    case kR32G32_Sfloat => 2
    case kR32G32B32_Sfloat => 3
    case kR16G16B16A16_Unorm => 4
    case kR8G8B8A8_Snorm => 4
    case kR8G8B8A8_Uint => 4
    case kR32G32B32A32_Sfloat => 4
    case OtherFormat(_) => 0
  }

  /** Whether a format holds integers rather than (normalised) reals. */
  predicate IsIntegerFormat(f: Format) {
    f == kR8G8B8A8_Uint
  }

  /** Components of the matching field of the unpacked mesh vertex: position
      Vec3, normal RVec3, tangent RVec4, uv Vec2, bone indices UVec4, bone
      weights RVec4. */
  function UnpackedComponentCount(s: MeshStream): nat {
    match s
    case kPosition => 3
    case kNormal => 3
    case kTangent => 4
    case kUv => 2
    case kBoneIds => 4
    case kBoneWeights => 4
  }

  /** The unpacked vertex field holds integers (only the bone indices do). */
  predicate UnpackedIsInteger(s: MeshStream) {
    s == kBoneIds
  }

  /** The mesh format table lists, at each stream's id, a format wide enough
      for that stream's unpacked vertex field and of the same kind (integer or
      real): position in R16G16B16A16_Unorm, normal and tangent and bone
      weights in R8G8B8A8_Snorm, UV in R32G32_Sfloat, bone ids in
      R8G8B8A8_Uint. */
  lemma MeshFormatsFitUnpackedVertex(s: MeshStream)
    ensures UnpackedComponentCount(s) <= ComponentCount(MeshStreamFormat(s))
    ensures IsIntegerFormat(MeshStreamFormat(s)) <==> UnpackedIsInteger(s)
    ensures MeshStreamFormat(kPosition) == kR16G16B16A16_Unorm
    ensures MeshStreamFormat(kNormal) == kR8G8B8A8_Snorm && MeshStreamFormat(kTangent) == kR8G8B8A8_Snorm
    ensures MeshStreamFormat(kUv) == kR32G32_Sfloat
    ensures MeshStreamFormat(kBoneIds) == kR8G8B8A8_Uint && MeshStreamFormat(kBoneWeights) == kR8G8B8A8_Snorm
  {
  }

  /** The particle format table at each stream's id: positions and velocity
      three floats, colour four floats, scale and the two life values one
      float each; none of them integer. */
  lemma ParticleFormatsByStream(p: ParticleStream)
    ensures !IsIntegerFormat(ParticleStreamFormat(p))
    ensures ParticleStreamFormat(kParticlePosition) == kR32G32B32_Sfloat
    ensures ParticleStreamFormat(kParticlePreviousPosition) == kR32G32B32_Sfloat
    ensures ParticleStreamFormat(kParticleScale) == kR32_Sfloat
    ensures ParticleStreamFormat(kParticleColor) == kR32G32B32A32_Sfloat
    ensures ParticleStreamFormat(kParticleLife) == kR32_Sfloat && ParticleStreamFormat(kParticleStartingLife) == kR32_Sfloat
    ensures ParticleStreamFormat(kParticleVelocity) == kR32G32B32_Sfloat
  {
  }
}
