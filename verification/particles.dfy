/**
  The particle store: two buffers holding the same number of particles,
  four `f32` words each (position x, y and velocity x, y), and the two
  compute bind groups that pair them as source and destination.
 */
module Particles {
  import opened Words

  /** `NUM_PARTICLES`. */
  const NumParticles: nat := 1500

  /** `PARTICLES_PER_GROUP`: invocations per compute work group. */
  const ParticlesPerGroup: nat := 16

  /** Words per particle: position x, y and velocity x, y. */
  const ParticleWords: nat := 4

  /** Bytes per particle; the instance step of the particle vertex buffer. */
  const ParticleStride: nat := ParticleWords * WordSize

  /** Minimum binding size of each storage binding in the compute layout. */
  const MinBindingSize: nat := NumParticles * 16

  /** Number of particle buffers in the double buffer. */
  const BufferCount: nat := 2

  /**
    The initial particle array. The values come from an external seeded
    random source: `draw(k)` stands for the `k`-th value it contributes
    (already scaled by 0.1 for velocity words); only the shape of the array
    and where each draw lands are modelled.
   */
  function InitialParticleData(draw: nat -> F32): (r: seq<F32>)
    ensures |r| == ParticleWords * NumParticles
  {
    seq(ParticleWords * NumParticles, k requires 0 <= k => draw(k))
  }

  /** Particle `p` of the initial array holds the next four draws, in field order. */
  lemma InitialParticle(draw: nat -> F32, p: nat)
    requires p < NumParticles
    ensures Chunk(InitialParticleData(draw), p) ==
      [draw(ParticleWords * p), draw(ParticleWords * p + 1), draw(ParticleWords * p + 2), draw(ParticleWords * p + 3)]
  {
  }

  /** The four words of particle `p`: position x, y, velocity x, y. */
  function Chunk(data: seq<F32>, p: nat): (r: seq<F32>)
    requires ParticleWords * p + ParticleWords <= |data|
    ensures |r| == ParticleWords
  {
    data[ParticleWords * p .. ParticleWords * p + ParticleWords]
  }

  /** Byte size of a buffer holding `data`. */
  function ByteSize(data: seq<F32>): nat {
    WordSize * |data|
  }

  /** The initial array fills exactly one storage binding and one instance per particle. */
  lemma InitialDataSize(draw: nat -> F32)
    ensures ByteSize(InitialParticleData(draw)) == MinBindingSize
    ensures ByteSize(InitialParticleData(draw)) == ParticleStride * NumParticles
  {
  }

  /** The two particle buffers, both initialised from the same array. */
  function CreateParticleBuffers(init: seq<F32>): (r: seq<seq<F32>>)
    ensures |r| == BufferCount
    ensures forall i :: 0 <= i < |r| ==> r[i] == init
    ensures r[0] == r[1]
  {
    seq(BufferCount, _ => init)
  }

  /** A compute bind group: binding 0 reads buffer `src`, binding 1 writes buffer `dst`. */
  datatype BindGroup = BindGroup(src: nat, dst: nat)

  /** The bind group built for index `i`: its own buffer as source, the other one as destination. */
  function PairFor(i: nat): BindGroup {
    BindGroup(i, (i + 1) % BufferCount)
  }

  /** Both compute bind groups, index `i` reading buffer `i`. */
  function ParticleBindGroups(): (r: seq<BindGroup>)
    ensures |r| == BufferCount
    ensures forall i :: 0 <= i < |r| ==> r[i].src == i && r[i].dst == 1 - i
    ensures forall i :: 0 <= i < |r| ==> r[i].src != r[i].dst && r[i].dst < BufferCount
    ensures forall i :: 0 <= i < |r| ==> r[i] == PairFor(i)
  {
    seq(BufferCount, i requires 0 <= i => PairFor(i))
  }

  /** Every bind group reads one buffer and writes the other, never the same one. */
  lemma BindGroupsPairBuffers(i: nat)
    requires i < BufferCount
    ensures ParticleBindGroups()[i].src == i
    ensures ParticleBindGroups()[i].dst == 1 - i
    ensures ParticleBindGroups()[i].src != ParticleBindGroups()[i].dst
    ensures ParticleBindGroups()[i].dst < BufferCount
  {
  }

  /** Integer ceiling division. */
  function CeilDiv(n: nat, d: nat): (r: nat)
    requires d > 0
    ensures r * d >= n
    ensures r == 0 || (r - 1) * d < n
  {
    (n + d - 1) / d
  }

  /** `CeilDiv` is the least number of groups of `d` that cover `n` items. */
  lemma CeilDivLeast(n: nat, d: nat, k: nat)
    requires d > 0
    requires k * d >= n
    ensures CeilDiv(n, d) <= k
  {
  }

  /** The stored `work_group_count`: enough groups of `ParticlesPerGroup` for every particle. */
  function WorkGroupCount(): (r: nat)
    ensures r * ParticlesPerGroup >= NumParticles
    ensures (r - 1) * ParticlesPerGroup < NumParticles
  {
    CeilDiv(NumParticles, ParticlesPerGroup)
  }

  lemma WorkGroupCountValue()
    ensures WorkGroupCount() == 94
  {
  }
}
