/**
  The simulation object and its per-frame transition. A frame is recorded
  as three passes: a compute pass dispatching with parameter record 0, a
  compute pass dispatching with records 1 to 4, and a render pass drawing
  one triangle instance per particle from the buffer the compute passes
  wrote. Then the frame counter advances by one.
 */
module Frame {
  import opened Words
  import opened ParamTable
  import opened Particles

  /** The literal workgroup count passed to every dispatch. */
  const DispatchGroups: nat := 5

  /** The three 2-D triangle vertices shared by every instance (bit patterns of the f32 values). */
  const VertexTemplate: seq<F32> := [
    F32(0xBC23_D70A), F32(0xBCA3_D70A),   // (-0.01, -0.02)
    F32(0x3C23_D70A), F32(0xBCA3_D70A),   // ( 0.01, -0.02)
    F32(0x0000_0000), F32(0x3CA3_D70A)]   // ( 0.00,  0.02)

  /** Bytes per template vertex: two f32 words. */
  const TemplateStride: nat := 2 * WordSize

  /** Vertices per instance. */
  const TemplateVertices: nat := 3

  /** Vertex-buffer slot holding the particles (stepped per instance). */
  const InstanceSlot: nat := 0

  /** Vertex-buffer slot holding the template (stepped per vertex). */
  const VertexSlot: nat := 1

  /** What a vertex-buffer slot can be bound to. */
  datatype VertexSource = ParticleBuffer(index: nat) | TemplateBuffer

  /** A command recorded into a pass. */
  datatype Command =
    | SetComputePipeline
    | SetParticleBindGroup(index: nat)            // bind group 0: particle_bind_groups[index]
    | SetParamBindGroup(dynamicOffsets: seq<nat>) // bind group 1: the parameter table
    | DispatchWorkgroups(x: nat, y: nat, z: nat)
    | SetRenderPipeline
    | SetVertexBuffer(slot: nat, source: VertexSource)
    | Draw(vertexStart: nat, vertexEnd: nat, instanceStart: nat, instanceEnd: nat)

  datatype Pass = ComputePass(commands: seq<Command>) | RenderPass(commands: seq<Command>)

  /** The host-side state of the simulation. */
  datatype Boids = Boids(
    particleBindGroups: seq<BindGroup>,
    paramTable: seq<byte>,
    particleBufferSizes: seq<nat>,
    vertices: seq<F32>,
    workGroupCount: nat,
    frameNum: nat)

  /**
    Construction: the parameter table, the two particle buffers, the two bind
    groups, the stored workgroup count and a frame counter at zero. `draw`
    stands for the seeded random source. `uploads` is what each particle
    buffer is created with; the host keeps only the buffers' sizes, since
    from the first frame on their contents are written by the compute passes.
   */
  method New(draw: nat -> F32) returns (b: Boids, uploads: seq<seq<F32>>)
    ensures Valid(b)
    ensures b.frameNum == 0
    ensures b.workGroupCount == CeilDiv(NumParticles, ParticlesPerGroup)
    ensures |uploads| == BufferCount
    ensures uploads[0] == uploads[1] == InitialParticleData(draw)
    ensures forall i :: 0 <= i < |uploads| ==> b.particleBufferSizes[i] == ByteSize(uploads[i])
  {
    var table := WriteParamTable();
    var init := InitialParticleData(draw);
    InitialDataSize(draw);
    uploads := CreateParticleBuffers(init);
    b := Boids(
      particleBindGroups := ParticleBindGroups(),
      paramTable := table,
      particleBufferSizes := seq(BufferCount, _ => ByteSize(init)),
      vertices := VertexTemplate,
      workGroupCount := WorkGroupCount(),
      frameNum := 0);
  }

  /**
    The resources every frame relies on: the two bind groups pairing the two
    particle buffers, a well-formed parameter table, particle buffers of the
    bound size, the triangle template and the stored workgroup count.
   */
  predicate Valid(b: Boids): (r: bool)
    ensures r ==> |b.paramTable| == BufferSize
    ensures r ==> |b.particleBindGroups| == |b.particleBufferSizes| == BufferCount
    ensures r ==> forall i :: 0 <= i < |b.particleBindGroups| ==>
      b.particleBindGroups[i].src != b.particleBindGroups[i].dst && b.particleBindGroups[i].dst < BufferCount
  {
    && b.particleBindGroups == ParticleBindGroups()
    && IsParamTable(b.paramTable)
    && |b.particleBufferSizes| == BufferCount
    && (forall i :: 0 <= i < |b.particleBufferSizes| ==> b.particleBufferSizes[i] == MinBindingSize)
    && b.vertices == VertexTemplate
    && b.workGroupCount == WorkGroupCount()
  }

  /** Index of the particle buffer the render pass reads in frame `f`: never the one the compute passes read. */
  function RenderSource(f: nat): (r: nat)
    ensures r < BufferCount
    ensures r != f % BufferCount
  {
    (f + 1) % BufferCount
  }

  /**
    Index of the bind group, and so of the buffer, the compute passes read in
    frame `f`. That bind group writes the buffer the frame renders.
   */
  function ComputeSource(f: nat): (r: nat)
    ensures r < BufferCount
    ensures ParticleBindGroups()[r].src == r
    ensures ParticleBindGroups()[r].dst == RenderSource(f)
  {
    f % BufferCount
  }

  /**
    Selecting record `i`, then dispatching, for `i` from `from` up to `to - 1`:
    even positions select the records in order, odd positions dispatch.
   */
  function ParamDispatches(from: nat, to: nat): (r: seq<Command>)
    decreases to - from
    ensures |r| == (if from <= to then 2 * (to - from) else 0)
    ensures forall i :: 0 <= i < |r| && i % 2 == 0 ==> (r[i] == SetParamBindGroup([Alignment * (from + i / 2)]))
    ensures forall i :: 0 <= i < |r| && i % 2 == 1 ==> (r[i] == DispatchWorkgroups(DispatchGroups, 1, 1))
  {
    if from >= to then []
    else [SetParamBindGroup([256 * from]), DispatchWorkgroups(DispatchGroups, 1, 1)] + ParamDispatches(from + 1, to)
  }

  /**
    A compute pass of frame `f` dispatching with records `from .. to-1`. The
    pipeline and the particle bind group are set once, first; every dispatch
    comes right after the selection of its record.
   */
  function ComputePassOf(f: nat, from: nat, to: nat): (r: Pass)
    ensures r.ComputePass?
    ensures |r.commands| >= 2 && r.commands[0] == SetComputePipeline
    ensures r.commands[1] == SetParticleBindGroup(ComputeSource(f))
    ensures forall i :: 2 <= i < |r.commands| ==> !r.commands[i].SetParticleBindGroup? && !r.commands[i].SetComputePipeline?
    ensures forall i :: 2 <= i < |r.commands| && r.commands[i].DispatchWorkgroups? ==> r.commands[i - 1].SetParamBindGroup?
    ensures |r.commands| - 2 == (if from <= to then 2 * (to - from) else 0)
  {
    ComputePass([SetComputePipeline, SetParticleBindGroup(ComputeSource(f))] + ParamDispatches(from, to))
  }

  /**
    The render pass of frame `f`: both vertex slots are bound before the one
    draw, the instance slot to the buffer the compute passes wrote.
   */
  function RenderPassOf(f: nat): (r: Pass)
    ensures r.RenderPass? && |r.commands| == 4
    ensures r.commands[0] == SetRenderPipeline
    ensures forall i :: 0 <= i < |r.commands| && r.commands[i].SetVertexBuffer? && r.commands[i].slot == InstanceSlot ==>
      r.commands[i].source == ParticleBuffer(ParticleBindGroups()[ComputeSource(f)].dst)
    ensures r.commands[2] == SetVertexBuffer(VertexSlot, TemplateBuffer)
    ensures forall i :: 0 <= i < |r.commands| && r.commands[i].Draw? ==> i == |r.commands| - 1
    ensures r.commands[1].SetVertexBuffer? && r.commands[2].SetVertexBuffer?
    ensures {r.commands[1].slot, r.commands[2].slot} == {InstanceSlot, VertexSlot}
    ensures r.commands[3] == Draw(0, TemplateVertices, 0, NumParticles)
  {
    RenderPass([
      SetRenderPipeline,
      SetVertexBuffer(InstanceSlot, ParticleBuffer(RenderSource(f))),
      SetVertexBuffer(VertexSlot, TemplateBuffer),
      Draw(0, TemplateVertices, 0, NumParticles)])
  }

  /** One frame: the recorded passes in submission order, and the next state. */
  function EnterFrame(b: Boids): (r: (seq<Pass>, Boids))
    ensures r.1.frameNum == b.frameNum + 1
    ensures r.1.(frameNum := b.frameNum) == b
  {
    var f := b.frameNum;
    ([ComputePassOf(f, 0, 1), ComputePassOf(f, 1, TableSize), RenderPassOf(f)],
     b.(frameNum := f + 1))
  }

  /** The recorded commands do not depend on the stored workgroup count. */
  lemma WorkGroupCountUnused(b: Boids, w: nat)
    ensures EnterFrame(b.(workGroupCount := w)).0 == EnterFrame(b).0
  {
  }

  /** The state after `n` more frames. */
  function Run(b: Boids, n: nat): (r: Boids)
    ensures r.frameNum == b.frameNum + n
    ensures r.(frameNum := b.frameNum) == b
  {
    if n == 0 then b else EnterFrame(Run(b, n - 1)).1
  }

  /** Frames keep every resource intact. */
  lemma RunPreservesValid(b: Boids, n: nat)
    requires Valid(b)
    ensures Valid(Run(b, n))
  {
    var r := Run(b, n);
    assert r.(frameNum := b.frameNum) == b;
  }

  /** The compute source alternates from frame to frame and returns after two frames. */
  lemma SourceParity(b: Boids, n: nat)
    ensures ComputeSource(Run(b, n + 2).frameNum) == ComputeSource(Run(b, n).frameNum)
    ensures ComputeSource(Run(b, n + 1).frameNum) != ComputeSource(Run(b, n).frameNum)
    ensures RenderSource(Run(b, n).frameNum) == ComputeSource(Run(b, n + 1).frameNum)
  {
  }
}
