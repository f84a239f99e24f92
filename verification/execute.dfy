/**
  What the recorded passes of a frame do once submitted: each command is
  resolved against the state the pass has bound so far, as the graphics
  API validates it, and each dispatch or draw becomes an effect that names
  the buffers it reads and writes and the parameter record it uses.
  Buffer contents stay opaque.
 */
module Execute {
  import opened Results
  import opened SimParamsLayout
  import opened ParamTable
  import opened Particles
  import opened Frame

  /** Largest workgroup count one dispatch may use in each dimension (the default device limit). */
  const MaxWorkgroupsPerDimension: nat := 65535

  /** What a dispatch or a draw does. */
  datatype Effect =
    | Computed(src: nat, dst: nat, paramOffset: nat, params: SimParams, groups: nat)
    | Rendered(instances: VertexSource, vertices: VertexSource, vertexCount: nat, instanceCount: nat)

  /** Why a pass is rejected. */
  datatype Error =
    | NoPipeline
    | NoParticleBindGroup
    | NoParamBindGroup
    | NoSuchBindGroup
    | NoSuchBuffer
    | DynamicOffsetCount
    | ParamBinding(cause: BindError)
    | TooManyWorkgroups
    | NoSuchVertexSlot
    | NoVertexBuffer
    | VertexRangeOutOfBounds
    | InstanceRangeOutOfBounds
    | WrongPassKind

  /** What a compute pass has bound so far. */
  datatype ComputeState = ComputeState(
    pipeline: bool,
    particles: Option<BindGroup>,
    params: Option<(nat, SimParams)>)

  /** What a render pass has bound so far: one optional source per vertex-buffer slot. */
  datatype RenderState = RenderState(pipeline: bool, instanceSource: Option<VertexSource>, vertexSource: Option<VertexSource>)

  const FreshCompute := ComputeState(false, None, None)
  const FreshRender := RenderState(false, None, None)

  /** Byte size of what a vertex source refers to, if it exists. */
  function SourceBytes(b: Boids, s: VertexSource): Option<nat> {
    match s
    case ParticleBuffer(i) => if i < |b.particleBufferSizes| then Some(b.particleBufferSizes[i]) else None
    case TemplateBuffer => Some(ByteSize(b.vertices))
  }

  /** Number of elements in the half-open range `start .. end`. */
  function RangeLength(start: nat, end: nat): nat {
    if start <= end then end - start else 0
  }

  /** Runs the commands of a compute pass from the bound state `st`. */
  function ExecCompute(b: Boids, cmds: seq<Command>, st: ComputeState): (r: Result<seq<Effect>, Error>)
    ensures r.Ok? ==> forall e :: e in r.value ==> e.Computed?
    decreases |cmds|
  {
    if cmds == [] then Ok([])
    else match cmds[0]
      case SetComputePipeline =>
        ExecCompute(b, cmds[1..], st.(pipeline := true))
      case SetParticleBindGroup(i) =>
        if i < |b.particleBindGroups| then ExecCompute(b, cmds[1..], st.(particles := Some(b.particleBindGroups[i])))
        else Err(NoSuchBindGroup)
      case SetParamBindGroup(offsets) =>
        if |offsets| != 1 then Err(DynamicOffsetCount)
        else
          var sel := SelectRecord(b.paramTable, offsets[0]);
          if sel.Err? then Err(ParamBinding(sel.error))
          else ExecCompute(b, cmds[1..], st.(params := Some((offsets[0], sel.value))))
      case DispatchWorkgroups(x, y, z) =>
        if !st.pipeline then Err(NoPipeline)
        else if st.particles.None? then Err(NoParticleBindGroup)
        else if st.params.None? then Err(NoParamBindGroup)
        else if x > MaxWorkgroupsPerDimension || y > MaxWorkgroupsPerDimension || z > MaxWorkgroupsPerDimension then Err(TooManyWorkgroups)
        else
          var g := st.particles.value;
          if g.src >= |b.particleBufferSizes| || g.dst >= |b.particleBufferSizes| then Err(NoSuchBuffer)
          else
            var rest := ExecCompute(b, cmds[1..], st);
            if rest.Err? then rest
            else Ok([Computed(g.src, g.dst, st.params.value.0, st.params.value.1, x * y * z)] + rest.value)
      case _ => Err(WrongPassKind)
  }

  /** Runs the commands of a render pass from the bound state `st`. */
  function ExecRender(b: Boids, cmds: seq<Command>, st: RenderState): (r: Result<seq<Effect>, Error>)
    ensures r.Ok? ==> forall e :: e in r.value ==> e.Rendered?
    decreases |cmds|
  {
    if cmds == [] then Ok([])
    else match cmds[0]
      case SetRenderPipeline =>
        ExecRender(b, cmds[1..], st.(pipeline := true))
      case SetVertexBuffer(slot, s) =>
        if SourceBytes(b, s).None? then Err(NoSuchBuffer)
        else if slot == InstanceSlot then ExecRender(b, cmds[1..], st.(instanceSource := Some(s)))
        else if slot == VertexSlot then ExecRender(b, cmds[1..], st.(vertexSource := Some(s)))
        else Err(NoSuchVertexSlot)
      case Draw(vs, ve, ist, ie) =>
        if !st.pipeline then Err(NoPipeline)
        else if st.instanceSource.None? || st.vertexSource.None? then Err(NoVertexBuffer)
        else
          var instBytes := SourceBytes(b, st.instanceSource.value);
          var vertBytes := SourceBytes(b, st.vertexSource.value);
          if instBytes.None? || vertBytes.None? then Err(NoSuchBuffer)
          else if ve * TemplateStride > vertBytes.value then Err(VertexRangeOutOfBounds)
          else if ie * ParticleStride > instBytes.value then Err(InstanceRangeOutOfBounds)
          else
            var rest := ExecRender(b, cmds[1..], st);
            if rest.Err? then rest
            else Ok([Rendered(st.instanceSource.value, st.vertexSource.value, RangeLength(vs, ve), RangeLength(ist, ie))] + rest.value)
      case _ => Err(WrongPassKind)
  }

  /** Runs one pass from a freshly reset bound state. */
  function ExecPass(b: Boids, pass: Pass): Result<seq<Effect>, Error> {
    match pass
    case ComputePass(cmds) => ExecCompute(b, cmds, FreshCompute)
    case RenderPass(cmds) => ExecRender(b, cmds, FreshRender)
  }

  /** Runs passes in order, each from a freshly reset bound state. */
  function ExecPasses(b: Boids, passes: seq<Pass>): (r: Result<seq<Effect>, Error>)
    decreases |passes|
  {
    if passes == [] then Ok([])
    else
      var first := ExecPass(b, passes[0]);
      if first.Err? then first
      else
        var rest := ExecPasses(b, passes[1..]);
        if rest.Err? then rest else Ok(first.value + rest.value)
  }

  /**
    The effects a frame is meant to have, stated independently of the
    recorded commands: five dispatches reading the frame's compute source
    and writing the other buffer, using the five parameter records in
    order, then one draw of every particle from the buffer just written.
   */
  function FrameEffects(f: nat): (r: seq<Effect>)
    ensures |r| == TableSize + 1
  {
    seq(TableSize, k requires 0 <= k < TableSize =>
        Computed(ComputeSource(f), RenderSource(f), SlotOffset(k), Record(k), DispatchGroups))
    + [Rendered(ParticleBuffer(RenderSource(f)), TemplateBuffer, TemplateVertices, NumParticles)]
  }

  /** Safety of a frame's effects: every dispatch writes the buffer every draw reads, and never reads it. */
  predicate RenderReadsComputeOutput(effects: seq<Effect>) {
    forall i, j :: 0 <= i < |effects| && 0 <= j < |effects| && effects[i].Computed? && effects[j].Rendered? ==>
      && effects[j].instances == ParticleBuffer(effects[i].dst)
      && effects[j].instances != ParticleBuffer(effects[i].src)
  }

  /** Effects of dispatches with records `from .. to-1` reading `g.src` and writing `g.dst`. */
  function DispatchEffects(g: BindGroup, from: nat, to: nat): (r: seq<Effect>)
    requires from <= to <= TableSize
    ensures |r| == to - from
    ensures forall k :: 0 <= k < |r| ==>
      r[k] == Computed(g.src, g.dst, SlotOffset(from + k), Record(from + k), DispatchGroups)
  {
    seq(to - from, k requires 0 <= k < to - from =>
      Computed(g.src, g.dst, SlotOffset(from + k), Record(from + k), DispatchGroups))
  }

  /** The dispatch effects starting at record `from` are its own effect followed by the rest. */
  lemma DispatchEffectsCons(g: BindGroup, from: nat, to: nat)
    requires from < to <= TableSize
    ensures DispatchEffects(g, from, to) ==
      [Computed(g.src, g.dst, SlotOffset(from), Record(from), DispatchGroups)] + DispatchEffects(g, from + 1, to)
  {
  }

  /** Binding the parameter table at an accepted offset makes its record the bound one. */
  lemma ExecSetParam(b: Boids, offset: nat, p: SimParams, rest: seq<Command>, st: ComputeState)
    requires SelectRecord(b.paramTable, offset) == Ok(p)
    ensures ExecCompute(b, [SetParamBindGroup([offset])] + rest, st) == ExecCompute(b, rest, st.(params := Some((offset, p))))
  {
    var cmds := [SetParamBindGroup([offset])] + rest;
    assert cmds[0] == SetParamBindGroup([offset]);
    assert cmds[1..] == rest;
  }

  /** A dispatch with everything bound yields one effect on the bound buffers with the bound record. */
  lemma ExecDispatch(b: Boids, g: BindGroup, offset: nat, p: SimParams, x: nat, rest: seq<Command>, st: ComputeState)
    requires st == ComputeState(true, Some(g), Some((offset, p)))
    requires g.src < |b.particleBufferSizes| && g.dst < |b.particleBufferSizes|
    requires x <= MaxWorkgroupsPerDimension
    requires ExecCompute(b, rest, st).Ok?
    ensures ExecCompute(b, [DispatchWorkgroups(x, 1, 1)] + rest, st) ==
      Ok([Computed(g.src, g.dst, offset, p, x)] + ExecCompute(b, rest, st).value)
  {
    var cmds := [DispatchWorkgroups(x, 1, 1)] + rest;
    assert cmds[0] == DispatchWorkgroups(x, 1, 1);
    assert cmds[1..] == rest;
  }

  /** Dispatches with records `from .. to-1`, once pipeline and particle bind group are bound. */
  lemma {:induction false} ParamDispatchesRun(b: Boids, g: BindGroup, from: nat, to: nat, st: ComputeState)
    requires SelectsRecords(b.paramTable)
    requires from <= to <= TableSize
    requires st.pipeline && st.particles == Some(g)
    requires g.src < |b.particleBufferSizes| && g.dst < |b.particleBufferSizes|
    ensures ExecCompute(b, ParamDispatches(from, to), st) == Ok(DispatchEffects(g, from, to))
    decreases TableSize - from
  {
    if from < to {
      var st' := ComputeState(true, Some(g), Some((SlotOffset(from), Record(from))));
      var rest := ParamDispatches(from + 1, to);
      ParamDispatchesRun(b, g, from + 1, to, st');
      ExecDispatch(b, g, SlotOffset(from), Record(from), DispatchGroups, rest, st');
      ExecSetParam(b, SlotOffset(from), Record(from), [DispatchWorkgroups(DispatchGroups, 1, 1)] + rest, st);
      DispatchEffectsCons(g, from, to);
    }
  }

  /** A compute pass of frame `f` dispatches with its records on the frame's bind group. */
  lemma ComputePassRun(b: Boids, f: nat, from: nat, to: nat)
    requires Valid(b)
    requires from <= to <= TableSize
    ensures ExecPass(b, ComputePassOf(f, from, to)) == Ok(DispatchEffects(PairFor(ComputeSource(f)), from, to))
  {
    var g := PairFor(ComputeSource(f));
    var rest := ParamDispatches(from, to);
    var cmds := [SetComputePipeline, SetParticleBindGroup(ComputeSource(f))] + rest;
    var st := ComputeState(true, Some(g), None);
    ParamTableSelects(b.paramTable);
    ParamDispatchesRun(b, g, from, to, st);
    assert cmds[1..] == [SetParticleBindGroup(ComputeSource(f))] + rest;
    assert cmds[1..][1..] == rest;
    assert b.particleBindGroups[ComputeSource(f)] == g;
    assert ExecCompute(b, cmds, FreshCompute) == ExecCompute(b, cmds[1..], ComputeState(true, None, None));
    assert ExecCompute(b, cmds[1..], ComputeState(true, None, None)) == ExecCompute(b, rest, st);
  }

  /** The render pass of frame `f` draws every particle from the frame's render source. */
  lemma RenderPassRun(b: Boids, f: nat)
    requires Valid(b)
    ensures ExecPass(b, RenderPassOf(f)) ==
      Ok([Rendered(ParticleBuffer(RenderSource(f)), TemplateBuffer, TemplateVertices, NumParticles)])
  {
    var cmds := RenderPassOf(f).commands;
    var s := RenderSource(f);
    var drawn := Rendered(ParticleBuffer(s), TemplateBuffer, TemplateVertices, NumParticles);
    var last := [Draw(0, TemplateVertices, 0, NumParticles)];
    var bound := RenderState(true, Some(ParticleBuffer(s)), Some(TemplateBuffer));
    assert b.particleBufferSizes[s] == MinBindingSize;
    assert last[1..] == [];
    assert SourceBytes(b, TemplateBuffer) == Some(TemplateVertices * TemplateStride);
    assert SourceBytes(b, ParticleBuffer(s)) == Some(NumParticles * ParticleStride);
    var instBytes := SourceBytes(b, bound.instanceSource.value);
    var vertBytes := SourceBytes(b, bound.vertexSource.value);
    assert !(TemplateVertices * TemplateStride > vertBytes.value);
    assert !(NumParticles * ParticleStride > instBytes.value);
    assert ExecRender(b, last[1..], bound) == Ok([]);
    assert RangeLength(0, TemplateVertices) == TemplateVertices;
    assert RangeLength(0, NumParticles) == NumParticles;
    assert [drawn] + [] == [drawn];
    assert ExecRender(b, last, bound) == Ok([drawn]);
    assert cmds[1..][1..][1..] == last;
    assert ExecRender(b, cmds[1..][1..], RenderState(true, Some(ParticleBuffer(s)), None)) == Ok([drawn]);
    assert ExecRender(b, cmds[1..], RenderState(true, None, None)) == Ok([drawn]);
    assert ExecRender(b, cmds, FreshRender) == ExecRender(b, cmds[1..], RenderState(true, None, None));
  }

  /** The recorded frame has the intended effects, for every frame number and every valid state. */
  lemma FrameRuns(b: Boids)
    requires Valid(b)
    ensures ExecPasses(b, EnterFrame(b).0) == Ok(FrameEffects(b.frameNum))
  {
    var f := b.frameNum;
    var g := PairFor(ComputeSource(f));
    var passes := EnterFrame(b).0;
    var render := [Rendered(ParticleBuffer(RenderSource(f)), TemplateBuffer, TemplateVertices, NumParticles)];
    ComputePassRun(b, f, 0, 1);
    ComputePassRun(b, f, 1, TableSize);
    RenderPassRun(b, f);
    assert passes[1..][1..][1..] == [];
    assert passes[1..][1..][0] == RenderPassOf(f);
    assert ExecPasses(b, passes[1..][1..]) == Ok(render + []);
    assert render + [] == render;
    assert passes[1..][0] == ComputePassOf(f, 1, TableSize);
    assert passes[0] == ComputePassOf(f, 0, 1);
    assert ExecPasses(b, passes[1..]) == Ok(DispatchEffects(g, 1, TableSize) + render);
    assert ExecPasses(b, passes) == Ok(DispatchEffects(g, 0, 1) + (DispatchEffects(g, 1, TableSize) + render));
    FrameEffectsSplit(f);
    assert DispatchEffects(g, 0, 1) + (DispatchEffects(g, 1, TableSize) + render)
        == DispatchEffects(g, 0, 1) + DispatchEffects(g, 1, TableSize) + render;
  }

  /** The intended effects split into the two compute passes and the draw. */
  lemma FrameEffectsSplit(f: nat)
    ensures FrameEffects(f) ==
      DispatchEffects(PairFor(ComputeSource(f)), 0, 1) + DispatchEffects(PairFor(ComputeSource(f)), 1, TableSize)
      + [Rendered(ParticleBuffer(RenderSource(f)), TemplateBuffer, TemplateVertices, NumParticles)]
  {
  }

  /** The intended effects are safe: the draw reads the dispatches' destination, never their source. */
  lemma FrameEffectsSafe(f: nat)
    ensures RenderReadsComputeOutput(FrameEffects(f))
  {
    var e := FrameEffects(f);
    forall i, j | 0 <= i < |e| && 0 <= j < |e| && e[i].Computed? && e[j].Rendered?
      ensures e[j].instances == ParticleBuffer(e[i].dst) && e[j].instances != ParticleBuffer(e[i].src)
    {
      assert e[j] == Rendered(ParticleBuffer(RenderSource(f)), TemplateBuffer, TemplateVertices, NumParticles);
      assert e[i] == Computed(ComputeSource(f), RenderSource(f), SlotOffset(i), Record(i), DispatchGroups);
    }
  }

  /** Every recorded frame, from any valid state, renders exactly what its dispatches wrote. */
  lemma FrameRendersComputeOutput(b: Boids)
    requires Valid(b)
    ensures ExecPasses(b, EnterFrame(b).0).Ok?
    ensures RenderReadsComputeOutput(ExecPasses(b, EnterFrame(b).0).value)
  {
    FrameRuns(b);
    FrameEffectsSafe(b.frameNum);
  }

  /**
    The executed frame as the source writes it down: five dispatches of
    five workgroups reading buffer `f % 2` and writing `(f + 1) % 2` with
    dynamic offsets 0, 256, 512, 768 and 1024 and the records stored there,
    then one draw of 3 vertices and 1500 instances from buffer `(f + 1) % 2`.
   */
  lemma FrameSchedule(b: Boids)
    requires Valid(b)
    ensures var r := ExecPasses(b, EnterFrame(b).0);
      && r.Ok?
      && |r.value| == 6
      && (forall k :: 0 <= k < 5 ==>
            r.value[k] == Computed(b.frameNum % 2, (b.frameNum + 1) % 2, 256 * k, Record(k), 5))
      && r.value[5] == Rendered(ParticleBuffer((b.frameNum + 1) % 2), TemplateBuffer, 3, 1500)
  {
    FrameRuns(b);
  }

  /** Every frame of a run from a valid state executes as intended. */
  lemma {:induction false} RunFrames(b: Boids, n: nat)
    requires Valid(b)
    ensures ExecPasses(Run(b, n), EnterFrame(Run(b, n)).0) == Ok(FrameEffects(b.frameNum + n))
  {
    RunPreservesValid(b, n);
    FrameRuns(Run(b, n));
  }

  /** Total workgroups the dispatches among `effects` launch. */
  function GroupsLaunched(effects: seq<Effect>): nat {
    if effects == [] then 0
    else (if effects[0].Computed? then effects[0].groups else 0) + GroupsLaunched(effects[1..])
  }

  lemma {:induction false} GroupsLaunchedAppend(a: seq<Effect>, c: seq<Effect>)
    ensures GroupsLaunched(a + c) == GroupsLaunched(a) + GroupsLaunched(c)
  {
    if a != [] {
      assert (a + c)[0] == a[0];
      assert (a + c)[1..] == a[1..] + c;
      GroupsLaunchedAppend(a[1..], c);
    } else {
      assert a + c == c;
    }
  }

  lemma {:induction false} DispatchEffectsGroups(g: BindGroup, from: nat, to: nat)
    requires from <= to <= TableSize
    ensures GroupsLaunched(DispatchEffects(g, from, to)) == DispatchGroups * (to - from)
    decreases TableSize - from
  {
    if from < to {
      DispatchEffectsCons(g, from, to);
      var head := [Computed(g.src, g.dst, SlotOffset(from), Record(from), DispatchGroups)];
      GroupsLaunchedAppend(head, DispatchEffects(g, from + 1, to));
      assert head[1..] == [];
      DispatchEffectsGroups(g, from + 1, to);
    }
  }

  /**
    A frame launches 25 workgroups in all. At `ParticlesPerGroup` invocations
    per group that is fewer invocations than particles, and fewer groups than
    the stored (and unused) workgroup count, which would be enough for one
    invocation per particle.
   */
  lemma FrameGroups(f: nat)
    ensures GroupsLaunched(FrameEffects(f)) == TableSize * DispatchGroups
    ensures GroupsLaunched(FrameEffects(f)) * ParticlesPerGroup < NumParticles
    ensures GroupsLaunched(FrameEffects(f)) < WorkGroupCount()
  {
    var g := PairFor(ComputeSource(f));
    var render := [Rendered(ParticleBuffer(RenderSource(f)), TemplateBuffer, TemplateVertices, NumParticles)];
    FrameEffectsSplit(f);
    DispatchEffectsGroups(g, 0, 1);
    DispatchEffectsGroups(g, 1, TableSize);
    GroupsLaunchedAppend(DispatchEffects(g, 0, 1), DispatchEffects(g, 1, TableSize));
    GroupsLaunchedAppend(DispatchEffects(g, 0, 1) + DispatchEffects(g, 1, TableSize), render);
    assert render[1..] == [];
  }
}
