# Boids host-side model

A Dafny model of the host-side bookkeeping of the wgpu "boids" example
(`src/examples/boids.rs`). The flocking simulation runs on the GPU; what
the host code decides is:

- how the five `SimParams` records are laid out in one uniform buffer and
  selected by dynamic offsets;
- how the two particle buffers are paired by the two compute bind groups;
- which bind group the compute passes use and which buffer the render pass
  reads in each frame, and how `frame_num` advances.

The model is functional. `Frame.EnterFrame` maps the simulation state to the
passes a frame records (compute pass with record 0, compute pass with records
1 to 4, render pass) and to the next state. `Execute.ExecPasses` says what
those recorded commands do. It resolves each command against what the pass
has bound so far and rejects what the graphics API would reject: no pipeline,
nothing bound, a misaligned or out-of-range dynamic offset, a draw past the
end of a vertex buffer. Each dispatch becomes an effect naming the buffer it
reads, the buffer it writes and the parameter record it sees, and the draw
becomes an effect naming the buffer it reads. The host state keeps only
each particle buffer's byte size: the array both buffers are created with
is an output of `Frame.New`, and what the compute passes later write into
them appears only as `Computed` effects, never as buffer contents.
`Execute.FrameEffects` is the intended effect list, written independently of
the commands, and `Execute.FrameRuns` proves the two agree for every frame
number and every valid state.

Modules: `Words` (bytes, little-endian 32-bit words, opaque `f32` bit
patterns, buffer writes), `SimParamsLayout` (the record and its 32-byte
image), `ParamTable` (the five-slot uniform buffer), `Particles` (constants,
particle buffers, bind groups, workgroup count), `Frame` (state, recorded
passes, frame transition), `Execute` (effects of the recorded passes),
`Results` (`Option`/`Result`).

Workgroup count: `work_group_count` is computed at `src/examples/boids.rs`
lines 245-246 as the ceiling of 1500 / 16, which is 94. It is stored in the
struct at line 255, and nothing reads it afterwards. Both dispatch sites,
lines 305 and 319, pass the literal 5. The model records 5 and does not
claim that the dispatches cover every particle. `Execute.FrameGroups` states
only how many groups a frame launches: 25, fewer than the stored 94. It is
also fewer than one invocation per particle, if each group runs
`PARTICLES_PER_GROUP` (16) invocations. That group size comes only from the
comment at line 16: the real workgroup size is declared in the compute
shader (`compute.wgsl`), which is not part of this model. How many particles
one invocation handles also depends on that shader.

## Model

| member | source | states |
|---|---|---|
| Words.WordRoundTrip | src/examples/boids.rs:83 | the four little-endian bytes of a 32-bit field decode back to the field |
| Words.WordsRoundTrip | src/examples/boids.rs:83 | a run of 32-bit fields encoded back to back decodes back to the same fields |
| Words.WriteBytes | src/examples/boids.rs:80-84 | a buffer write replaces exactly the bytes at `[at, at + len)` with the data and keeps every other byte and the buffer length |
| SimParamsLayout.Encode | src/examples/boids.rs:19-30 | the byte image of a `SimParams` is 32 bytes: eight four-byte fields, no padding |
| SimParamsLayout.RoundTrip | src/examples/boids.rs:19-30 | decoding the 32-byte image little-endian, four bytes per field in declaration order, gives back the record |
| SimParamsLayout.EncodeInjective | src/examples/boids.rs:19-30 | two records with the same byte image are the same record |
| SimParamsLayout.OffsetBytes | src/examples/boids.rs:29 | the `offset` tag occupies the last four bytes of the record image |
| ParamTable.Record | src/examples/boids.rs:77-79 | record `i` has offset tag `320 * i` and every other field equal to the defaults |
| ParamTable.RecordsDistinct | src/examples/boids.rs:79 | the five records, and so their byte images, are pairwise different |
| ParamTable.SlotOffset | src/examples/boids.rs:82 | slot offset `256 * i` is a multiple of 256, and both the 32-byte record and the 256-byte binding at it end within the 1280-byte buffer |
| ParamTable.SlotsDisjoint | src/examples/boids.rs:77-85 | the byte ranges written for two different records do not overlap |
| ParamTable.WriteRecordStep | src/examples/boids.rs:80-84 | writing record `k` keeps the images of records `0 .. k-1` and the zero padding intact |
| ParamTable.WriteParamTable | src/examples/boids.rs:71-85 | after construction the 1280-byte buffer holds record `i` at byte `256 * i` for all five `i`, and zeros everywhere else |
| ParamTable.SelectRecord | src/examples/boids.rs:99-110 | binding at a dynamic offset succeeds exactly when the offset is 256-aligned and the 256-byte binding fits in the buffer; a misaligned offset is reported as such |
| ParamTable.SelectSlot | src/examples/boids.rs:304 | in a well-formed table, dynamic offset `256 * i` selects record `i` |
| ParamTable.ParamTableSelects | src/examples/boids.rs:317-320 | a well-formed table selects its own record at every slot offset |
| ParamTable.SelectAcceptsOnlySlots | src/examples/boids.rs:106 | in a well-formed table the accepted dynamic offsets are exactly the five slot offsets |
| ParamTable.BindingHoldsRecord | src/examples/boids.rs:93-106 | the 256-byte binding is at least the layout's minimum binding size, the 32 bytes of one `SimParams` |
| Particles.InitialParticleData | src/examples/boids.rs:199 | the initial particle array holds four words per particle, `4 * NUM_PARTICLES` in all |
| Particles.InitialParticle | src/examples/boids.rs:202-207 | particle `p` of the initial array holds the next four random draws, in the order pos x, pos y, vel x, vel y |
| Particles.InitialDataSize | src/examples/boids.rs:120 | the initial array is `16 * NUM_PARTICLES` bytes: exactly the storage bindings' minimum size, and one 16-byte instance step per particle |
| Particles.CreateParticleBuffers | src/examples/boids.rs:213-223 | two particle buffers are created, both with the same initial contents |
| Particles.ParticleBindGroups | src/examples/boids.rs:227-242 | two bind groups are built; group `i` reads buffer `i` and writes buffer `1 - i`, the other buffer and never its own source |
| Particles.BindGroupsPairBuffers | src/examples/boids.rs:233-237 | each bind group's destination is the other buffer: `1 - i`, never its own source |
| Particles.CeilDiv | src/examples/boids.rs:245-246 | the ceiling quotient covers `n`, and one group fewer would not |
| Particles.CeilDivLeast | src/examples/boids.rs:245-246 | no group count smaller than the ceiling quotient covers `n` |
| Particles.WorkGroupCount | src/examples/boids.rs:245-246 | the stored workgroup count is the least count whose groups of 16 cover the 1500 particles |
| Particles.WorkGroupCountValue | src/examples/boids.rs:14-17 | for 1500 particles and 16 per group the workgroup count is 94 |
| Frame.New | src/examples/boids.rs:43-258 | construction leaves a valid state: the frame counter at 0, both particle buffers created with the same initial array and sized to it, the stored workgroup count equal to the ceiling quotient |
| Frame.Valid | src/examples/boids.rs:248-257 | a valid state has a 1280-byte parameter table and two bind groups over two particle buffers of `16 * NUM_PARTICLES` bytes, each group writing a buffer other than the one it reads |
| Frame.ComputeSource | src/examples/boids.rs:299 | the compute passes of frame `f` use bind group `frame_num % 2`, which reads that buffer and writes the buffer the frame renders |
| Frame.RenderSource | src/examples/boids.rs:332 | the render pass of frame `f` reads buffer `(frame_num + 1) % 2`, never the buffer the compute passes read |
| Frame.ParamDispatches | src/examples/boids.rs:317-320 | the recorded commands alternate: position `2k` selects the record at dynamic offset `256 * (from + k)`, position `2k + 1` dispatches 5 × 1 × 1 workgroups, one pair per record |
| Frame.ComputePassOf | src/examples/boids.rs:298-320 | a compute pass sets the pipeline and the particle bind group `frame_num % 2` once, first, and every later dispatch directly follows a parameter selection |
| Frame.RenderPassOf | src/examples/boids.rs:328-336 | the render pass binds slot 0 to the buffer the compute bind group wrote and slot 1 to the triangle template, then ends with the one draw of 3 vertices × 1500 instances |
| Frame.EnterFrame | src/examples/boids.rs:262-347 | a frame returns the passes `[ComputePassOf(f, 0, 1), ComputePassOf(f, 1, 5), RenderPassOf(f)]` in submission order (their meaning is given by `Execute.FrameRuns`), increases `frame_num` by exactly one and changes no other host-side field (bind groups, parameter table, buffer sizes, template, stored count) |
| Frame.WorkGroupCountUnused | src/examples/boids.rs:305 | the recorded commands of a frame do not depend on the stored workgroup count |
| Frame.Run | src/examples/boids.rs:346 | after `n` frames the counter has grown by `n` and every other host-side field is unchanged; particle contents are not part of the state |
| Frame.RunPreservesValid | src/examples/boids.rs:262-347 | the resources a frame relies on stay valid through any number of frames |
| Frame.SourceParity | src/examples/boids.rs:299 | the compute source alternates from frame to frame and is the same again after two frames; the buffer a frame renders is the next frame's compute source |
| Execute.ExecCompute | src/examples/boids.rs:294-321 | executing a compute pass yields only dispatch effects |
| Execute.ExecRender | src/examples/boids.rs:327-336 | executing a render pass yields only draw effects |
| Execute.ParamDispatchesRun | src/examples/boids.rs:317-320 | selecting records `from .. to-1` in turn and dispatching after each yields one dispatch per record, in order, with that record and 5 workgroups |
| Execute.ComputePassRun | src/examples/boids.rs:309-321 | a compute pass of frame `f` succeeds and dispatches on bind group `f % 2` with its records |
| Execute.RenderPassRun | src/examples/boids.rs:324-337 | the render pass succeeds and draws 3 vertices for each of the 1500 particles from buffer `(f + 1) % 2` |
| Execute.FrameRuns | src/examples/boids.rs:262-347 | from any valid state, the recorded frame executes without error and has exactly the intended effects |
| Execute.FrameEffects | src/examples/boids.rs:294-336 | the intended effect list of frame `f`, written independently of the commands: one dispatch per parameter record, then the draw, six effects in all |
| Execute.FrameEffectsSafe | src/examples/boids.rs:330-333 | in the intended effects the draw reads the buffer every dispatch writes and never the one they read |
| Execute.FrameRendersComputeOutput | src/examples/boids.rs:299-333 | every executed frame renders from the compute destination and never from the compute source |
| Execute.FrameSchedule | src/examples/boids.rs:299-336 | an executed frame is five dispatches of 5 workgroups reading `f % 2` and writing `(f + 1) % 2` at offsets 0, 256, 512, 768, 1024 with the records stored there, then one draw of 3 vertices × 1500 instances from `(f + 1) % 2` |
| Execute.RunFrames | src/examples/boids.rs:262-347 | every frame of a run from a valid state executes as intended, for its own frame number |
| Execute.DispatchEffectsGroups | src/examples/boids.rs:317-320 | dispatching records `from .. to-1` launches `5 * (to - from)` workgroups |
| Execute.FrameGroups | src/examples/boids.rs:245-246 | a frame launches 25 workgroups: fewer than one invocation per particle at 16 per group, and fewer than the stored, unused count of groups that would cover every particle |

## Left out

- The WGSL compute and draw shaders are not part of this model: the flocking rules, toroidal wrap and speed clamp are floating-point GPU code.
- Particles.InitialParticleData: the random initial values (seeded `StdRng`, `Uniform` sampling, the 0.1 velocity scale) are an external crate and f32 arithmetic; the model takes the draws as an abstract function and states only the array's shape and where each draw lands.
- f32 values (the `SimParams` defaults, the vertex template) are kept as opaque IEEE-754 bit patterns; no float arithmetic is modelled.
- The render pass's clear colour (an f64 `wgpu::Color`) and its load and store operations are not modelled: they affect only the pixels, which are not part of this model.
- Particles.WorkGroupCount: the source computes the count in f32 and rounds up with `ceil`; the model uses integer ceiling division, which gives the same 94 for these constants.
- wgpu object creation (shader modules, bind group layouts, pipeline layouts, pipelines, buffers) is not modelled beyond the sizes and pairings it fixes; "a pipeline is set" stands for both pipelines, and the pipeline and layout handles are not part of the state.
- Command encoders, debug groups, `queue.submit`, `get_current_frame_view` and `frame.present` are I/O with the device and surface; a frame is the list of recorded passes and submission order is list order.
- Only some of the graphics API's validation is modelled: bound pipeline and bind groups, dynamic-offset count, alignment and range, workgroup limit per dimension, vertex slots and vertex/instance ranges against buffer sizes.
- GPU-side parallel execution and hazard tracking between passes are left to the driver; the model orders effects as recorded.
- `frame_num` is a `usize` in the source; it is an unbounded `nat` here, so wrap-around is not modelled (only its parity is ever used).
- The compute shader's `SimParams` struct is in `compute.wgsl`, which is not part of this model; it is assumed to declare the same eight four-byte fields in the same order as `#[repr(C)] SimParams`, so that its reading of the record image is `SimParamsLayout.Decode`.
- Byte order: `bytemuck::bytes_of` is modelled as little-endian, the byte order of the targets and of host-shareable shader data.
