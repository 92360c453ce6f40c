# LuisaRender progressive integrator: command scheduling

This project models how LuisaRender's `ProgressiveIntegrator` schedules work on the
host (`src/base/integrator.cpp`). The GPU is abstracted away. What remains is the
sequence of commands the host pushes onto the command buffer, together with the
host-side actions it takes in between: progress-bar updates, film release and image
save. The model records them in program order as a trace `seq<Op>`. The trace lives in
the field of a `Recorder` object, which the methods append to in place, as the C++ code
does with `command_buffer <<`.

Modules:

- `Commands` (`commands.dfy`): the trace.
  - `Op` holds one constructor per command or host action.
  - The `Recorder` class holds the command buffer.
  - Filters pick parts of a trace: `Skeleton` (updates and dispatches), `DispatchIds`,
    `UpdateTimes`, `ReportIds` (progress values reported) and `Lifecycle` (film
    operations). Each filter comes with its append law.
- `Schedule` (`schedule.dfy`): the sample loop of `_render_one_camera` as functions.
  - `Step` is one iteration of the inner `for`: dispatch, optional retrieval, commit
    check.
  - `Inner` is the `s.spp` iterations of one shutter sample.
  - `Outer` is the loop over the shutter schedule.
  - `CameraOps` is the whole of `_render_one_camera`.
  - The display and the printer are oracles. An `Environment` gives, for each 0-based
    dispatch number `j`, the display's `should_close()`, the result of the display's
    `update()` at a commit, and the printer's `empty()`.
  - The reference definitions (`ExpectedSkeleton`, `Multiples`, `Total`) state what the
    loop should produce independently of how it runs.
- `ScheduleProofs` (`schedule_proofs.dfy`): the loop's properties. These cover dispatch
  numbering, update-before-dispatch order, the commit interval, commit positions under a
  fixed interval, reported progress, retrievals, and the final barrier.
- `Integrator` (`integrator.dfy`):
  - the constructor rules, namely the `display_interval` clamp and the conditional
    light-sampler build;
  - the per-camera lifecycle of `render`;
  - the class `Integrator.Instance`, whose methods are the imperative code. Its loops
    mirror the C++ loops: they mutate `sample_id` and `dispatch_count` and append to the
    recorder. Each method is proved to leave exactly the trace that the matching
    specification function describes.

The progress value `sample_id / spp` is kept as the exact pair `Fraction(sample_id, spp)`.
Shutter times and weights are carried through as opaque `real` values.

## Model

| member | source | states |
|---|---|---|
| Integrator.ClampInterval | src/base/integrator.cpp:134-135 | the stored display interval is 1 when the property is absent or 0, the requested value when it lies in [1, 65535], and 65535 above; the uint16_t cast loses nothing |
| Integrator.MakeNode | src/base/integrator.cpp:132-136 | the node stores exactly `ClampInterval` of the `display_interval` property, so its interval lies in [1, 65535] and no commit interval is ever 0; the display flag is the `display` property |
| Integrator.EveryNodeIsBuilt | src/base/integrator.cpp:132-136 | every node value is one the ProgressiveIntegrator constructor builds (from a request of its own interval), so an Instance over any node is an Instance over a constructed node |
| Integrator.BuildOps | src/base/integrator.cpp:21-26 | the sampler is built exactly once and first, and the light sampler is built exactly once when the pipeline has lighting and not at all otherwise |
| Integrator.Instance.constructor | src/base/integrator.cpp:21-35 | construction appends exactly the sampler builds and keeps the light sampler iff the pipeline has lighting; a display exists iff the node enables it |
| Schedule.CommitInterval | src/base/integrator.cpp:105-108 | dispatches per commit: the display interval exactly when a display exists and is not closing, otherwise 32; always in [1, 65535] |
| Schedule.PixelCount | src/base/integrator.cpp:44 | resolution.x * resolution.y in 32-bit unsigned arithmetic: always below 2^32, and the true product whenever that fits |
| ScheduleProofs.CommitReporting | src/base/integrator.cpp:111-116 | a commit reports sample_id / spp exactly once; it updates the display iff one exists; the report runs at once iff the display refreshed, and is deferred otherwise |
| ScheduleProofs.StepDispatch | src/base/integrator.cpp:99-101 | each iteration first dispatches with the current sample_id, time and weight, and contributes no other update or dispatch |
| ScheduleProofs.StepCommit | src/base/integrator.cpp:105-117 | the counter resets iff the incremented dispatch_count is a multiple of the chosen interval and is incremented otherwise; the iteration reports the post-incremented sample_id iff it commits |
| ScheduleProofs.StepRetrievals | src/base/integrator.cpp:99-117 | within one iteration a retrieval follows the dispatch iff the printer is non-empty |
| ScheduleProofs.InnerCount | src/base/integrator.cpp:99-100 | n inner iterations advance sample_id by exactly n |
| ScheduleProofs.InnerSkeleton | src/base/integrator.cpp:99-101 | the inner loop of a shutter sample dispatches ids sampleId, sampleId + 1, … consecutively, with that sample's time and weight, and pushes no update |
| ScheduleProofs.OuterSkeleton | src/base/integrator.cpp:97-101 | the loop's updates and dispatches are exactly the reference pattern: per shutter sample, its update, then its spp dispatches numbered after all earlier ones |
| ScheduleProofs.ExpectedSkeletonFilters | src/base/integrator.cpp:96-101 | the reference pattern numbers its dispatches 0 .. total-1 and has one update per shutter sample with that sample's time |
| ScheduleProofs.DispatchTotals | src/base/integrator.cpp:96-101 | after the loop sample_id equals the sum of the sample counts; the dispatch ids are 0, 1, … in trace order; the update times are the schedule's times in order |
| ScheduleProofs.TwoShutterSamplesInterleave | src/base/integrator.cpp:97-101 | for two shutter samples of 2 samples each, the pattern is update, dispatch, dispatch, update, dispatch, dispatch, with ids 0..3 |
| ScheduleProofs.InnerReports | src/base/integrator.cpp:109-116 | the values reported by the inner loop strictly increase and lie in (sampleId, sampleId + n] |
| ScheduleProofs.OuterReports | src/base/integrator.cpp:95-119 | over the whole loop the reported values strictly increase and lie in [1, total] |
| ScheduleProofs.MultipleIffMod | src/base/integrator.cpp:109 | the repeated-subtraction test used by the model agrees with `% k == 0` |
| ScheduleProofs.ResidueIsMod | src/base/integrator.cpp:109-110 | the counter value reached under a fixed interval k is the dispatch count modulo k |
| ScheduleProofs.StepFixed | src/base/integrator.cpp:105-110 | under a fixed interval k one iteration keeps dispatch_count at sample_id mod k and commits iff the new sample_id is a multiple of k |
| ScheduleProofs.InnerFixedBatch | src/base/integrator.cpp:109-110 | under a fixed interval k the inner loop keeps dispatch_count at sample_id mod k, and so below k |
| ScheduleProofs.InnerFixed | src/base/integrator.cpp:109-116 | under a fixed interval k the inner loop commits exactly at the multiples of k it passes |
| ScheduleProofs.MultiplesSplit | src/base/integrator.cpp:97-99 | the multiples of k up to hi are those up to lo followed by those in (lo, hi], which is how shutter samples chain their commits |
| ScheduleProofs.OuterFixedResidue | src/base/integrator.cpp:95-110 | under a fixed interval k the counter carried across shutter samples is total mod k |
| ScheduleProofs.OuterFixedBatch | src/base/integrator.cpp:109-110 | under a fixed interval k the loop ends with dispatch_count == total % k |
| ScheduleProofs.OuterFixed | src/base/integrator.cpp:105-116 | under a fixed interval k the commits report exactly the multiples of k in [1, total], in order |
| ScheduleProofs.MultiplesMembers | src/base/integrator.cpp:109 | the commit positions under k are exactly the j in [1, total] with j % k == 0, and there are total / k of them |
| ScheduleProofs.SteadyCommits | src/base/integrator.cpp:105-110 | without a display the commits fall at multiples of 32; with a display that never closes, at multiples of display_interval; without a display, fewer than 32 dispatches give no commit |
| ScheduleProofs.BatchBounded | src/base/integrator.cpp:95-110 | dispatch_count never reaches 32 * display_interval, so the 32-bit counter cannot wrap |
| ScheduleProofs.InnerRetrievals | src/base/integrator.cpp:99-104 | within a shutter sample a retrieval stands right after each dispatch whose printer is non-empty, and only there |
| ScheduleProofs.InnerStartsWithDispatch | src/base/integrator.cpp:99-101 | a non-empty inner loop starts with its first dispatch |
| ScheduleProofs.OuterStartsWithUpdate | src/base/integrator.cpp:97-98 | a non-empty loop trace starts with a pipeline update |
| ScheduleProofs.OuterRetrievals | src/base/integrator.cpp:97-104 | over the whole loop a retrieval follows exactly the dispatches whose printer is non-empty |
| ScheduleProofs.InnerLoopOps | src/base/integrator.cpp:99-117 | the inner loop appends only dispatches, retrievals, display updates and progress reports |
| ScheduleProofs.OuterLoopOps | src/base/integrator.cpp:97-119 | the loop appends only updates, dispatches, retrievals, display updates and progress reports: no barrier and no film operation |
| ScheduleProofs.SetupQuiet | src/base/integrator.cpp:65-89 | the preparation before the loop dispatches nothing, reports nothing and touches no film |
| ScheduleProofs.CameraDispatches | src/base/integrator.cpp:58-121 | one camera's pass dispatches ids 0 .. total-1 in order; setup and the final barrier add none |
| ScheduleProofs.CameraReports | src/base/integrator.cpp:94-116 | one camera's reported progress values (as sample ids over spp) start at 0, strictly increase and never exceed the total number of dispatches |
| ScheduleProofs.CameraRetrievals | src/base/integrator.cpp:58-121 | over one camera's pass a retrieval follows exactly the dispatches whose printer is non-empty |
| ScheduleProofs.FramedBarrier | src/base/integrator.cpp:89-120 | after any dispatch the only barrier is the final synchronize |
| ScheduleProofs.CameraEnd | src/base/integrator.cpp:119-121 | one camera's pass ends with exactly one synchronize followed by progress done, the only barrier after any dispatch; the pass touches no film |
| Integrator.PrologueLifecycle | src/base/integrator.cpp:45-46 | the part of a camera before its pass performs exactly the film prepare |
| Integrator.EpilogueLifecycle | src/base/integrator.cpp:48-54 | the part after the pass downloads resolution.x * resolution.y pixels, releases the film and saves the image, in that order |
| Integrator.CameraLifecycle | src/base/integrator.cpp:42-54 | a camera's film is prepared, downloaded with the pixel count, released and saved, in that order |
| Integrator.RenderLifecycle | src/base/integrator.cpp:41-55 | over render() the film operations come camera by camera in index order, four per camera in lifecycle order, never interleaved |
| Integrator.CameraBlockShape | src/base/integrator.cpp:45-54 | a camera's block starts with prepare, then the display reset if there is a display; it ends with the idle marker if there is a display, then download, synchronize, release, save |
| Integrator.CameraDispatchIds | src/base/integrator.cpp:41-56 | every camera restarts sample ids: its block dispatches ids 0 .. total-1 of its own schedule |
| Commands.Recorder.Push | src/base/integrator.cpp:99-104 | `command_buffer << c`: the command is appended at the end and nothing already recorded changes |
| Schedule.CommitOps | src/base/integrator.cpp:110-116 | definition of a commit's operations: the display update when there is a display, then progress `sample_id / spp` reported at once if the display refreshed, deferred otherwise; properties in `ScheduleProofs.CommitReporting` |
| Schedule.Step | src/base/integrator.cpp:99-117 | definition of one inner iteration: dispatch with the current sample_id, retrieval iff the printer is non-empty, increment of dispatch_count and the commit check against `CommitInterval`; its contract states the post-increment of sample_id; properties in `ScheduleProofs.StepDispatch`, `StepCommit`, `StepRetrievals` |
| Schedule.Inner | src/base/integrator.cpp:99-118 | definition of the inner `for`: n iterations of `Step` in order, counters threaded through; properties in `ScheduleProofs.InnerCount`, `InnerSkeleton`, `InnerReports`, `InnerRetrievals` |
| Schedule.Outer | src/base/integrator.cpp:95-119 | definition of the outer loop from zero counters: per shutter sample its pipeline update, then its `Inner` run; compared with `ExpectedSkeleton` by `ScheduleProofs.OuterSkeleton` and with `Multiples` by `ScheduleProofs.OuterFixed` |
| Schedule.Setup | src/base/integrator.cpp:65-89 | definition of the preparation: sampler reset with the 32-bit pixel count and spp, printer reset, barrier, compile, barrier; properties in `ScheduleProofs.SetupQuiet` |
| Schedule.CameraOps | src/base/integrator.cpp:58-121 | definition of `_render_one_camera`'s trace: setup, progress 0, the loop, final barrier, progress done; properties in `ScheduleProofs.CameraDispatches`, `CameraReports`, `CameraRetrievals`, `CameraEnd` |
| Integrator.Prologue | src/base/integrator.cpp:45-46 | definition of what precedes a camera's pass: film prepare, then the display reset when there is a display; property in `Integrator.PrologueLifecycle` |
| Integrator.Epilogue | src/base/integrator.cpp:48-54 | definition of what follows the pass: idle marker when there is a display, download of the 32-bit pixel count, barrier, release, save; property in `Integrator.EpilogueLifecycle` |
| Integrator.CameraBlock | src/base/integrator.cpp:42-54 | definition of one camera's iteration of render(): prologue, `CameraOps`, epilogue; properties in `Integrator.CameraLifecycle`, `CameraBlockShape`, `CameraDispatchIds` |
| Integrator.RenderOps | src/base/integrator.cpp:41-55 | definition of render(): the camera blocks in index order, camera i under its own display and printer answers; compared with `ExpectedLifecycle` by `Integrator.RenderLifecycle` |
| Integrator.Instance.Commit | src/base/integrator.cpp:110-116 | appends exactly the commit's operations: the display update if there is a display, then the immediate or deferred progress report |
| Integrator.Instance.SampleOnce | src/base/integrator.cpp:99-117 | one iteration of the inner loop appends exactly `Step`'s operations and returns its sample_id and dispatch_count |
| Integrator.Instance.SampleShutter | src/base/integrator.cpp:99-118 | the inner `for` appends exactly `Inner`'s operations and returns its counters |
| Integrator.Instance.SampleSchedule | src/base/integrator.cpp:95-119 | the nested loops, starting from zero counters, append exactly `Outer`'s operations and return its counters |
| Integrator.Instance.Prepare | src/base/integrator.cpp:65-89 | appends the sampler reset, the printer reset, a barrier, the compile and a barrier |
| Integrator.Instance.RenderOneCamera | src/base/integrator.cpp:58-125 | `_render_one_camera` appends exactly `CameraOps`: setup, progress 0, the loop, the final barrier, progress done |
| Integrator.Instance.RenderCamera | src/base/integrator.cpp:42-54 | one camera's iteration of render() appends exactly its `CameraBlock` |
| Integrator.Instance.Render | src/base/integrator.cpp:39-56 | render() appends the camera blocks of all cameras in index order and nothing else |

## Left out

- Kernel body, `Li`, film accumulation and shader compilation (lines 77-85). They are device code and a foreign compiler. Compilation is the single marker `Compile`, which always succeeds.
- `ProgressiveIntegrator::Instance::Li` (lines 127-130) always raises an error. It is called only from the kernel body (line 80), which is left out, and a concrete integrator must override it; it has no member.
- Scene loading of the sampler and light sampler (lines 14-19), clocks, and `LUISA_INFO` logging. They are plumbing with no effect on the command order.
- Internals of the display, the progress bar and `save_image`. The display's `should_close()` and `update()` and the printer's `empty()` are oracle inputs (`Schedule.Environment`), one per camera (`envs` in `Render`). Progress-bar calls and the save are trace entries.
- The idle-drain loop `while (_display && _display->idle(...)) {}` (line 48) depends on an external widget for termination. It is the single marker `DisplayIdle`.
- Asynchronous execution of the stream and of deferred callbacks. Only the order of enqueueing is modelled, and a deferred progress report is the marker `DeferredProgress`.
- Floating point: progress is the exact pair `(sample_id, spp)`, and times and weights are opaque reals.
- The pixel buffer's contents and the `Download` data. Only its size, `resolution.x * resolution.y` in 32-bit arithmetic, is kept.
- Integrator.Instance.SampleOnce: sample_id is an unbounded `nat`, so the model does not capture the 32-bit wrap of `auto sample_id = 0u` after 2^32 dispatches.
- Integrator.Instance.SampleSchedule: no validation of the shutter schedule or of spp. The code performs none, so empty schedules, zero sample counts and spp = 0 pass through as they do in the source.
- Integrator.Instance.constructor: takes any `ProgressiveNode`, as the C++ constructor takes any `ProgressiveIntegrator` node; `Integrator.EveryNodeIsBuilt` shows each such node is one `MakeNode` builds.
- Integrator.MakeNode: `property_bool_or_default("display")` reads its default from the scene description, which is not part of this model; the flag is an input.
