// The batching state machine of ProgressiveIntegrator::Instance::_render_one_camera,
// as functions of the shutter schedule and of what the display and the printer answer.

module Schedule {
  import opened Commands

  /** One entry of a camera's shutter schedule: a time, its weight and its sample count. */
  datatype ShutterSample = ShutterSample(time: real, weight: real, spp: nat)

  /** The display interval after the constructor's clamp: never 0, fits a uint16_t. */
  type DisplayInterval = k: nat | 1 <= k <= 65535 witness 1

  /** Dispatches per commit when no display is open or the display asked to close. */
  const FallbackInterval: nat := 32

  /**
   * What the host is told while one camera renders, indexed by the 0-based number j
   * of the dispatch just enqueued (the value of sample_id before its post-increment):
   * shouldClose(j): the display's should_close() after dispatch j,
   * refreshed(j):   the display's update() result at a commit after dispatch j,
   * printerEmpty(j): the printer's empty() after dispatch j.
   */
  datatype Environment = Environment(
    shouldClose: nat -> bool,
    refreshed: nat -> bool,
    printerEmpty: nat -> bool)

  /** The fixed inputs of one camera's sample loop. */
  datatype LoopConfig = LoopConfig(
    display: bool,
    interval: DisplayInterval,
    spp: nat,
    env: Environment)

  /** A point of the loop: the operations appended so far, sample_id and dispatch_count. */
  datatype Run = Run(ops: seq<Op>, sampleId: nat, batch: nat)

  /** The number of dispatches per commit, chosen afresh after dispatch j. */
  function CommitInterval(cfg: LoopConfig, j: nat): (k: nat)
    ensures 1 <= k <= 65535
    ensures cfg.display && !cfg.env.shouldClose(j) ==> k == cfg.interval
    ensures !cfg.display || cfg.env.shouldClose(j) ==> k == FallbackInterval
  {
    if cfg.display && !cfg.env.shouldClose(j) then cfg.interval else FallbackInterval
  }

  /** What a commit appends after dispatch j, once sample_id has become id. */
  function CommitOps(cfg: LoopConfig, j: nat, id: nat): seq<Op> {
    var p := Fraction(id, cfg.spp);
    (if cfg.display then [DisplayUpdate(id)] else [])
    + [if cfg.display && cfg.env.refreshed(j) then ProgressUpdate(p) else DeferredProgress(p)]
  }

  /** m is a multiple of k, by repeated subtraction (equivalent to m % k == 0). */
  predicate IsMultiple(m: nat, k: nat)
    requires k >= 1
    decreases m
  {
    if m < k then m == 0 else IsMultiple(m - k, k)
  }

  /** One iteration of the inner loop: dispatch, optional retrieval, commit check. */
  function Step(cfg: LoopConfig, s: ShutterSample, sampleId: nat, batch: nat): (r: Run)
    ensures r.sampleId == sampleId + 1
  {
    var dispatch := [Dispatch(sampleId, s.time, s.weight)];
    var retrieve := if cfg.env.printerEmpty(sampleId) then [] else [Retrieve];
    var id := sampleId + 1;
    var commit := IsMultiple(batch + 1, CommitInterval(cfg, sampleId));
    Run(dispatch + retrieve + (if commit then CommitOps(cfg, sampleId, id) else []),
        id, if commit then 0 else batch + 1)
  }

  /** The first n iterations of the inner loop for shutter sample s, started at (sampleId, batch). */
  function Inner(cfg: LoopConfig, s: ShutterSample, n: nat, sampleId: nat, batch: nat): Run
  {
    if n == 0 then Run([], sampleId, batch)
    else
      var r := Inner(cfg, s, n - 1, sampleId, batch);
      var d := Step(cfg, s, r.sampleId, r.batch);
      Run(r.ops + d.ops, d.sampleId, d.batch)
  }

  /** The outer loop over a whole shutter schedule, from sample_id = dispatch_count = 0. */
  function Outer(cfg: LoopConfig, schedule: seq<ShutterSample>): Run
  {
    if schedule == [] then Run([], 0, 0)
    else
      var r := Outer(cfg, schedule[..|schedule| - 1]);
      var s := schedule[|schedule| - 1];
      var q := Inner(cfg, s, s.spp, r.sampleId, r.batch);
      Run(r.ops + [PipelineUpdate(s.time)] + q.ops, q.sampleId, q.batch)
  }

  /** resolution.x * resolution.y computed in 32-bit unsigned arithmetic. */
  function PixelCount(width: nat, height: nat): (n: nat)
    ensures n < 0x1_0000_0000
    ensures width * height < 0x1_0000_0000 ==> n == width * height
  {
    (width * height) % 0x1_0000_0000
  }

  /** Before the loop: sampler reset, printer reset, barrier, kernel compile, barrier. */
  function Setup(cfg: LoopConfig, width: nat, height: nat): seq<Op> {
    [SamplerReset(width, height, PixelCount(width, height), cfg.spp),
     PrinterReset, Synchronize, Compile, Synchronize]
  }

  /** A pass framed by its setup: progress 0 before the loop, then the final barrier and progress done. */
  function Framed(setup: seq<Op>, spp: nat, loop: seq<Op>): seq<Op> {
    setup + [ProgressUpdate(Fraction(0, spp))] + loop + [Synchronize, ProgressDone]
  }

  /** Everything _render_one_camera appends for one camera: setup, progress 0, loop, barrier, done. */
  function CameraOps(cfg: LoopConfig, width: nat, height: nat, schedule: seq<ShutterSample>): seq<Op> {
    Framed(Setup(cfg, width, height), cfg.spp, Outer(cfg, schedule).ops)
  }

  /** The sum of the sample counts of a schedule. */
  function Total(schedule: seq<ShutterSample>): nat {
    if schedule == [] then 0 else Total(schedule[..|schedule| - 1]) + schedule[|schedule| - 1].spp
  }

  /** The dispatches of one shutter sample, numbered consecutively from `from`. */
  function DispatchRun(s: ShutterSample, from: nat): seq<Op> {
    seq(s.spp, i requires 0 <= i < s.spp => Dispatch(from + i, s.time, s.weight))
  }

  /**
   * Reference definition of the update/dispatch pattern: per shutter sample one
   * update with its time, then its spp dispatches with its time and weight,
   * numbered after all dispatches of the samples before it.
   */
  function ExpectedSkeleton(schedule: seq<ShutterSample>): seq<Op> {
    if schedule == [] then []
    else
      var init := schedule[..|schedule| - 1];
      var s := schedule[|schedule| - 1];
      ExpectedSkeleton(init) + [PipelineUpdate(s.time)] + DispatchRun(s, Total(init))
  }

  /** The multiples of k in [1, n], in increasing order: where a fixed interval k commits. */
  function Multiples(k: nat, n: nat): seq<nat>
    requires k >= 1
  {
    if n == 0 then [] else Multiples(k, n - 1) + (if IsMultiple(n, k) then [n] else [])
  }

  /** The commit interval is the same k after every dispatch. */
  ghost predicate FixedInterval(cfg: LoopConfig, k: nat) {
    forall j: nat :: CommitInterval(cfg, j) == k
  }
}
