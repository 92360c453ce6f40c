// ProgressiveIntegrator and its Instance: the constructor's clamp of display_interval,
// the conditional light-sampler build, the per-camera render lifecycle and the sample
// loop of _render_one_camera, all recorded on the instrumented command buffer.

module Integrator {
  import opened Commands
  import opened Schedule
  import opened ScheduleProofs

  datatype Option<T> = None | Some(value: T)

  /**
   * The display_interval property as ProgressiveIntegrator's constructor stores it:
   * the requested value (default 1 when absent) clamped into [1, 65535] and then
   * cast to uint16_t, a cast that loses nothing after the clamp.
   */
  function ClampInterval(requested: Option<nat>): (k: DisplayInterval)
    ensures requested.None? ==> k == 1
    ensures requested.Some? && 1 <= requested.value <= 65535 ==> k == requested.value
    ensures requested.Some? && requested.value == 0 ==> k == 1
    ensures requested.Some? && requested.value > 65535 ==> k == 65535
  {
    var v := if requested.None? then 1 else requested.value;
    var clamped := if v < 1 then 1 else if v > 65535 then 65535 else v;
    clamped % 0x1_0000
  }

  /** The ProgressiveIntegrator scene node: its clamped display interval and whether a display is wanted. */
  datatype ProgressiveNode = ProgressiveNode(displayInterval: DisplayInterval, displayEnabled: bool)

  function MakeNode(intervalProperty: Option<nat>, displayProperty: bool): (node: ProgressiveNode)
    ensures node.displayEnabled == displayProperty
    ensures node.displayInterval == ClampInterval(intervalProperty)
    ensures 1 <= node.displayInterval <= 65535
  {
    ProgressiveNode(ClampInterval(intervalProperty), displayProperty)
  }

  /**
   * Every ProgressiveNode value is one the constructor can build: the node that
   * requested its own interval. So an Instance built over any node is built over
   * a node coming out of ProgressiveIntegrator's constructor.
   */
  lemma EveryNodeIsBuilt(node: ProgressiveNode)
    ensures MakeNode(Some(node.displayInterval), node.displayEnabled) == node
  {
  }

  /** A camera of the pipeline: film resolution, samples per pixel, output file and shutter schedule. */
  datatype Camera = Camera(width: nat, height: nat, spp: nat, file: string, shutter: seq<ShutterSample>)

  datatype Pipeline = Pipeline(cameras: seq<Camera>, hasLighting: bool)

  /** What Integrator::Instance's constructor enqueues: the sampler, then the light sampler iff the scene has lighting. */
  function BuildOps(hasLighting: bool): (ops: seq<Op>)
    ensures |ops| == if hasLighting then 2 else 1
    ensures |ops| >= 1 && ops[0] == SamplerBuild
    ensures LightSamplerBuild in ops <==> hasLighting
    ensures forall op :: op in ops ==> op == SamplerBuild || op == LightSamplerBuild
  {
    [SamplerBuild] + if hasLighting then [LightSamplerBuild] else []
  }

  /** What render() enqueues for camera index before its sample loop: film prepare, display reset. */
  function Prologue(display: bool, index: nat): seq<Op> {
    [FilmPrepare(index)] + (if display then [DisplayReset(index)] else [])
  }

  /** What render() enqueues for camera index after its sample loop: idle drain, download, barrier, release, save. */
  function Epilogue(display: bool, index: nat, camera: Camera): seq<Op> {
    var pixels := PixelCount(camera.width, camera.height);
    (if display then [DisplayIdle] else [])
    + [Download(index, pixels), Synchronize, FilmRelease(index),
       SaveImage(camera.file, camera.width, camera.height, pixels)]
  }

  /** One camera's block of render(): prologue, the pass of _render_one_camera, epilogue. */
  function CameraBlock(display: bool, interval: DisplayInterval, index: nat, camera: Camera, env: Environment): seq<Op> {
    Prologue(display, index)
    + CameraOps(LoopConfig(display, interval, camera.spp, env), camera.width, camera.height, camera.shutter)
    + Epilogue(display, index, camera)
  }

  /** render() over the given cameras, camera i rendered under envs(i). */
  function RenderOps(display: bool, interval: DisplayInterval, cameras: seq<Camera>, envs: nat -> Environment): seq<Op> {
    if cameras == [] then []
    else
      var last := |cameras| - 1;
      RenderOps(display, interval, cameras[..last], envs)
      + CameraBlock(display, interval, last, cameras[last], envs(last))
  }

  /** The film lifecycle each camera must go through, cameras in index order. */
  function ExpectedLifecycle(cameras: seq<Camera>): seq<Op> {
    if cameras == [] then []
    else
      var last := |cameras| - 1;
      var c := cameras[last];
      var pixels := PixelCount(c.width, c.height);
      ExpectedLifecycle(cameras[..last])
      + [FilmPrepare(last), Download(last, pixels), FilmRelease(last), SaveImage(c.file, c.width, c.height, pixels)]
  }

  /** One more shutter sample: its update, then its inner loop from where the outer loop stands. */
  lemma OuterExtend(cfg: LoopConfig, schedule: seq<ShutterSample>, si: nat)
    requires si < |schedule|
    ensures var r := Outer(cfg, schedule[..si]);
      var q := Inner(cfg, schedule[si], schedule[si].spp, r.sampleId, r.batch);
      Outer(cfg, schedule[..si + 1]) == Run(r.ops + [PipelineUpdate(schedule[si].time)] + q.ops, q.sampleId, q.batch)
  {
    assert schedule[..si + 1][..si] == schedule[..si];
  }

  /** One more iteration of the inner loop: its step follows the steps before it. */
  lemma InnerNext(cfg: LoopConfig, s: ShutterSample, i: nat, sampleId: nat, batch: nat)
    ensures var r := Inner(cfg, s, i, sampleId, batch);
      var d := Step(cfg, s, r.sampleId, r.batch);
      Inner(cfg, s, i + 1, sampleId, batch) == Run(r.ops + d.ops, d.sampleId, d.batch)
  {
  }

  /** Regrouping helpers for traces built by appending pieces one after the other. */
  lemma Sandwich(o: seq<Op>, p: seq<Op>, c: seq<Op>, e: seq<Op>)
    ensures (o + p) + c + e == o + (p + c + e)
  {
  }

  lemma FramedAppend(o: seq<Op>, setup: seq<Op>, spp: nat, loop: seq<Op>)
    ensures o + setup + [ProgressUpdate(Fraction(0, spp))] + loop + [Synchronize] + [ProgressDone] == o + Framed(setup, spp, loop)
  {
  }

  lemma AppendAssoc(a: seq<Op>, b: seq<Op>, c: seq<Op>)
    ensures (a + b) + c == a + (b + c)
  {
  }

  /** One more camera: its block follows the blocks of the cameras before it. */
  lemma RenderOpsExtend(display: bool, interval: DisplayInterval, cameras: seq<Camera>, i: nat, envs: nat -> Environment)
    requires i < |cameras|
    ensures RenderOps(display, interval, cameras[..i + 1], envs)
            == RenderOps(display, interval, cameras[..i], envs) + CameraBlock(display, interval, i, cameras[i], envs(i))
  {
    assert cameras[..i + 1][..i] == cameras[..i];
  }

  // ---------------------------------------------------------------------------
  // Properties of render()
  // ---------------------------------------------------------------------------

  lemma PrologueLifecycle(display: bool, index: nat)
    ensures Lifecycle(Prologue(display, index)) == [FilmPrepare(index)]
  {
    LifecycleAppend([FilmPrepare(index)], if display then [DisplayReset(index)] else []);
  }

  lemma {:induction false} EpilogueLifecycle(display: bool, index: nat, camera: Camera)
    ensures var pixels := PixelCount(camera.width, camera.height);
      Lifecycle(Epilogue(display, index, camera))
      == [Download(index, pixels), FilmRelease(index), SaveImage(camera.file, camera.width, camera.height, pixels)]
  {
    var pixels := PixelCount(camera.width, camera.height);
    var save := SaveImage(camera.file, camera.width, camera.height, pixels);
    var tail := [Download(index, pixels), Synchronize, FilmRelease(index), save];
    var idle := if display then [DisplayIdle] else [];
    LifecycleAppend(idle, tail);
    assert Lifecycle(idle) == [];
    assert tail[1..][1..][1..] == [save];
    assert Lifecycle([save]) == [save];
    assert Lifecycle(tail[1..][1..]) == [FilmRelease(index), save];
    assert Lifecycle(tail[1..]) == [FilmRelease(index), save];
  }

  /** A middle part without film operations contributes nothing to the lifecycle. */
  lemma LifecycleAround(pro: seq<Op>, pass: seq<Op>, epi: seq<Op>)
    requires Lifecycle(pass) == []
    ensures Lifecycle(pro + pass + epi) == Lifecycle(pro) + Lifecycle(epi)
  {
    LifecycleAppend(pro + pass, epi);
    LifecycleAppend(pro, pass);
  }

  /** The lifecycle of one camera: its film is prepared, downloaded with the pixel count, released, saved. */
  lemma CameraLifecycle(display: bool, interval: DisplayInterval, index: nat, camera: Camera, env: Environment)
    ensures var pixels := PixelCount(camera.width, camera.height);
      Lifecycle(CameraBlock(display, interval, index, camera, env))
      == [FilmPrepare(index), Download(index, pixels), FilmRelease(index),
          SaveImage(camera.file, camera.width, camera.height, pixels)]
  {
    var cfg := LoopConfig(display, interval, camera.spp, env);
    CameraEnd(cfg, camera.width, camera.height, camera.shutter);
    LifecycleAround(Prologue(display, index), CameraOps(cfg, camera.width, camera.height, camera.shutter),
                    Epilogue(display, index, camera));
    PrologueLifecycle(display, index);
    EpilogueLifecycle(display, index, camera);
  }

  /**
   * Per-camera order over the whole of render(): the film operations come camera by
   * camera in index order, each camera's four in lifecycle order, none interleaved.
   */
  lemma {:induction false} RenderLifecycle(display: bool, interval: DisplayInterval, cameras: seq<Camera>, envs: nat -> Environment)
    ensures Lifecycle(RenderOps(display, interval, cameras, envs)) == ExpectedLifecycle(cameras)
  {
    if cameras != [] {
      var last := |cameras| - 1;
      RenderLifecycle(display, interval, cameras[..last], envs);
      LifecycleAppend(RenderOps(display, interval, cameras[..last], envs),
                      CameraBlock(display, interval, last, cameras[last], envs(last)));
      CameraLifecycle(display, interval, last, cameras[last], envs(last));
    }
  }

  /**
   * The shape of one camera's block: prepare first, the display reset right after it when
   * a display exists, and at the end the download, the barrier that completes it, the
   * release and the save, in that order.
   */
  lemma CameraBlockShape(display: bool, interval: DisplayInterval, index: nat, camera: Camera, env: Environment)
    ensures var b := CameraBlock(display, interval, index, camera, env);
      var pixels := PixelCount(camera.width, camera.height);
      && |b| >= 6
      && b[0] == FilmPrepare(index)
      && (display ==> b[1] == DisplayReset(index) && b[|b| - 5] == DisplayIdle)
      && b[|b| - 4..] == [Download(index, pixels), Synchronize, FilmRelease(index),
                          SaveImage(camera.file, camera.width, camera.height, pixels)]
  {
    var cfg := LoopConfig(display, interval, camera.spp, env);
    var pro := Prologue(display, index);
    var pass := CameraOps(cfg, camera.width, camera.height, camera.shutter);
    var epi := Epilogue(display, index, camera);
    var b := pro + pass + epi;
    assert |pass| >= 2 by {
      CameraEnd(cfg, camera.width, camera.height, camera.shutter);
    }
    assert b[0] == pro[0];
    assert display ==> b[1] == pro[1];
    assert b[|b| - 4..] == epi[|epi| - 4..];
    assert display ==> b[|b| - 5] == epi[0];
  }

  /** The prologue and the epilogue around a camera's pass dispatch nothing. */
  lemma FrameDispatchesNothing(display: bool, index: nat, camera: Camera)
    ensures DispatchIds(Prologue(display, index)) == []
    ensures DispatchIds(Epilogue(display, index, camera)) == []
  {
    NothingKept(Prologue(display, index));
    NothingKept(Epilogue(display, index, camera));
  }

  lemma DispatchesAround(pro: seq<Op>, pass: seq<Op>, epi: seq<Op>)
    requires DispatchIds(pro) == [] && DispatchIds(epi) == []
    ensures DispatchIds(pro + pass + epi) == DispatchIds(pass)
  {
    DispatchIdsAppend(pro, pass);
    DispatchIdsAppend(pro + pass, epi);
  }

  /** Every camera restarts sample ids: its block dispatches ids 0 .. total-1 of its own schedule, in order. */
  lemma CameraDispatchIds(display: bool, interval: DisplayInterval, index: nat, camera: Camera, env: Environment)
    ensures DispatchIds(CameraBlock(display, interval, index, camera, env))
            == seq(Total(camera.shutter), i requires 0 <= i => i)
  {
    var cfg := LoopConfig(display, interval, camera.spp, env);
    CameraDispatches(cfg, camera.width, camera.height, camera.shutter);
    FrameDispatchesNothing(display, index, camera);
    DispatchesAround(Prologue(display, index), CameraOps(cfg, camera.width, camera.height, camera.shutter),
                     Epilogue(display, index, camera));
  }

  /** ProgressiveIntegrator::Instance over one pipeline. */
  class Instance {
    const pipeline: Pipeline
    const node: ProgressiveNode
    const hasLightSampler: bool
    const display: bool

    /** Builds the samplers on the command buffer and opens the display iff the node enables it. */
    constructor (pipeline: Pipeline, node: ProgressiveNode, rec: Recorder)
      modifies rec
      ensures this.pipeline == pipeline && this.node == node
      ensures hasLightSampler == pipeline.hasLighting
      ensures display == node.displayEnabled
      ensures rec.ops == old(rec.ops) + BuildOps(pipeline.hasLighting)
    {
      this.pipeline := pipeline;
      this.node := node;
      hasLightSampler := pipeline.hasLighting;
      display := node.displayEnabled;
      new;
      rec.Push(SamplerBuild);
      if pipeline.hasLighting {
        rec.Push(LightSamplerBuild);
      }
    }

    /** The loop configuration of this instance for a camera of spp samples per pixel. */
    function Config(spp: nat, env: Environment): LoopConfig {
      LoopConfig(display, node.displayInterval, spp, env)
    }

    /** A commit after dispatch j, once sample_id has become id: display update, then progress now or deferred. */
    method Commit(rec: Recorder, cfg: LoopConfig, j: nat, id: nat)
      requires cfg.display == display
      modifies rec
      ensures rec.ops == old(rec.ops) + CommitOps(cfg, j, id)
    {
      var p := Fraction(id, cfg.spp);
      if display {
        rec.Push(DisplayUpdate(id));
      }
      if display && cfg.env.refreshed(j) {
        rec.Push(ProgressUpdate(p));
      } else {
        rec.Push(DeferredProgress(p));
      }
    }

    /** One iteration of the inner sample loop: dispatch, retrieve, commit check. */
    method SampleOnce(rec: Recorder, cfg: LoopConfig, s: ShutterSample, sampleId: nat, dispatchCount: nat)
        returns (nextId: nat, nextCount: nat)
      requires cfg.display == display && cfg.interval == node.displayInterval
      modifies rec
      ensures rec.ops == old(rec.ops) + Step(cfg, s, sampleId, dispatchCount).ops
      ensures nextId == Step(cfg, s, sampleId, dispatchCount).sampleId
      ensures nextCount == Step(cfg, s, sampleId, dispatchCount).batch
    {
      var j := sampleId;
      rec.Push(Dispatch(j, s.time, s.weight));
      nextId := sampleId + 1;
      if !cfg.env.printerEmpty(j) {
        rec.Push(Retrieve);
      }
      ghost var issued := [Dispatch(j, s.time, s.weight)] + (if cfg.env.printerEmpty(j) then [] else [Retrieve]);
      assert rec.ops == old(rec.ops) + issued;
      var perCommit: nat := if display && !cfg.env.shouldClose(j) then node.displayInterval else FallbackInterval;
      assert perCommit == CommitInterval(cfg, j);
      nextCount := dispatchCount + 1;
      MultipleIffMod(nextCount, perCommit);
      if nextCount % perCommit == 0 {
        nextCount := 0;
        Commit(rec, cfg, j, nextId);
        AppendAssoc(old(rec.ops), issued, CommitOps(cfg, j, nextId));
      }
    }

    /** The inner loop of _render_one_camera over the s.spp samples of shutter sample s. */
    method SampleShutter(rec: Recorder, cfg: LoopConfig, s: ShutterSample, sampleId: nat, dispatchCount: nat)
        returns (nextId: nat, nextCount: nat)
      requires cfg.display == display && cfg.interval == node.displayInterval
      modifies rec
      ensures rec.ops == old(rec.ops) + Inner(cfg, s, s.spp, sampleId, dispatchCount).ops
      ensures nextId == Inner(cfg, s, s.spp, sampleId, dispatchCount).sampleId
      ensures nextCount == Inner(cfg, s, s.spp, sampleId, dispatchCount).batch
    {
      nextId, nextCount := sampleId, dispatchCount;
      var i := 0;
      ghost var done := Inner(cfg, s, 0, sampleId, dispatchCount);
      while i < s.spp
        invariant 0 <= i <= s.spp
        invariant done == Inner(cfg, s, i, sampleId, dispatchCount)
        invariant rec.ops == old(rec.ops) + done.ops
        invariant nextId == done.sampleId && nextCount == done.batch
      {
        ghost var step := Step(cfg, s, nextId, nextCount);
        InnerNext(cfg, s, i, sampleId, dispatchCount);
        nextId, nextCount := SampleOnce(rec, cfg, s, nextId, nextCount);
        AppendAssoc(old(rec.ops), done.ops, step.ops);
        done := Run(done.ops + step.ops, step.sampleId, step.batch);
        i := i + 1;
      }
    }

    /** The outer loop of _render_one_camera: per shutter sample, the pipeline update, then its samples. */
    method SampleSchedule(rec: Recorder, cfg: LoopConfig, schedule: seq<ShutterSample>)
        returns (sampleId: nat, dispatchCount: nat)
      requires cfg.display == display && cfg.interval == node.displayInterval
      modifies rec
      ensures rec.ops == old(rec.ops) + Outer(cfg, schedule).ops
      ensures sampleId == Outer(cfg, schedule).sampleId
      ensures dispatchCount == Outer(cfg, schedule).batch
    {
      dispatchCount, sampleId := 0, 0;
      var si := 0;
      ghost var done := Outer(cfg, schedule[..0]);
      while si < |schedule|
        invariant 0 <= si <= |schedule|
        invariant done == Outer(cfg, schedule[..si])
        invariant rec.ops == old(rec.ops) + done.ops
        invariant sampleId == done.sampleId && dispatchCount == done.batch
      {
        var s := schedule[si];
        OuterExtend(cfg, schedule, si);
        rec.Push(PipelineUpdate(s.time));
        ghost var inner := Inner(cfg, s, s.spp, sampleId, dispatchCount);
        sampleId, dispatchCount := SampleShutter(rec, cfg, s, sampleId, dispatchCount);
        AppendAssoc(old(rec.ops), done.ops + [PipelineUpdate(s.time)], inner.ops);
        AppendAssoc(old(rec.ops), done.ops, [PipelineUpdate(s.time)]);
        done := Run(done.ops + [PipelineUpdate(s.time)] + inner.ops, inner.sampleId, inner.batch);
        si := si + 1;
      }
      assert schedule[..si] == schedule;
    }

    /** The preparation before the loop of _render_one_camera: resets, barrier, compile, barrier. */
    method Prepare(rec: Recorder, cfg: LoopConfig, camera: Camera)
      modifies rec
      ensures rec.ops == old(rec.ops) + Setup(cfg, camera.width, camera.height)
    {
      var pixels := PixelCount(camera.width, camera.height);
      rec.Push(SamplerReset(camera.width, camera.height, pixels, cfg.spp));
      rec.Push(PrinterReset);
      rec.Push(Synchronize);
      rec.Push(Compile);
      rec.Push(Synchronize);
    }

    /** _render_one_camera: setup, progress 0, the batched sample loop, the final barrier, progress done. */
    method RenderOneCamera(rec: Recorder, camera: Camera, env: Environment)
      modifies rec
      ensures rec.ops == old(rec.ops) + CameraOps(Config(camera.spp, env), camera.width, camera.height, camera.shutter)
    {
      var cfg := Config(camera.spp, env);
      Prepare(rec, cfg, camera);
      ghost var setup := Setup(cfg, camera.width, camera.height);
      rec.Push(ProgressUpdate(Fraction(0, camera.spp)));
      ghost var loop := Outer(cfg, camera.shutter).ops;
      var sampleId, dispatchCount := SampleSchedule(rec, cfg, camera.shutter);
      rec.Push(Synchronize);
      rec.Push(ProgressDone);
      FramedAppend(old(rec.ops), setup, camera.spp, loop);
    }

    /** One camera's block of render(). */
    method RenderCamera(rec: Recorder, i: nat, camera: Camera, env: Environment)
      modifies rec
      ensures rec.ops == old(rec.ops) + CameraBlock(display, node.displayInterval, i, camera, env)
    {
      var pixels := PixelCount(camera.width, camera.height);
      rec.Push(FilmPrepare(i));
      if display {
        rec.Push(DisplayReset(i));
      }
      ghost var head := rec.ops;
      assert head == old(rec.ops) + Prologue(display, i);
      RenderOneCamera(rec, camera, env);
      ghost var pass := CameraOps(Config(camera.spp, env), camera.width, camera.height, camera.shutter);
      ghost var mid := rec.ops;
      if display {
        rec.Push(DisplayIdle);
      }
      rec.Push(Download(i, pixels));
      rec.Push(Synchronize);
      rec.Push(FilmRelease(i));
      rec.Push(SaveImage(camera.file, camera.width, camera.height, pixels));
      assert rec.ops == mid + Epilogue(display, i, camera);
      Sandwich(old(rec.ops), Prologue(display, i), pass, Epilogue(display, i, camera));
    }

    /** render(): every camera of the pipeline in index order, camera i under envs(i). */
    method Render(rec: Recorder, envs: nat -> Environment)
      modifies rec
      ensures rec.ops == old(rec.ops) + RenderOps(display, node.displayInterval, pipeline.cameras, envs)
    {
      var cameras := pipeline.cameras;
      var i := 0;
      ghost var done: seq<Op> := [];
      while i < |cameras|
        invariant 0 <= i <= |cameras|
        invariant done == RenderOps(display, node.displayInterval, cameras[..i], envs)
        invariant rec.ops == old(rec.ops) + done
      {
        RenderOpsExtend(display, node.displayInterval, cameras, i, envs);
        ghost var block := CameraBlock(display, node.displayInterval, i, cameras[i], envs(i));
        RenderCamera(rec, i, cameras[i], envs(i));
        AppendAssoc(old(rec.ops), done, block);
        done := done + block;
        i := i + 1;
      }
      assert cameras[..i] == cameras;
    }
  }
}
