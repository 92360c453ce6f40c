// The command trace of the progressive integrator: every command the host
// enqueues on the command buffer and every host-side action (progress bar,
// film release, image save), recorded in program order.

module Commands {

  /** A progress value `sample_id / spp`, kept as the exact pair instead of a double. */
  datatype Fraction = Fraction(sampleId: nat, spp: nat)

  datatype Op =
    // Integrator::Instance construction
    | SamplerBuild
    | LightSamplerBuild
    // per-camera lifecycle
    | FilmPrepare(camera: nat)
    | DisplayReset(camera: nat)
    | DisplayIdle
    | Download(camera: nat, pixelCount: nat)
    | FilmRelease(camera: nat)
    | SaveImage(file: string, width: nat, height: nat, pixelCount: nat)
    // per-camera sample loop
    | SamplerReset(width: nat, height: nat, pixelCount: nat, spp: nat)
    | PrinterReset
    | Synchronize
    | Compile
    | PipelineUpdate(time: real)
    | Dispatch(sampleId: nat, time: real, weight: real)
    | Retrieve
    | DisplayUpdate(sampleId: nat)
    | ProgressUpdate(value: Fraction)     // progress.update(p) run on the host, now
    | DeferredProgress(value: Fraction)   // progress.update(p) enqueued as a host callback
    | ProgressDone

  /** The operations the sample loop itself may append between its prologue and its final barrier. */
  predicate IsLoopOp(op: Op) {
    op.PipelineUpdate? || op.Dispatch? || op.Retrieve? || op.DisplayUpdate? ||
    op.ProgressUpdate? || op.DeferredProgress?
  }

  predicate AllLoopOps(ops: seq<Op>) {
    forall op :: op in ops ==> IsLoopOp(op)
  }

  /** The instrumented command buffer: it only ever grows at the end. */
  class Recorder {
    var ops: seq<Op>

    constructor ()
      ensures ops == []
    {
      ops := [];
    }

    method Push(op: Op)
      modifies this
      ensures ops == old(ops) + [op]
    {
      ops := ops + [op];
    }
  }

  /** The pipeline updates and kernel dispatches of a trace, in trace order. */
  function Skeleton(ops: seq<Op>): seq<Op> {
    if ops == [] then []
    else (if ops[0].PipelineUpdate? || ops[0].Dispatch? then [ops[0]] else []) + Skeleton(ops[1..])
  }

  /** The sample ids of the dispatches of a trace, in trace order. */
  function DispatchIds(ops: seq<Op>): seq<nat> {
    if ops == [] then []
    else (if ops[0].Dispatch? then [ops[0].sampleId] else []) + DispatchIds(ops[1..])
  }

  /** The times of the pipeline updates of a trace, in trace order. */
  function UpdateTimes(ops: seq<Op>): seq<real> {
    if ops == [] then []
    else (if ops[0].PipelineUpdate? then [ops[0].time] else []) + UpdateTimes(ops[1..])
  }

  /** The sample ids reported to the progress bar, synchronously or deferred, in trace order. */
  function ReportIds(ops: seq<Op>): seq<nat> {
    if ops == [] then []
    else (if ops[0].ProgressUpdate? || ops[0].DeferredProgress? then [ops[0].value.sampleId] else [])
         + ReportIds(ops[1..])
  }

  /** The film lifecycle operations of a trace: prepare, download, release, save. */
  function Lifecycle(ops: seq<Op>): seq<Op> {
    if ops == [] then []
    else (if ops[0].FilmPrepare? || ops[0].Download? || ops[0].FilmRelease? || ops[0].SaveImage?
          then [ops[0]] else []) + Lifecycle(ops[1..])
  }

  lemma {:induction false} SkeletonAppend(a: seq<Op>, b: seq<Op>)
    ensures Skeleton(a + b) == Skeleton(a) + Skeleton(b)
  {
    if a == [] {
      assert a + b == b;
    } else {
      var head := if a[0].PipelineUpdate? || a[0].Dispatch? then [a[0]] else [];
      assert (a + b)[0] == a[0];
      assert (a + b)[1..] == a[1..] + b;
      assert Skeleton(a + b) == head + Skeleton(a[1..] + b);
      SkeletonAppend(a[1..], b);
      assert head + (Skeleton(a[1..]) + Skeleton(b)) == (head + Skeleton(a[1..])) + Skeleton(b);
    }
  }

  lemma {:induction false} DispatchIdsAppend(a: seq<Op>, b: seq<Op>)
    ensures DispatchIds(a + b) == DispatchIds(a) + DispatchIds(b)
  {
    if a == [] {
      assert a + b == b;
    } else {
      var head := if a[0].Dispatch? then [a[0].sampleId] else [];
      assert (a + b)[0] == a[0];
      assert (a + b)[1..] == a[1..] + b;
      assert DispatchIds(a + b) == head + DispatchIds(a[1..] + b);
      DispatchIdsAppend(a[1..], b);
      assert head + (DispatchIds(a[1..]) + DispatchIds(b)) == (head + DispatchIds(a[1..])) + DispatchIds(b);
    }
  }

  lemma {:induction false} UpdateTimesAppend(a: seq<Op>, b: seq<Op>)
    ensures UpdateTimes(a + b) == UpdateTimes(a) + UpdateTimes(b)
  {
    if a == [] {
      assert a + b == b;
    } else {
      var head := if a[0].PipelineUpdate? then [a[0].time] else [];
      assert (a + b)[0] == a[0];
      assert (a + b)[1..] == a[1..] + b;
      assert UpdateTimes(a + b) == head + UpdateTimes(a[1..] + b);
      UpdateTimesAppend(a[1..], b);
      assert head + (UpdateTimes(a[1..]) + UpdateTimes(b)) == (head + UpdateTimes(a[1..])) + UpdateTimes(b);
    }
  }

  lemma {:induction false} ReportIdsAppend(a: seq<Op>, b: seq<Op>)
    ensures ReportIds(a + b) == ReportIds(a) + ReportIds(b)
  {
    if a == [] {
      assert a + b == b;
    } else {
      var head := if a[0].ProgressUpdate? || a[0].DeferredProgress? then [a[0].value.sampleId] else [];
      assert (a + b)[0] == a[0];
      assert (a + b)[1..] == a[1..] + b;
      assert ReportIds(a + b) == head + ReportIds(a[1..] + b);
      ReportIdsAppend(a[1..], b);
      assert head + (ReportIds(a[1..]) + ReportIds(b)) == (head + ReportIds(a[1..])) + ReportIds(b);
    }
  }

  lemma {:induction false} LifecycleAppend(a: seq<Op>, b: seq<Op>)
    ensures Lifecycle(a + b) == Lifecycle(a) + Lifecycle(b)
  {
    if a == [] {
      assert a + b == b;
    } else {
      var head := if a[0].FilmPrepare? || a[0].Download? || a[0].FilmRelease? || a[0].SaveImage? then [a[0]] else [];
      assert (a + b)[0] == a[0];
      assert (a + b)[1..] == a[1..] + b;
      assert Lifecycle(a + b) == head + Lifecycle(a[1..] + b);
      LifecycleAppend(a[1..], b);
      assert head + (Lifecycle(a[1..]) + Lifecycle(b)) == (head + Lifecycle(a[1..])) + Lifecycle(b);
    }
  }

  /** Dispatch ids and update times do not change when only the skeleton is kept. */
  lemma {:induction false} SkeletonKeepsDispatchesAndUpdates(ops: seq<Op>)
    ensures DispatchIds(Skeleton(ops)) == DispatchIds(ops)
    ensures UpdateTimes(Skeleton(ops)) == UpdateTimes(ops)
  {
    if ops != [] {
      var head := if ops[0].PipelineUpdate? || ops[0].Dispatch? then [ops[0]] else [];
      DispatchIdsAppend(head, Skeleton(ops[1..]));
      UpdateTimesAppend(head, Skeleton(ops[1..]));
      SkeletonKeepsDispatchesAndUpdates(ops[1..]);
    }
  }

  /** A trace made of loop operations only has no film lifecycle operation and no barrier. */
  lemma {:induction false} LoopOpsHaveNoLifecycle(ops: seq<Op>)
    requires AllLoopOps(ops)
    ensures Lifecycle(ops) == []
    ensures Synchronize !in ops
  {
    if ops != [] {
      assert ops[0] in ops;
      assert forall op :: op in ops[1..] ==> op in ops;
      LoopOpsHaveNoLifecycle(ops[1..]);
    }
  }

  /** A trace without dispatches, reports or lifecycle operations keeps nothing under those filters. */
  lemma {:induction false} NothingKept(ops: seq<Op>)
    ensures (forall i :: 0 <= i < |ops| ==> !ops[i].Dispatch?) ==> DispatchIds(ops) == []
    ensures (forall i :: 0 <= i < |ops| ==> !ops[i].ProgressUpdate? && !ops[i].DeferredProgress?)
            ==> ReportIds(ops) == []
    ensures (forall i :: 0 <= i < |ops| ==>
               !ops[i].FilmPrepare? && !ops[i].Download? && !ops[i].FilmRelease? && !ops[i].SaveImage?)
            ==> Lifecycle(ops) == []
  {
    if ops != [] {
      NothingKept(ops[1..]);
    }
  }

  predicate StrictlyIncreasing(s: seq<nat>) {
    forall i, j :: 0 <= i < j < |s| ==> s[i] < s[j]
  }
}
