// Properties of the per-camera sample loop: dispatch numbering, update-before-dispatch
// order, commit positions and reported progress, retrievals and the final barrier.

module ScheduleProofs {
  import opened Commands
  import opened Schedule

  // ---------------------------------------------------------------------------
  // One commit, one iteration
  // ---------------------------------------------------------------------------

  /**
   * Commit reporting: a commit reports sample_id / spp exactly once; it asks the
   * display to update iff there is a display; the report runs on the host at once
   * iff the display refreshed, and is otherwise enqueued as a deferred callback.
   */
  lemma CommitReporting(cfg: LoopConfig, j: nat, id: nat)
    ensures var r := CommitOps(cfg, j, id);
      && ReportIds(r) == [id]
      && (DisplayUpdate(id) in r <==> cfg.display)
      && (r[|r| - 1] == ProgressUpdate(Fraction(id, cfg.spp)) <==> cfg.display && cfg.env.refreshed(j))
      && (r[|r| - 1] == DeferredProgress(Fraction(id, cfg.spp)) <==> !(cfg.display && cfg.env.refreshed(j)))
  {
    var p := Fraction(id, cfg.spp);
    var show := if cfg.display then [DisplayUpdate(id)] else [];
    var report := [if cfg.display && cfg.env.refreshed(j) then ProgressUpdate(p) else DeferredProgress(p)];
    ReportIdsAppend(show, report);
  }

  /** A commit appends only loop operations, none of them a dispatch, an update or a retrieval. */
  lemma CommitShape(cfg: LoopConfig, j: nat, id: nat)
    ensures var r := CommitOps(cfg, j, id);
      && Skeleton(r) == []
      && AllLoopOps(r)
      && (forall i :: 0 <= i < |r| ==> !r[i].Dispatch? && !r[i].Retrieve?)
  {
    var p := Fraction(id, cfg.spp);
    var show := if cfg.display then [DisplayUpdate(id)] else [];
    var report := [if cfg.display && cfg.env.refreshed(j) then ProgressUpdate(p) else DeferredProgress(p)];
    SkeletonAppend(show, report);
    assert Skeleton(show) == [] && Skeleton(report) == [];
  }

  /** One iteration enqueues exactly one dispatch, first, with the current sample_id and the sample's time and weight. */
  lemma StepDispatch(cfg: LoopConfig, s: ShutterSample, sampleId: nat, batch: nat)
    ensures var r := Step(cfg, s, sampleId, batch);
      && |r.ops| >= 1 && r.ops[0] == Dispatch(sampleId, s.time, s.weight)
      && Skeleton(r.ops) == [Dispatch(sampleId, s.time, s.weight)]
  {
    var dispatch := [Dispatch(sampleId, s.time, s.weight)];
    var retrieve := if cfg.env.printerEmpty(sampleId) then [] else [Retrieve];
    var commit := CommitOps(cfg, sampleId, sampleId + 1);
    CommitShape(cfg, sampleId, sampleId + 1);
    SkeletonAppend(dispatch, retrieve);
    SkeletonAppend(dispatch + retrieve, commit);
  }

  /**
   * The commit check of one iteration: dispatch_count is incremented and compared
   * with the interval chosen for this dispatch; a commit resets it and reports the
   * post-incremented sample_id, and no report is made otherwise.
   */
  lemma StepCommit(cfg: LoopConfig, s: ShutterSample, sampleId: nat, batch: nat)
    ensures var r := Step(cfg, s, sampleId, batch);
      && (r.batch == 0 <==> IsMultiple(batch + 1, CommitInterval(cfg, sampleId)))
      && (r.batch != 0 ==> r.batch == batch + 1)
      && ReportIds(r.ops) == (if r.batch == 0 then [sampleId + 1] else [])
  {
    var dispatch := [Dispatch(sampleId, s.time, s.weight)];
    var retrieve := if cfg.env.printerEmpty(sampleId) then [] else [Retrieve];
    var commit := CommitOps(cfg, sampleId, sampleId + 1);
    CommitReporting(cfg, sampleId, sampleId + 1);
    ReportIdsAppend(dispatch, retrieve);
    ReportIdsAppend(dispatch + retrieve, commit);
  }

  lemma StepLoopOps(cfg: LoopConfig, s: ShutterSample, sampleId: nat, batch: nat)
    ensures AllLoopOps(Step(cfg, s, sampleId, batch).ops)
  {
    CommitShape(cfg, sampleId, sampleId + 1);
  }

  // ---------------------------------------------------------------------------
  // Dispatch totals and the update/dispatch pattern
  // ---------------------------------------------------------------------------

  /** n inner iterations advance sample_id by n. */
  lemma {:induction false} InnerCount(cfg: LoopConfig, s: ShutterSample, n: nat, sampleId: nat, batch: nat)
    ensures Inner(cfg, s, n, sampleId, batch).sampleId == sampleId + n
  {
    if n > 0 {
      InnerCount(cfg, s, n - 1, sampleId, batch);
    }
  }

  /** The n-th inner iteration appends one dispatch, numbered sampleId + n - 1, to the skeleton. */
  lemma InnerSkeletonStep(cfg: LoopConfig, s: ShutterSample, n: nat, sampleId: nat, batch: nat)
    requires n >= 1
    requires Inner(cfg, s, n - 1, sampleId, batch).sampleId == sampleId + (n - 1)
    requires Skeleton(Inner(cfg, s, n - 1, sampleId, batch).ops)
             == seq(n - 1, i requires 0 <= i < n - 1 => Dispatch(sampleId + i, s.time, s.weight))
    ensures Inner(cfg, s, n, sampleId, batch).sampleId == sampleId + n
    ensures Skeleton(Inner(cfg, s, n, sampleId, batch).ops)
            == seq(n, i requires 0 <= i < n => Dispatch(sampleId + i, s.time, s.weight))
  {
    var r := Inner(cfg, s, n - 1, sampleId, batch);
    var d := Step(cfg, s, r.sampleId, r.batch);
    assert Inner(cfg, s, n, sampleId, batch).ops == r.ops + d.ops;
    StepDispatch(cfg, s, r.sampleId, r.batch);
    SkeletonAppend(r.ops, d.ops);
    assert Skeleton(r.ops + d.ops) == Skeleton(r.ops) + [Dispatch(sampleId + (n - 1), s.time, s.weight)];
    DispatchesExtend(s, n, sampleId);
  }

  /** n inner iterations append n dispatches numbered from sampleId and no update. */
  lemma {:induction false} InnerSkeleton(cfg: LoopConfig, s: ShutterSample, n: nat, sampleId: nat, batch: nat)
    ensures Inner(cfg, s, n, sampleId, batch).sampleId == sampleId + n
    ensures Skeleton(Inner(cfg, s, n, sampleId, batch).ops)
            == seq(n, i requires 0 <= i < n => Dispatch(sampleId + i, s.time, s.weight))
  {
    if n > 0 {
      InnerSkeleton(cfg, s, n - 1, sampleId, batch);
      InnerSkeletonStep(cfg, s, n, sampleId, batch);
    }
  }

  lemma DispatchesExtend(s: ShutterSample, n: nat, from: nat)
    requires n >= 1
    ensures seq(n - 1, i requires 0 <= i < n - 1 => Dispatch(from + i, s.time, s.weight)) + [Dispatch(from + (n - 1), s.time, s.weight)]
            == seq(n, i requires 0 <= i < n => Dispatch(from + i, s.time, s.weight))
  {
  }

  /** One more shutter sample extends the loop's skeleton by its update and its dispatch run. */
  lemma OuterSkeletonStep(cfg: LoopConfig, schedule: seq<ShutterSample>)
    requires schedule != []
    requires Outer(cfg, schedule[..|schedule| - 1]).sampleId == Total(schedule[..|schedule| - 1])
    requires Skeleton(Outer(cfg, schedule[..|schedule| - 1]).ops) == ExpectedSkeleton(schedule[..|schedule| - 1])
    ensures Outer(cfg, schedule).sampleId == Total(schedule)
    ensures Skeleton(Outer(cfg, schedule).ops) == ExpectedSkeleton(schedule)
  {
    var init := schedule[..|schedule| - 1];
    var s := schedule[|schedule| - 1];
    var r := Outer(cfg, init);
    var q := Inner(cfg, s, s.spp, r.sampleId, r.batch);
    var pu := [PipelineUpdate(s.time)];
    InnerSkeleton(cfg, s, s.spp, r.sampleId, r.batch);
    assert Skeleton(q.ops) == DispatchRun(s, Total(init));
    assert Skeleton(pu) == pu;
    SkeletonAppend(r.ops, pu);
    SkeletonAppend(r.ops + pu, q.ops);
    assert Outer(cfg, schedule).ops == r.ops + pu + q.ops;
  }

  /** The loop's updates and dispatches are exactly the reference pattern; sample_id ends at the total. */
  lemma {:induction false} OuterSkeleton(cfg: LoopConfig, schedule: seq<ShutterSample>)
    ensures Outer(cfg, schedule).sampleId == Total(schedule)
    ensures Skeleton(Outer(cfg, schedule).ops) == ExpectedSkeleton(schedule)
  {
    if schedule != [] {
      OuterSkeleton(cfg, schedule[..|schedule| - 1]);
      OuterSkeletonStep(cfg, schedule);
    }
  }

  lemma {:induction false} DispatchRunFilters(s: ShutterSample, from: nat)
    ensures DispatchIds(DispatchRun(s, from)) == seq(s.spp, i requires 0 <= i < s.spp => from + i)
    ensures UpdateTimes(DispatchRun(s, from)) == []
    decreases s.spp
  {
    if s.spp > 0 {
      var rest := s.(spp := s.spp - 1);
      DispatchRunFilters(rest, from + 1);
      assert DispatchRun(s, from) == [Dispatch(from, s.time, s.weight)] + DispatchRun(rest, from + 1);
      DispatchIdsAppend([Dispatch(from, s.time, s.weight)], DispatchRun(rest, from + 1));
      UpdateTimesAppend([Dispatch(from, s.time, s.weight)], DispatchRun(rest, from + 1));
    }
  }

  lemma CountingConcat(a: nat, b: nat)
    ensures seq(a, i requires 0 <= i => i) + seq(b, i requires 0 <= i < b => a + i)
            == seq(a + b, i requires 0 <= i => i)
  {
  }

  lemma TimesExtend(schedule: seq<ShutterSample>)
    requires schedule != []
    ensures var init := schedule[..|schedule| - 1];
      seq(|init|, i requires 0 <= i < |init| => init[i].time) + [schedule[|schedule| - 1].time]
      == seq(|schedule|, i requires 0 <= i < |schedule| => schedule[i].time)
  {
  }

  /** Appending one shutter sample to the reference pattern continues the dispatch ids. */
  lemma ExpectedDispatchIdsStep(schedule: seq<ShutterSample>)
    requires schedule != []
    requires var init := schedule[..|schedule| - 1];
      DispatchIds(ExpectedSkeleton(init)) == seq(Total(init), i requires 0 <= i => i)
    ensures DispatchIds(ExpectedSkeleton(schedule)) == seq(Total(schedule), i requires 0 <= i => i)
  {
    var init := schedule[..|schedule| - 1];
    var s := schedule[|schedule| - 1];
    var e := ExpectedSkeleton(init);
    var pu := [PipelineUpdate(s.time)];
    var run := DispatchRun(s, Total(init));
    assert ExpectedSkeleton(schedule) == e + pu + run;
    DispatchRunFilters(s, Total(init));
    assert DispatchIds(pu) == [];
    DispatchIdsAppend(e, pu);
    DispatchIdsAppend(e + pu, run);
    CountingConcat(Total(init), s.spp);
  }

  /** Appending one shutter sample to the reference pattern appends its time to the update times. */
  lemma ExpectedUpdateTimesStep(schedule: seq<ShutterSample>)
    requires schedule != []
    requires var init := schedule[..|schedule| - 1];
      UpdateTimes(ExpectedSkeleton(init)) == seq(|init|, i requires 0 <= i < |init| => init[i].time)
    ensures UpdateTimes(ExpectedSkeleton(schedule))
            == seq(|schedule|, i requires 0 <= i < |schedule| => schedule[i].time)
  {
    var init := schedule[..|schedule| - 1];
    var s := schedule[|schedule| - 1];
    var e := ExpectedSkeleton(init);
    var pu := [PipelineUpdate(s.time)];
    var run := DispatchRun(s, Total(init));
    assert ExpectedSkeleton(schedule) == e + pu + run;
    DispatchRunFilters(s, Total(init));
    assert pu[1..] == [];
    assert UpdateTimes(pu) == [s.time];
    UpdateTimesAppend(e, pu);
    UpdateTimesAppend(e + pu, run);
    TimesExtend(schedule);
  }

  /** The reference pattern numbers its dispatches 0, 1, 2, ... and has one update per shutter sample. */
  lemma {:induction false} ExpectedSkeletonFilters(schedule: seq<ShutterSample>)
    ensures DispatchIds(ExpectedSkeleton(schedule)) == seq(Total(schedule), i requires 0 <= i => i)
    ensures UpdateTimes(ExpectedSkeleton(schedule))
            == seq(|schedule|, i requires 0 <= i < |schedule| => schedule[i].time)
  {
    if schedule != [] {
      ExpectedSkeletonFilters(schedule[..|schedule| - 1]);
      ExpectedDispatchIdsStep(schedule);
      ExpectedUpdateTimesStep(schedule);
    }
  }

  /**
   * Dispatch totals: after the loop sample_id is the sum of the sample counts, and the
   * loop enqueued exactly that many dispatches, carrying ids 0, 1, 2, ... in trace order.
   * Exactly one pipeline update is enqueued per shutter sample, in schedule order.
   */
  lemma DispatchTotals(cfg: LoopConfig, schedule: seq<ShutterSample>)
    ensures Outer(cfg, schedule).sampleId == Total(schedule)
    ensures DispatchIds(Outer(cfg, schedule).ops) == seq(Total(schedule), i requires 0 <= i => i)
    ensures UpdateTimes(Outer(cfg, schedule).ops)
            == seq(|schedule|, i requires 0 <= i < |schedule| => schedule[i].time)
  {
    OuterSkeleton(cfg, schedule);
    ExpectedSkeletonFilters(schedule);
    SkeletonKeepsDispatchesAndUpdates(Outer(cfg, schedule).ops);
  }

  /**
   * Update before dispatch: a schedule of two shutter samples of two dispatches each
   * gives update, dispatch, dispatch, update, dispatch, dispatch, each dispatch with
   * its sample's time and weight.
   */
  lemma TwoShutterSamplesInterleave(cfg: LoopConfig, t0: real, t1: real)
    ensures Skeleton(Outer(cfg, [ShutterSample(t0, 0.5, 2), ShutterSample(t1, 0.5, 2)]).ops)
            == [PipelineUpdate(t0), Dispatch(0, t0, 0.5), Dispatch(1, t0, 0.5),
                PipelineUpdate(t1), Dispatch(2, t1, 0.5), Dispatch(3, t1, 0.5)]
  {
    var a, b := ShutterSample(t0, 0.5, 2), ShutterSample(t1, 0.5, 2);
    OuterSkeleton(cfg, [a, b]);
    assert [a, b][..1] == [a];
    assert [a][..0] == [];
    assert Total([a]) == 2;
    assert DispatchRun(a, 0) == [Dispatch(0, t0, 0.5), Dispatch(1, t0, 0.5)];
    assert DispatchRun(b, 2) == [Dispatch(2, t1, 0.5), Dispatch(3, t1, 0.5)];
    assert ExpectedSkeleton([a]) == [PipelineUpdate(t0)] + DispatchRun(a, 0);
    assert ExpectedSkeleton([a, b]) == ExpectedSkeleton([a]) + [PipelineUpdate(t1)] + DispatchRun(b, 2);
  }

  // ---------------------------------------------------------------------------
  // Reported progress
  // ---------------------------------------------------------------------------

  ghost predicate Within(s: seq<nat>, lo: nat, hi: nat) {
    forall i :: 0 <= i < |s| ==> lo < s[i] <= hi
  }

  lemma IncreasingAppend(a: seq<nat>, b: seq<nat>, lo: nat, mid: nat, hi: nat)
    requires StrictlyIncreasing(a) && Within(a, lo, mid)
    requires StrictlyIncreasing(b) && Within(b, mid, hi)
    requires lo <= mid <= hi
    ensures StrictlyIncreasing(a + b) && Within(a + b, lo, hi)
  {
    forall i, j | 0 <= i < j < |a + b| ensures (a + b)[i] < (a + b)[j] {
      if i < |a| <= j {
        assert (a + b)[i] <= mid < (a + b)[j];
      }
    }
    forall i | 0 <= i < |a + b| ensures lo < (a + b)[i] <= hi {
      if i >= |a| {
        assert (a + b)[i] == b[i - |a|];
      }
    }
  }

  /** One iteration reports at most once, the post-incremented sample_id. */
  lemma StepReports(cfg: LoopConfig, s: ShutterSample, sampleId: nat, batch: nat, lo: nat, hi: nat)
    requires lo == sampleId && hi == sampleId + 1
    ensures StrictlyIncreasing(ReportIds(Step(cfg, s, sampleId, batch).ops))
    ensures Within(ReportIds(Step(cfg, s, sampleId, batch).ops), lo, hi)
  {
    StepCommit(cfg, s, sampleId, batch);
  }

  /** The n-th inner iteration reports at most sampleId + n, above everything reported before. */
  lemma InnerReportsStep(cfg: LoopConfig, s: ShutterSample, n: nat, sampleId: nat, batch: nat)
    requires n >= 1
    requires StrictlyIncreasing(ReportIds(Inner(cfg, s, n - 1, sampleId, batch).ops))
    requires Within(ReportIds(Inner(cfg, s, n - 1, sampleId, batch).ops), sampleId, sampleId + (n - 1))
    ensures StrictlyIncreasing(ReportIds(Inner(cfg, s, n, sampleId, batch).ops))
    ensures Within(ReportIds(Inner(cfg, s, n, sampleId, batch).ops), sampleId, sampleId + n)
  {
    var r := Inner(cfg, s, n - 1, sampleId, batch);
    InnerCount(cfg, s, n - 1, sampleId, batch);
    var d := Step(cfg, s, r.sampleId, r.batch);
    StepReports(cfg, s, r.sampleId, r.batch, sampleId + (n - 1), sampleId + n);
    ReportIdsAppend(r.ops, d.ops);
    IncreasingAppend(ReportIds(r.ops), ReportIds(d.ops), sampleId, sampleId + (n - 1), sampleId + n);
  }

  /** n inner iterations report strictly increasing ids in (sampleId, sampleId + n]. */
  lemma {:induction false} InnerReports(cfg: LoopConfig, s: ShutterSample, n: nat, sampleId: nat, batch: nat)
    ensures StrictlyIncreasing(ReportIds(Inner(cfg, s, n, sampleId, batch).ops))
    ensures Within(ReportIds(Inner(cfg, s, n, sampleId, batch).ops), sampleId, sampleId + n)
  {
    if n > 0 {
      InnerReports(cfg, s, n - 1, sampleId, batch);
      InnerReportsStep(cfg, s, n, sampleId, batch);
    }
  }

  /** One shutter sample more keeps the reports increasing and within [1, total]. */
  lemma OuterReportsStep(cfg: LoopConfig, schedule: seq<ShutterSample>)
    requires schedule != []
    requires var init := schedule[..|schedule| - 1];
      && Outer(cfg, init).sampleId == Total(init)
      && StrictlyIncreasing(ReportIds(Outer(cfg, init).ops))
      && Within(ReportIds(Outer(cfg, init).ops), 0, Total(init))
    ensures Outer(cfg, schedule).sampleId == Total(schedule)
    ensures StrictlyIncreasing(ReportIds(Outer(cfg, schedule).ops))
    ensures Within(ReportIds(Outer(cfg, schedule).ops), 0, Total(schedule))
  {
    var init := schedule[..|schedule| - 1];
    var s := schedule[|schedule| - 1];
    var r := Outer(cfg, init);
    var q := Inner(cfg, s, s.spp, r.sampleId, r.batch);
    var pu := [PipelineUpdate(s.time)];
    InnerCount(cfg, s, s.spp, r.sampleId, r.batch);
    InnerReports(cfg, s, s.spp, r.sampleId, r.batch);
    ReportIdsAppend(r.ops + pu, q.ops);
    ReportIdsAppend(r.ops, pu);
    assert ReportIds(pu) == [];
    assert ReportIds(r.ops + pu) == ReportIds(r.ops);
    IncreasingAppend(ReportIds(r.ops), ReportIds(q.ops), 0, Total(init), Total(schedule));
    assert Outer(cfg, schedule).ops == r.ops + pu + q.ops;
  }

  /**
   * Commit reporting: the progress values reported at commits strictly increase
   * and each lies in [1, total], whatever the display and the printer answer.
   */
  lemma {:induction false} OuterReports(cfg: LoopConfig, schedule: seq<ShutterSample>)
    ensures Outer(cfg, schedule).sampleId == Total(schedule)
    ensures StrictlyIncreasing(ReportIds(Outer(cfg, schedule).ops))
    ensures Within(ReportIds(Outer(cfg, schedule).ops), 0, Total(schedule))
  {
    if schedule != [] {
      OuterReports(cfg, schedule[..|schedule| - 1]);
      OuterReportsStep(cfg, schedule);
    }
  }

  // ---------------------------------------------------------------------------
  // Commits under a fixed interval
  // ---------------------------------------------------------------------------

  lemma MulAtLeast(x: int, k: int)
    requires x >= 1 && k > 0
    ensures x * k >= k
  {
  }

  /** Euclidean division is unique. */
  lemma DivModUnique(a: int, k: int, q: int, r: int)
    requires k > 0 && a == q * k + r && 0 <= r < k
    ensures a / k == q && a % k == r
  {
    var q0, r0 := a / k, a % k;
    assert a == q0 * k + r0;
    assert (q0 - q) * k == r - r0;
    if q0 > q { MulAtLeast(q0 - q, k); }
    if q0 < q { MulAtLeast(q - q0, k); }
  }

  /** How m % k and m / k change when m grows by one. */
  lemma ModStep(k: nat, m: nat)
    requires k >= 1
    ensures (m % k + 1) % k == (m + 1) % k
    ensures (m + 1) % k != 0 ==> (m + 1) % k == m % k + 1 && (m + 1) / k == m / k
    ensures (m + 1) % k == 0 ==> (m + 1) / k == m / k + 1
  {
    var q, r := m / k, m % k;
    assert m == q * k + r;
    if r + 1 == k {
      assert m + 1 == (q + 1) * k + 0;
      DivModUnique(m + 1, k, q + 1, 0);
      DivModUnique(r + 1, k, 1, 0);
    } else {
      DivModUnique(m + 1, k, q, r + 1);
      DivModUnique(r + 1, k, 0, r + 1);
    }
  }

  /** The repeated-subtraction test agrees with the remainder. */
  lemma {:induction false} MultipleIffMod(m: nat, k: nat)
    requires k >= 1
    ensures IsMultiple(m, k) <==> m % k == 0
    decreases m
  {
    if m < k {
      DivModUnique(m, k, 0, m);
    } else {
      MultipleIffMod(m - k, k);
      DivModUnique(m, k, (m - k) / k + 1, (m - k) % k);
    }
  }

  /** m mod k by repeated subtraction: the batch counter under a fixed interval k. */
  ghost function Residue(m: nat, k: nat): nat
    requires k >= 1
    decreases m
  {
    if m < k then m else Residue(m - k, k)
  }

  lemma {:induction false} ResidueIsMod(m: nat, k: nat)
    requires k >= 1
    ensures Residue(m, k) == m % k
    decreases m
  {
    if m < k {
      DivModUnique(m, k, 0, m);
    } else {
      ResidueIsMod(m - k, k);
      DivModUnique(m, k, (m - k) / k + 1, (m - k) % k);
    }
  }

  /** Counting one more dispatch wraps the residue to 0 exactly when it reaches k, which is a multiple of k. */
  lemma {:induction false} ResidueStep(m: nat, k: nat)
    requires k >= 1
    ensures Residue(m, k) < k
    ensures Residue(m + 1, k) == if Residue(m, k) + 1 == k then 0 else Residue(m, k) + 1
    ensures IsMultiple(m + 1, k) <==> Residue(m, k) + 1 == k
    ensures IsMultiple(Residue(m, k) + 1, k) <==> Residue(m, k) + 1 == k
    decreases m
  {
    if m + 1 > k {
      ResidueStep(m - k, k);
      assert m + 1 - k == m - k + 1;
    } else if m + 1 == k {
      assert IsMultiple(0, k);
    }
  }

  /** Under a fixed interval k, one dispatch keeps the batch counter at sample_id mod k and commits at multiples of k. */
  lemma StepFixed(cfg: LoopConfig, s: ShutterSample, m: nat, batch: nat, k: nat, next: nat)
    requires 1 <= k && FixedInterval(cfg, k)
    requires batch == Residue(m, k) && next == m + 1
    ensures Step(cfg, s, m, batch).batch == Residue(next, k)
    ensures ReportIds(Step(cfg, s, m, batch).ops) == if IsMultiple(next, k) then [next] else []
  {
    assert CommitInterval(cfg, m) == k;
    ResidueStep(m, k);
    StepCommit(cfg, s, m, batch);
  }

  /** Under a fixed interval k the batch counter is sample_id mod k. */
  lemma {:induction false} InnerFixedBatch(cfg: LoopConfig, s: ShutterSample, n: nat, sampleId: nat, batch: nat, k: nat, to: nat)
    requires 1 <= k && FixedInterval(cfg, k)
    requires batch == Residue(sampleId, k) && to == sampleId + n
    ensures Inner(cfg, s, n, sampleId, batch).batch == Residue(to, k)
    ensures Inner(cfg, s, n, sampleId, batch).batch < k
  {
    ResidueStep(to, k);
    if n > 0 {
      var r := Inner(cfg, s, n - 1, sampleId, batch);
      InnerCount(cfg, s, n - 1, sampleId, batch);
      InnerFixedBatch(cfg, s, n - 1, sampleId, batch, k, to - 1);
      StepFixed(cfg, s, r.sampleId, r.batch, k, to);
    }
  }

  /** The multiples of k in (lo, hi], in increasing order. */
  ghost function MultiplesIn(k: nat, lo: nat, hi: nat): seq<nat>
    requires k >= 1 && lo <= hi
    decreases hi - lo
  {
    if hi == lo then [] else MultiplesIn(k, lo, hi - 1) + (if IsMultiple(hi, k) then [hi] else [])
  }

  lemma {:induction false} MultiplesSplit(k: nat, lo: nat, hi: nat)
    requires k >= 1 && lo <= hi
    ensures Multiples(k, lo) + MultiplesIn(k, lo, hi) == Multiples(k, hi)
    decreases hi - lo
  {
    if hi > lo {
      var last := if IsMultiple(hi, k) then [hi] else [];
      MultiplesSplit(k, lo, hi - 1);
      assert Multiples(k, lo) + (MultiplesIn(k, lo, hi - 1) + last)
             == (Multiples(k, lo) + MultiplesIn(k, lo, hi - 1)) + last;
    }
  }

  /** One more inner iteration under a fixed interval k extends the reported multiples by at most at + 1. */
  lemma InnerFixedStep(cfg: LoopConfig, s: ShutterSample, m: nat, sampleId: nat, batch: nat, k: nat, at: nat)
    requires 1 <= k && FixedInterval(cfg, k) && at == sampleId + m
    requires Inner(cfg, s, m, sampleId, batch).sampleId == at
    requires Inner(cfg, s, m, sampleId, batch).batch == Residue(at, k)
    requires ReportIds(Inner(cfg, s, m, sampleId, batch).ops) == MultiplesIn(k, sampleId, at)
    ensures ReportIds(Inner(cfg, s, m + 1, sampleId, batch).ops) == MultiplesIn(k, sampleId, at + 1)
  {
    var r := Inner(cfg, s, m, sampleId, batch);
    ReportIdsAppend(r.ops, Step(cfg, s, at, r.batch).ops);
    StepFixed(cfg, s, at, r.batch, k, at + 1);
  }

  /** Under a fixed interval k the commits of the inner loop report the multiples of k it passes. */
  lemma {:induction false} InnerFixed(cfg: LoopConfig, s: ShutterSample, n: nat, sampleId: nat, batch: nat, k: nat, to: nat)
    requires 1 <= k && FixedInterval(cfg, k)
    requires batch == Residue(sampleId, k) && to == sampleId + n
    ensures ReportIds(Inner(cfg, s, n, sampleId, batch).ops) == MultiplesIn(k, sampleId, to)
  {
    if n > 0 {
      InnerCount(cfg, s, n - 1, sampleId, batch);
      InnerFixedBatch(cfg, s, n - 1, sampleId, batch, k, to - 1);
      InnerFixed(cfg, s, n - 1, sampleId, batch, k, to - 1);
      InnerFixedStep(cfg, s, n - 1, sampleId, batch, k, to - 1);
    } else {
      assert ReportIds(Inner(cfg, s, n, sampleId, batch).ops) == [];
    }
  }

  lemma {:induction false} OuterFixedResidue(cfg: LoopConfig, schedule: seq<ShutterSample>, k: nat)
    requires 1 <= k && FixedInterval(cfg, k)
    ensures Outer(cfg, schedule).sampleId == Total(schedule)
    ensures Outer(cfg, schedule).batch == Residue(Total(schedule), k)
  {
    if schedule != [] {
      var init := schedule[..|schedule| - 1];
      var s := schedule[|schedule| - 1];
      var r := Outer(cfg, init);
      OuterFixedResidue(cfg, init, k);
      InnerCount(cfg, s, s.spp, r.sampleId, r.batch);
      InnerFixedBatch(cfg, s, s.spp, r.sampleId, r.batch, k, Total(schedule));
    }
  }

  /** Under a fixed interval k the batch counter ends the loop at total % k. */
  lemma OuterFixedBatch(cfg: LoopConfig, schedule: seq<ShutterSample>, k: nat)
    requires 1 <= k && FixedInterval(cfg, k)
    ensures Outer(cfg, schedule).batch == Total(schedule) % k
  {
    OuterFixedResidue(cfg, schedule, k);
    ResidueIsMod(Total(schedule), k);
  }

  /** One shutter sample more extends the reported multiples of k to the new total. */
  lemma OuterFixedStep(cfg: LoopConfig, schedule: seq<ShutterSample>, k: nat)
    requires 1 <= k && FixedInterval(cfg, k) && schedule != []
    requires var init := schedule[..|schedule| - 1];
      ReportIds(Outer(cfg, init).ops) == Multiples(k, Total(init))
    ensures ReportIds(Outer(cfg, schedule).ops) == Multiples(k, Total(schedule))
  {
    var init := schedule[..|schedule| - 1];
    var s := schedule[|schedule| - 1];
    var r := Outer(cfg, init);
    var q := Inner(cfg, s, s.spp, r.sampleId, r.batch);
    var pu := [PipelineUpdate(s.time)];
    OuterFixedResidue(cfg, init, k);
    InnerFixed(cfg, s, s.spp, r.sampleId, r.batch, k, Total(schedule));
    MultiplesSplit(k, Total(init), Total(schedule));
    ReportIdsAppend(r.ops + pu, q.ops);
    ReportIdsAppend(r.ops, pu);
    assert ReportIds(pu) == [];
    assert ReportIds(r.ops + pu) == ReportIds(r.ops);
    assert Outer(cfg, schedule).ops == r.ops + pu + q.ops;
  }

  /**
   * Commit count under a fixed interval k: the commits report exactly the multiples
   * of k up to the total.
   */
  lemma {:induction false} OuterFixed(cfg: LoopConfig, schedule: seq<ShutterSample>, k: nat)
    requires 1 <= k && FixedInterval(cfg, k)
    ensures ReportIds(Outer(cfg, schedule).ops) == Multiples(k, Total(schedule))
  {
    if schedule != [] {
      OuterFixed(cfg, schedule[..|schedule| - 1], k);
      OuterFixedStep(cfg, schedule, k);
    }
  }

  /** A commit follows the j-th dispatch iff j % k == 0, and there are n / k commits. */
  lemma {:induction false} MultiplesMembers(k: nat, n: nat)
    requires k >= 1
    ensures |Multiples(k, n)| == n / k
    ensures forall x :: x in Multiples(k, n) <==> 1 <= x <= n && x % k == 0
  {
    if n > 0 {
      MultiplesMembers(k, n - 1);
      ModStep(k, n - 1);
      MultipleIffMod(n, k);
    }
  }

  /**
   * Commit interval choice, with no display: every 32nd dispatch commits, so fewer
   * than 32 dispatches give no commit inside the loop. With a display that never
   * asks to close, every display_interval-th dispatch commits.
   */
  lemma SteadyCommits(cfg: LoopConfig, schedule: seq<ShutterSample>)
    ensures !cfg.display ==> ReportIds(Outer(cfg, schedule).ops) == Multiples(FallbackInterval, Total(schedule))
    ensures cfg.display && (forall j: nat :: !cfg.env.shouldClose(j)) ==>
              ReportIds(Outer(cfg, schedule).ops) == Multiples(cfg.interval, Total(schedule))
    ensures !cfg.display && Total(schedule) < FallbackInterval ==> ReportIds(Outer(cfg, schedule).ops) == []
  {
    if !cfg.display {
      assert FixedInterval(cfg, FallbackInterval);
      OuterFixed(cfg, schedule, FallbackInterval);
      MultiplesMembers(FallbackInterval, Total(schedule));
    }
    if cfg.display && (forall j: nat :: !cfg.env.shouldClose(j)) {
      assert FixedInterval(cfg, cfg.interval);
      OuterFixed(cfg, schedule, cfg.interval);
    }
  }

  // ---------------------------------------------------------------------------
  // The batch counter never wraps
  // ---------------------------------------------------------------------------

  lemma StepBatchBound(cfg: LoopConfig, s: ShutterSample, sampleId: nat, batch: nat)
    requires batch < FallbackInterval * cfg.interval
    ensures Step(cfg, s, sampleId, batch).batch < FallbackInterval * cfg.interval
  {
    var k := CommitInterval(cfg, sampleId);
    StepCommit(cfg, s, sampleId, batch);
    if batch + 1 == FallbackInterval * cfg.interval {
      MultipleIffMod(batch + 1, k);
      if k == cfg.interval {
        DivModUnique(batch + 1, k, FallbackInterval, 0);
      } else {
        DivModUnique(batch + 1, k, cfg.interval, 0);
      }
    }
  }

  lemma {:induction false} InnerBatchBound(cfg: LoopConfig, s: ShutterSample, n: nat, sampleId: nat, batch: nat)
    requires batch < FallbackInterval * cfg.interval
    ensures Inner(cfg, s, n, sampleId, batch).batch < FallbackInterval * cfg.interval
  {
    if n > 0 {
      var r := Inner(cfg, s, n - 1, sampleId, batch);
      InnerBatchBound(cfg, s, n - 1, sampleId, batch);
      StepBatchBound(cfg, s, r.sampleId, r.batch);
    }
  }

  /**
   * dispatch_count stays below 32 * display_interval even when the interval changes
   * between dispatches (the counter is compared with %, not reset on a change): at
   * that bound both candidate intervals divide it. So the 32-bit counter never wraps.
   */
  lemma {:induction false} BatchBounded(cfg: LoopConfig, schedule: seq<ShutterSample>)
    ensures Outer(cfg, schedule).batch < FallbackInterval * cfg.interval
    ensures Outer(cfg, schedule).batch < 0x1_0000_0000
  {
    if schedule != [] {
      var init := schedule[..|schedule| - 1];
      var s := schedule[|schedule| - 1];
      var r := Outer(cfg, init);
      BatchBounded(cfg, init);
      InnerBatchBound(cfg, s, s.spp, r.sampleId, r.batch);
    }
  }

  // ---------------------------------------------------------------------------
  // Retrievals and the end of the loop
  // ---------------------------------------------------------------------------

  /**
   * A retrieval stands right after a dispatch whose printer was non-empty, and a
   * dispatch whose printer was non-empty is followed right away by a retrieval.
   */
  ghost predicate RetrievalsFollowDispatches(ops: seq<Op>, printerEmpty: nat -> bool) {
    (forall p :: 0 <= p < |ops| && ops[p].Retrieve? ==>
       0 < p && ops[p - 1].Dispatch? && !printerEmpty(ops[p - 1].sampleId))
    && (forall p :: 0 <= p < |ops| && ops[p].Dispatch? && !printerEmpty(ops[p].sampleId) ==>
          p + 1 < |ops| && ops[p + 1] == Retrieve)
  }

  lemma RetrievalsAppend(a: seq<Op>, b: seq<Op>, printerEmpty: nat -> bool)
    requires RetrievalsFollowDispatches(a, printerEmpty)
    requires RetrievalsFollowDispatches(b, printerEmpty)
    requires b != [] ==> !b[0].Retrieve?
    ensures RetrievalsFollowDispatches(a + b, printerEmpty)
  {
    var ab := a + b;
    forall p | 0 <= p < |ab| && ab[p].Retrieve?
      ensures 0 < p && ab[p - 1].Dispatch? && !printerEmpty(ab[p - 1].sampleId)
    {
      if p >= |a| {
        assert b[p - |a|].Retrieve?;
        assert ab[p - 1] == b[p - |a| - 1];
      }
    }
    forall p | 0 <= p < |ab| && ab[p].Dispatch? && !printerEmpty(ab[p].sampleId)
      ensures p + 1 < |ab| && ab[p + 1] == Retrieve
    {
      if p >= |a| {
        assert b[p - |a|] == ab[p];
      }
    }
  }

  /** A sequence without dispatches and retrievals satisfies the retrieval discipline trivially. */
  lemma NoRetrievalsNoDispatches(ops: seq<Op>, printerEmpty: nat -> bool)
    requires forall i :: 0 <= i < |ops| ==> !ops[i].Dispatch? && !ops[i].Retrieve?
    ensures RetrievalsFollowDispatches(ops, printerEmpty)
  {
  }

  lemma StepRetrievals(cfg: LoopConfig, s: ShutterSample, sampleId: nat, batch: nat)
    ensures RetrievalsFollowDispatches(Step(cfg, s, sampleId, batch).ops, cfg.env.printerEmpty)
  {
    var dispatch := [Dispatch(sampleId, s.time, s.weight)];
    var retrieve := if cfg.env.printerEmpty(sampleId) then [] else [Retrieve];
    var commit := CommitOps(cfg, sampleId, sampleId + 1);
    assert RetrievalsFollowDispatches(dispatch + retrieve, cfg.env.printerEmpty);
    if IsMultiple(batch + 1, CommitInterval(cfg, sampleId)) {
      CommitShape(cfg, sampleId, sampleId + 1);
      NoRetrievalsNoDispatches(commit, cfg.env.printerEmpty);
      RetrievalsAppend(dispatch + retrieve, commit, cfg.env.printerEmpty);
    }
  }

  lemma InnerRetrievalsStep(cfg: LoopConfig, s: ShutterSample, n: nat, sampleId: nat, batch: nat)
    requires n >= 1
    requires RetrievalsFollowDispatches(Inner(cfg, s, n - 1, sampleId, batch).ops, cfg.env.printerEmpty)
    ensures RetrievalsFollowDispatches(Inner(cfg, s, n, sampleId, batch).ops, cfg.env.printerEmpty)
  {
    var r := Inner(cfg, s, n - 1, sampleId, batch);
    var d := Step(cfg, s, r.sampleId, r.batch);
    StepRetrievals(cfg, s, r.sampleId, r.batch);
    StepDispatch(cfg, s, r.sampleId, r.batch);
    RetrievalsAppend(r.ops, d.ops, cfg.env.printerEmpty);
  }

  /** A non-empty inner loop starts with its first dispatch. */
  lemma {:induction false} InnerStartsWithDispatch(cfg: LoopConfig, s: ShutterSample, n: nat, sampleId: nat, batch: nat)
    ensures n > 0 ==> |Inner(cfg, s, n, sampleId, batch).ops| > 0
    ensures n > 0 ==> Inner(cfg, s, n, sampleId, batch).ops[0] == Dispatch(sampleId, s.time, s.weight)
  {
    if n > 1 {
      var r := Inner(cfg, s, n - 1, sampleId, batch);
      var d := Step(cfg, s, r.sampleId, r.batch);
      InnerStartsWithDispatch(cfg, s, n - 1, sampleId, batch);
      assert Inner(cfg, s, n, sampleId, batch).ops == r.ops + d.ops;
    } else if n == 1 {
      StepDispatch(cfg, s, sampleId, batch);
    }
  }

  lemma {:induction false} InnerRetrievals(cfg: LoopConfig, s: ShutterSample, n: nat, sampleId: nat, batch: nat)
    ensures RetrievalsFollowDispatches(Inner(cfg, s, n, sampleId, batch).ops, cfg.env.printerEmpty)
  {
    if n > 0 {
      InnerRetrievals(cfg, s, n - 1, sampleId, batch);
      InnerRetrievalsStep(cfg, s, n, sampleId, batch);
    }
  }

  /** One shutter sample's part of the loop: its update, then its inner loop. */
  lemma UpdateThenInnerRetrievals(cfg: LoopConfig, s: ShutterSample, sampleId: nat, batch: nat)
    ensures var tail := [PipelineUpdate(s.time)] + Inner(cfg, s, s.spp, sampleId, batch).ops;
      RetrievalsFollowDispatches(tail, cfg.env.printerEmpty) && tail[0] == PipelineUpdate(s.time)
  {
    var pu := [PipelineUpdate(s.time)];
    var q := Inner(cfg, s, s.spp, sampleId, batch);
    InnerRetrievals(cfg, s, s.spp, sampleId, batch);
    InnerStartsWithDispatch(cfg, s, s.spp, sampleId, batch);
    assert q.ops != [] ==> !q.ops[0].Retrieve?;
    assert RetrievalsFollowDispatches(pu, cfg.env.printerEmpty);
    RetrievalsAppend(pu, q.ops, cfg.env.printerEmpty);
    assert (pu + q.ops)[0] == pu[0];
  }

  lemma OuterRetrievalsStep(cfg: LoopConfig, schedule: seq<ShutterSample>)
    requires schedule != []
    requires RetrievalsFollowDispatches(Outer(cfg, schedule[..|schedule| - 1]).ops, cfg.env.printerEmpty)
    ensures RetrievalsFollowDispatches(Outer(cfg, schedule).ops, cfg.env.printerEmpty)
    ensures Outer(cfg, schedule).ops[0].PipelineUpdate?
  {
    var init := schedule[..|schedule| - 1];
    var s := schedule[|schedule| - 1];
    var r := Outer(cfg, init);
    var q := Inner(cfg, s, s.spp, r.sampleId, r.batch);
    var tail := [PipelineUpdate(s.time)] + q.ops;
    UpdateThenInnerRetrievals(cfg, s, r.sampleId, r.batch);
    RetrievalsAppend(r.ops, tail, cfg.env.printerEmpty);
    assert Outer(cfg, schedule).ops == r.ops + tail;
    if r.ops != [] {
      OuterStartsWithUpdate(cfg, init);
      assert (r.ops + tail)[0] == r.ops[0];
    } else {
      assert r.ops + tail == tail;
    }
  }

  /** A non-empty loop trace starts with the update of the first shutter sample. */
  lemma {:induction false} OuterStartsWithUpdate(cfg: LoopConfig, schedule: seq<ShutterSample>)
    ensures Outer(cfg, schedule).ops != [] ==> Outer(cfg, schedule).ops[0].PipelineUpdate?
  {
    if schedule != [] {
      var init := schedule[..|schedule| - 1];
      var s := schedule[|schedule| - 1];
      var r := Outer(cfg, init);
      var q := Inner(cfg, s, s.spp, r.sampleId, r.batch);
      OuterStartsWithUpdate(cfg, init);
      assert Outer(cfg, schedule).ops == r.ops + [PipelineUpdate(s.time)] + q.ops;
    }
  }

  lemma {:induction false} OuterRetrievals(cfg: LoopConfig, schedule: seq<ShutterSample>)
    ensures RetrievalsFollowDispatches(Outer(cfg, schedule).ops, cfg.env.printerEmpty)
  {
    if schedule != [] {
      OuterRetrievals(cfg, schedule[..|schedule| - 1]);
      OuterRetrievalsStep(cfg, schedule);
    }
  }

  lemma {:induction false} InnerLoopOps(cfg: LoopConfig, s: ShutterSample, n: nat, sampleId: nat, batch: nat)
    ensures AllLoopOps(Inner(cfg, s, n, sampleId, batch).ops)
  {
    if n > 0 {
      var r := Inner(cfg, s, n - 1, sampleId, batch);
      InnerLoopOps(cfg, s, n - 1, sampleId, batch);
      StepLoopOps(cfg, s, r.sampleId, r.batch);
    }
  }

  /** The loop appends only updates, dispatches, retrievals and commit operations: no barrier. */
  lemma {:induction false} OuterLoopOps(cfg: LoopConfig, schedule: seq<ShutterSample>)
    ensures AllLoopOps(Outer(cfg, schedule).ops)
  {
    if schedule != [] {
      var init := schedule[..|schedule| - 1];
      var s := schedule[|schedule| - 1];
      var r := Outer(cfg, init);
      OuterLoopOps(cfg, init);
      InnerLoopOps(cfg, s, s.spp, r.sampleId, r.batch);
    }
  }

  // ---------------------------------------------------------------------------
  // The whole of one camera's pass
  // ---------------------------------------------------------------------------

  /** No setup operation is a dispatch, a retrieval, a progress report or a film lifecycle step. */
  ghost predicate Quiet(ops: seq<Op>) {
    forall i :: 0 <= i < |ops| ==>
      !ops[i].Dispatch? && !ops[i].Retrieve? && !ops[i].ProgressUpdate? && !ops[i].DeferredProgress?
      && !ops[i].FilmPrepare? && !ops[i].Download? && !ops[i].FilmRelease? && !ops[i].SaveImage?
  }

  lemma SetupQuiet(cfg: LoopConfig, width: nat, height: nat)
    ensures Quiet(Setup(cfg, width, height))
    ensures DispatchIds(Setup(cfg, width, height)) == []
    ensures ReportIds(Setup(cfg, width, height)) == []
    ensures Lifecycle(Setup(cfg, width, height)) == []
  {
    NothingKept(Setup(cfg, width, height));
  }

  lemma FramedDispatches(setup: seq<Op>, spp: nat, loop: seq<Op>)
    requires DispatchIds(setup) == []
    ensures DispatchIds(Framed(setup, spp, loop)) == DispatchIds(loop)
  {
    var start := [ProgressUpdate(Fraction(0, spp))];
    var epi := [Synchronize, ProgressDone];
    DispatchIdsAppend(setup + start + loop, epi);
    DispatchIdsAppend(setup + start, loop);
    DispatchIdsAppend(setup, start);
    assert DispatchIds(start) == [] && DispatchIds(epi) == [];
  }

  /** Dispatch totals over one camera's pass: ids 0 .. total-1 in order; setup and the final barrier add none. */
  lemma CameraDispatches(cfg: LoopConfig, width: nat, height: nat, schedule: seq<ShutterSample>)
    ensures DispatchIds(CameraOps(cfg, width, height, schedule)) == seq(Total(schedule), i requires 0 <= i => i)
  {
    SetupQuiet(cfg, width, height);
    DispatchTotals(cfg, schedule);
    FramedDispatches(Setup(cfg, width, height), cfg.spp, Outer(cfg, schedule).ops);
  }

  lemma FramedReportIds(setup: seq<Op>, spp: nat, loop: seq<Op>)
    requires ReportIds(setup) == []
    ensures ReportIds(Framed(setup, spp, loop)) == [0] + ReportIds(loop)
  {
    var start := [ProgressUpdate(Fraction(0, spp))];
    var epi := [Synchronize, ProgressDone];
    var pro := setup + start;
    assert ReportIds(start) == [0];
    assert ReportIds(epi) == [];
    ReportIdsAppend(setup, start);
    assert ReportIds(pro) == [0];
    ReportIdsAppend(pro, loop);
    ReportIdsAppend(pro + loop, epi);
    assert Framed(setup, spp, loop) == pro + loop + epi;
    assert ReportIds(pro + loop + epi) == ReportIds(pro) + ReportIds(loop) + [];
  }

  /** Reporting 0 before strictly increasing positive values keeps them strictly increasing. */
  lemma ZeroFirst(later: seq<nat>, total: nat)
    requires StrictlyIncreasing(later) && Within(later, 0, total)
    ensures var ids := [0] + later;
      && StrictlyIncreasing(ids)
      && (forall i :: 0 <= i < |ids| ==> ids[i] <= total)
  {
    var ids := [0] + later;
    forall i, j | 0 <= i < j < |ids| ensures ids[i] < ids[j] {
      assert ids[j] == later[j - 1];
      if i > 0 {
        assert ids[i] == later[i - 1];
      }
    }
    forall i | 0 <= i < |ids| ensures ids[i] <= total {
      if i > 0 {
        assert ids[i] == later[i - 1];
      }
    }
  }

  /** Progress over one camera's pass: 0 first, then the commit values, strictly increasing, never beyond the total. */
  lemma CameraReports(cfg: LoopConfig, width: nat, height: nat, schedule: seq<ShutterSample>)
    ensures var ids := ReportIds(CameraOps(cfg, width, height, schedule));
      && |ids| >= 1 && ids[0] == 0
      && StrictlyIncreasing(ids)
      && (forall i :: 0 <= i < |ids| ==> ids[i] <= Total(schedule))
  {
    SetupQuiet(cfg, width, height);
    OuterReports(cfg, schedule);
    FramedReportIds(Setup(cfg, width, height), cfg.spp, Outer(cfg, schedule).ops);
    ZeroFirst(ReportIds(Outer(cfg, schedule).ops), Total(schedule));
  }

  lemma FramedRetrievals(setup: seq<Op>, spp: nat, loop: seq<Op>, printerEmpty: nat -> bool)
    requires Quiet(setup)
    requires RetrievalsFollowDispatches(loop, printerEmpty)
    requires loop == [] || !loop[0].Retrieve?
    ensures RetrievalsFollowDispatches(Framed(setup, spp, loop), printerEmpty)
  {
    var pro := setup + [ProgressUpdate(Fraction(0, spp))];
    var epi := [Synchronize, ProgressDone];
    NoRetrievalsNoDispatches(pro, printerEmpty);
    NoRetrievalsNoDispatches(epi, printerEmpty);
    RetrievalsAppend(pro, loop, printerEmpty);
    RetrievalsAppend(pro + loop, epi, printerEmpty);
  }

  /** Over one camera's pass a retrieval follows exactly the dispatches with a non-empty printer. */
  lemma CameraRetrievals(cfg: LoopConfig, width: nat, height: nat, schedule: seq<ShutterSample>)
    ensures RetrievalsFollowDispatches(CameraOps(cfg, width, height, schedule), cfg.env.printerEmpty)
  {
    SetupQuiet(cfg, width, height);
    OuterRetrievals(cfg, schedule);
    OuterStartsWithUpdate(cfg, schedule);
    FramedRetrievals(Setup(cfg, width, height), cfg.spp, Outer(cfg, schedule).ops, cfg.env.printerEmpty);
  }

  /** In a framed pass no dispatch is followed by a barrier other than the final one. */
  lemma FramedBarrier(setup: seq<Op>, spp: nat, loop: seq<Op>)
    requires Quiet(setup)
    requires AllLoopOps(loop)
    ensures var ops := Framed(setup, spp, loop);
      forall p, q :: 0 <= p < q < |ops| && ops[p].Dispatch? && ops[q] == Synchronize ==> q == |ops| - 2
  {
    var pro := setup + [ProgressUpdate(Fraction(0, spp))];
    var epi := [Synchronize, ProgressDone];
    var ops := Framed(setup, spp, loop);
    assert ops == pro + loop + epi;
    LoopOpsHaveNoLifecycle(loop);
    assert forall i :: 0 <= i < |loop| ==> loop[i] != Synchronize;
    assert forall i :: 0 <= i < |pro| ==> !pro[i].Dispatch?;
  }

  lemma FramedEnd(setup: seq<Op>, spp: nat, loop: seq<Op>)
    requires Quiet(setup)
    requires AllLoopOps(loop)
    ensures var ops := Framed(setup, spp, loop);
      && ops[|ops| - 2..] == [Synchronize, ProgressDone]
      && (forall p, q :: 0 <= p < q < |ops| && ops[p].Dispatch? && ops[q] == Synchronize ==> q == |ops| - 2)
      && Lifecycle(ops) == []
  {
    var pro := setup + [ProgressUpdate(Fraction(0, spp))];
    var epi := [Synchronize, ProgressDone];
    var ops := Framed(setup, spp, loop);
    assert ops == (pro + loop) + epi;
    NothingKept(pro);
    LoopOpsHaveNoLifecycle(loop);
    LifecycleAppend(pro + loop, epi);
    LifecycleAppend(pro, loop);
    assert Lifecycle(epi) == [];
    FramedBarrier(setup, spp, loop);
  }

  /**
   * The end of one camera's pass: the only barrier after any dispatch is the final
   * synchronize, which is followed only by progress done; the pass touches no film.
   */
  lemma CameraEnd(cfg: LoopConfig, width: nat, height: nat, schedule: seq<ShutterSample>)
    ensures var ops := CameraOps(cfg, width, height, schedule);
      && ops[|ops| - 2..] == [Synchronize, ProgressDone]
      && (forall p, q :: 0 <= p < q < |ops| && ops[p].Dispatch? && ops[q] == Synchronize ==> q == |ops| - 2)
      && Lifecycle(ops) == []
  {
    SetupQuiet(cfg, width, height);
    OuterLoopOps(cfg, schedule);
    FramedEnd(Setup(cfg, width, height), cfg.spp, Outer(cfg, schedule).ops);
  }
}
